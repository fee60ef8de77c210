/** `retry_queued` walks a list it read beforehand. When that list goes stale, and what comes of it. */
module StaleRetry {
  import opened Basics
  import opened Contract
  import opened Spool
  import opened PrintLoop
  import opened History
  import opened PrintLoopInvariant
  import opened PrintLoopSteps
  import opened PrintLoopJournal
  import opened PrintLoopLimits
  import EveryRun

  // --- turn by turn -----------------------------------------------------------

  /** The link hypothesis for the submissions `retry_queued` makes, up to the first of a job
      that has left the queue. */
  ghost predicate RetryLinkHolds(env: Env, s: State, ids: seq<JobId>)
    decreases |ids|
  {
    ids != [] ==>
      if Due(env, s, ids[0]) then
        var s0 := s.(stalled := s.stalled[ids[0] := env.now]);
        && ids[0] in s.tables.jobs
        && (Awaiting(s.tables, ids[0]) ==>
              LinkHolds(env, s0, ids[0]) && RetryLinkHolds(env, Submit(env, s0, ids[0]).(raised := false), ids[1..]))
      else RetryLinkHolds(env, s, ids[1..])
  }

  /** Is each job still waiting when its turn to be retried comes? */
  ghost predicate EachStillWaiting(env: Env, s: State, ids: seq<JobId>)
    decreases |ids|
  {
    ids != [] ==>
      if Due(env, s, ids[0]) then
        var s0 := s.(stalled := s.stalled[ids[0] := env.now]);
        && Awaiting(s.tables, ids[0])
        && EachStillWaiting(env, Submit(env, s0, ids[0]).(raised := false), ids[1..])
      else EachStillWaiting(env, s, ids[1..])
  }

  lemma {:induction false} RetryEachExtends(env: Env, s: State, ids: seq<JobId>)
    requires !s.raised
    ensures s.journal <= RetryEach(env, s, ids).journal
    decreases |ids|
  {
    if ids != [] {
      hide Submit;
      if Due(env, s, ids[0]) {
        var s0 := s.(stalled := s.stalled[ids[0] := env.now]);
        SubmitOrder(env, s0, ids[0]);
        RetryEachExtends(env, Submit(env, s0, ids[0]).(raised := false), ids[1..]);
      } else {
        RetryEachExtends(env, s, ids[1..]);
      }
    }
  }

  /** `retry_queued` walks a list it read beforehand. It keeps the invariant exactly when every
      job is still waiting at its turn, which it does not check. */
  lemma {:induction false} RetryKeepsIffEachStillWaiting(env: Env, s: State, ids: seq<JobId>)
    requires Inv(s, []) && RetryLinkHolds(env, s, ids)
    ensures Inv(RetryEach(env, s, ids), []) <==> EachStillWaiting(env, s, ids)
    decreases |ids|
  {
    if ids != [] {
      hide Inv, Submit, LinkHolds, QueuedIn;
      InvIsUnraised(s);
      if Due(env, s, ids[0]) {
        var s0 := s.(stalled := s.stalled[ids[0] := env.now]);
        StalledIsNoAccount(s, s0.stalled);
        var s1 := Submit(env, s0, ids[0]);
        if Awaiting(s.tables, ids[0]) {
          WaitingIsQueued(s0, ids[0]);
          SubmitKeeps(env, s0, ids[0]);
          NotRaised(s1);
          RetryKeepsIffEachStillWaiting(env, s1, ids[1..]);
        } else {
          OutOfTurn(env, s0, ids[0]);
          RetryEachExtends(env, s1.(raised := false), ids[1..]);
          if Inv(RetryEach(env, s1.(raised := false), ids[1..]), []) {
            InvHasSoundPast(s1, RetryEach(env, s1.(raised := false), ids[1..]));
          }
        }
      } else {
        RetryKeepsIffEachStillWaiting(env, s, ids[1..]);
      }
    }
  }

  lemma {:induction false} NothingInFlightStaysWaiting(env: Env, s: State, ids: seq<JobId>)
    requires Inv(s, []) && RetryLinkHolds(env, s, ids)
    requires forall id :: id in ids ==> Submittable(s, id)
    requires forall i, k :: 0 <= i < k < |ids| ==> ids[i] != ids[k]
    ensures EachStillWaiting(env, s, ids)
    decreases |ids|
  {
    if ids != [] {
      hide Inv, Submit, LinkHolds;
      if Due(env, s, ids[0]) {
        var s0 := s.(stalled := s.stalled[ids[0] := env.now]);
        StalledIsNoAccount(s, s0.stalled);
        assert Submittable(s, ids[0]) && s0.tables == s.tables && s0.acc == s.acc;
        SubmitKeeps(env, s0, ids[0]);
        var s1 := Submit(env, s0, ids[0]);
        NotRaised(s1);
        forall k | k in ids[1..] ensures Submittable(s1, k) {
          assert Submittable(s, k);
          StillSubmittable(env, s0, ids[0], k);
        }
        NothingInFlightStaysWaiting(env, s1, ids[1..]);
      } else {
        NothingInFlightStaysWaiting(env, s, ids[1..]);
      }
    }
  }

  /** With nothing in flight when it starts, `retry_queued` is safe. */
  lemma RetryWithNothingInFlight(env: Env, s: State)
    requires Inv(s, []) && s.acc == map[] && RetryLinkHolds(env, s, QueuedIds(s.tables))
    ensures Inv(RetryQueued(env, s), [])
  {
    hide Inv, RetryEach, RetryLinkHolds, EachStillWaiting;
    QueuedTurns(s);
    NothingInFlightStaysWaiting(env, s, QueuedIds(s.tables));
    RetryKeepsIffEachStillWaiting(env, s, QueuedIds(s.tables));
  }

  // --- what one submission does to another job --------------------------------

  /** Neither in flight nor in the strip. */
  ghost predicate Away(s: State, k: JobId) {
    k !in s.acc && !Mentions(s.buffer.pending, k)
  }

  /** When was this job last sent back to the queue? */
  function Stamp(s: State, k: JobId): real {
    if k in s.stalled then s.stalled[k] else 0.0
  }

  /** From s to s1 job k is as it was, or it left the flight: finished and unstamped, or sent
      back to the queue. A job that was away stays away, as it was. */
  ghost predicate Drifts(s: State, s1: State, k: JobId) {
    && (k in s.tables.jobs ==> k in s1.tables.jobs)
    && (Away(s, k) ==> Away(s1, k) && SameRow(s, s1, k) && SamePrinted(s, s1, k) && Stamp(s1, k) == Stamp(s, k))
    && (k in s.acc ==>
          || (k in s1.acc && Stamp(s1, k) == Stamp(s, k))
          || (Away(s1, k) && (Stamp(s1, k) == Stamp(s, k) || Awaiting(s1.tables, k))))
  }

  ghost predicate SameRow(s: State, s1: State, k: JobId) {
    (k in s1.tables.jobs <==> k in s.tables.jobs) && (k in s.tables.jobs ==> s1.tables.jobs[k] == s.tables.jobs[k])
  }

  ghost predicate SamePrinted(s: State, s1: State, k: JobId) {
    forall i :: (k, i) in s1.tables.printed <==> (k, i) in s.tables.printed
  }

  lemma DriftsThen(s: State, s1: State, s2: State, k: JobId)
    requires Drifts(s, s1, k) && Drifts(s1, s2, k)
    ensures Drifts(s, s2, k)
  {
    hide Away;
  }

  lemma {:induction false} SendDrifts(env: Env, s: State, copies: seq<PendingLabel>, strip: bool, attempt: nat, k: JobId)
    ensures var s1 := SendFrom(env, s, copies, strip, attempt).0; Still(s, s1) && SamePrinted(s, s1, k) && s1.acc == s.acc
    decreases env.cfg.maxAttempts - attempt
  {
    if attempt < env.cfg.maxAttempts {
      SendDrifts(env, Emit(s, Tried(copies, strip, env.link(|s.journal|))), copies, strip, attempt + 1, k);
    }
  }

  /** Rows, stamps and the strip are as they were. */
  ghost predicate Still(s: State, s1: State) {
    s1.tables.jobs == s.tables.jobs && s1.stalled == s.stalled && s1.buffer == s.buffer && s1.acc.Keys == s.acc.Keys
  }

  lemma {:induction false} SettleDrifts(s: State, labels: seq<PendingLabel>, ok: bool, strip: bool, k: JobId)
    ensures var s1 := SettleAll(s, labels, ok, strip); Still(s, s1) && (!Mentions(labels, k) ==> SamePrinted(s, s1, k))
    decreases |labels|
  {
    if labels != [] && !s.raised {
      SettleDrifts(SettleOne(s, labels[0], ok, strip), labels[1..], ok, strip, k);
    }
  }

  lemma {:induction false} FinalizeDrifts(s: State, ids: seq<JobId>, k: JobId)
    requires !Mentions(s.buffer.pending, k)
    ensures var s1 := FinalizeEach(s, ids); Drifts(s, s1, k) && s1.buffer == s.buffer && SamePrinted(s, s1, k)
    decreases |ids|
  {
    hide Complete, ResultOf, Mentions;
    if ids != [] {
      FinalizeDrifts(MaybeFinalize(s, ids[0]), ids[1..], k);
    }
  }

  lemma {:induction false} StallDrifts(s: State, ids: seq<JobId>, now: real, k: JobId)
    requires !Mentions(s.buffer.pending, k) && k in s.tables.jobs
    requires k in ids ==> k in s.acc || (Awaiting(s.tables, k) && Stamp(s, k) == now)
    ensures var s1 := StallEach(s, ids, now);
            && s1.buffer == s.buffer && k in s1.tables.jobs && SamePrinted(s, s1, k)
            && (k !in ids ==> SameRow(s, s1, k) && Stamp(s1, k) == Stamp(s, k) && (k in s1.acc <==> k in s.acc))
            && (k in ids ==> k !in s1.acc && Awaiting(s1.tables, k))
    decreases |ids|
  {
    hide Mentions;
    if ids != [] {
      var s1 := StallOne(s, ids[0], now);
      StallDrifts(s1, ids[1..], now, k);
    }
  }

  /** Its row exists, and it is in flight if it is in the strip. */
  ghost predicate Known(s: State, k: JobId) {
    k in s.tables.jobs && (Mentions(s.buffer.pending, k) ==> k in s.acc)
  }

  lemma FlushDrifts(env: Env, s: State, k: JobId)
    requires Known(s, k)
    ensures Drifts(s, Flush(env, s), k) && Known(Flush(env, s), k)
  {
    hide PrintStrip, Drifts;
    FlushEmpties(env, s);
    DriftsNowhere(s, k);
    if s.buffer.pending != [] {
      PrintStripDrifts(env, s, k);
      NothingPending(Flush(env, s), s, k);
    }
  }

  lemma NothingPending(s1: State, s: State, k: JobId)
    requires Drifts(s, s1, k) && k in s.tables.jobs && s1.buffer.pending == []
    ensures Known(s1, k)
  {
  }

  lemma PrintStripDrifts(env: Env, s: State, k: JobId)
    requires Known(s, k) && s.buffer.pending != []
    ensures Drifts(s, PrintStrip(env, s.(buffer := EMPTY_BUFFER), s.buffer.pending), k)
  {
    hide SendFrom, SettleAll, FinalizeEach, StallEach, JobIds;
    var labels := s.buffer.pending;
    var s0 := s.(buffer := EMPTY_BUFFER);
    assert k in JobIds(labels) <==> Mentions(labels, k);
    hide Mentions;
    NothingMentioned(k);
    SendDrifts(env, s0, labels, true, 0, k);
    var r := Send(env, s0, labels, true);
    if !r.1.ok && !r.1.wrote {
      StallDrifts(r.0, JobIds(labels), env.now, k);
    } else {
      SettleDrifts(r.0, labels, r.1.ok, true, k);
      FinalizeDrifts(SettleAll(r.0, labels, r.1.ok, true), JobIds(labels), k);
    }
  }

  lemma NothingMentioned(k: JobId)
    ensures !Mentions([], k)
  {
  }

  lemma JoinDrifts(env: Env, s: State, pl: PendingLabel, k: JobId)
    requires Known(s, k) && pl.job != k
    ensures var s1 := s.(buffer := AddTo(s.buffer, pl, env.cfg.tapeWidth, env.now)); Drifts(s, s1, k) && Known(s1, k)
  {
  }

  lemma DriftsNowhere(s: State, k: JobId)
    requires Known(s, k)
    ensures Drifts(s, s, k)
  {
  }

  lemma AddOneDrifts(env: Env, s: State, pl: PendingLabel, k: JobId)
    requires Known(s, k) && pl.job != k
    ensures Drifts(s, AddOne(env, s, pl), k) && Known(AddOne(env, s, pl), k)
  {
    hide Flush, IsFull, Drifts, Known;
    DriftsNowhere(s, k);
    FlushDrifts(env, s, k);
    var s1 := if Accepts(s.buffer, env.cfg.tapeWidth) then s else Flush(env, s);
    if !s1.raised {
      JoinDrifts(env, s1, pl, k);
      var s2 := s1.(buffer := AddTo(s1.buffer, pl, env.cfg.tapeWidth, env.now));
      DriftsThen(s, s1, s2, k);
      FlushDrifts(env, s2, k);
      DriftsThen(s, s2, Flush(env, s2), k);
    }
  }

  lemma {:induction false} AddAllDrifts(env: Env, s: State, todo: seq<PendingLabel>, k: JobId)
    requires Known(s, k) && !Mentions(todo, k)
    ensures Drifts(s, AddAll(env, s, todo), k) && Known(AddAll(env, s, todo), k)
    decreases |todo|
  {
    hide AddOne, Drifts, Known;
    DriftsNowhere(s, k);
    if todo != [] && !s.raised {
      var s1 := AddOne(env, s, todo[0]);
      AddOneDrifts(env, s, todo[0], k);
      AddAllDrifts(env, s1, todo[1..], k);
      DriftsThen(s, s1, AddAll(env, s1, todo[1..]), k);
    }
  }

  /** Finalising or stalling one job leaves every other as it was. */
  lemma OthersDrift(s: State, id: JobId, now: real, k: JobId)
    requires Known(s, k) && id != k
    ensures Drifts(s, MaybeFinalize(s, id), k) && Known(MaybeFinalize(s, id), k)
    ensures Drifts(s, Finalize(s, id), k) && Known(Finalize(s, id), k)
    ensures Drifts(s, StallEach(s, [id], now), k) && Known(StallEach(s, [id], now), k)
  {
    hide Complete, ResultOf;
    assert [id][1..] == [];
  }

  lemma FrameDrifts(env: Env, s: State, pl: PendingLabel, k: JobId)
    requires Known(s, k) && pl.job != k
    ensures var r := Send(env, s, [pl], false); var s1 := SettleOne(r.0, pl, r.1.ok, false);
            && Drifts(s, r.0, k) && Known(r.0, k) && Drifts(s, s1, k) && Known(s1, k)
  {
    hide SendFrom;
    SendDrifts(env, s, [pl], false, 0, k);
  }

  lemma {:induction false} RunDiscreteDrifts(env: Env, s: State, id: JobId, todo: seq<PendingLabel>, k: JobId)
    requires Known(s, k) && id != k && !Mentions(todo, k)
    ensures Drifts(s, RunDiscrete(env, s, id, todo), k) && Known(RunDiscrete(env, s, id, todo), k)
    decreases |todo|
  {
    hide Send, SettleOne, StallEach, MaybeFinalize, Finalize, Drifts, Known;
    DriftsNowhere(s, k);
    OthersDrift(s, id, env.now, k);
    if !s.raised && todo != [] {
      FrameDrifts(env, s, todo[0], k);
      var r := Send(env, s, [todo[0]], false);
      OthersDrift(r.0, id, env.now, k);
      DriftsThen(s, r.0, StallEach(r.0, [id], env.now), k);
      var s1 := SettleOne(r.0, todo[0], r.1.ok, false);
      RunDiscreteDrifts(env, s1, id, todo[1..], k);
      DriftsThen(s, s1, RunDiscrete(env, s1, id, todo[1..]), k);
    }
  }

  lemma BufferCopiesDrifts(env: Env, s: State, id: JobId, todo: seq<PendingLabel>, flush: bool, k: JobId)
    requires Known(s, k) && id != k && !Mentions(todo, k)
    ensures Drifts(s, BufferCopies(env, s, id, todo, flush), k) && Known(BufferCopies(env, s, id, todo, flush), k)
  {
    hide AddAll, Flush, MaybeFinalize, Finalize, StallEach, Drifts, Known;
    var s1 := AddAll(env, s, todo);
    AddAllDrifts(env, s, todo, k);
    FlushDrifts(env, s1, k);
    DriftsThen(s, s1, Flush(env, s1), k);
    var s2 := if flush && !s1.raised then Flush(env, s1) else s1;
    OthersDrift(s2, id, env.now, k);
    DriftsThen(s, s2, MaybeFinalize(s2, id), k);
  }

  lemma {:induction false} PlanDrifts(env: Env, s: State, job: PrintJob, already: set<nat>, n: nat, k: JobId)
    requires n <= |job.labels|
    ensures var s1 := PlanLabels(env, s, job, already, n).0; Still(s, s1) && SamePrinted(s, s1, k) && s1.acc == s.acc
  {
    if n > 0 {
      PlanDrifts(env, s, job, already, n - 1, k);
    }
  }

  lemma PrepareDrifts(env: Env, s: State, id: JobId, k: JobId)
    requires id in s.tables.jobs && Known(s, k) && id != k
    ensures var s1 := Prepare(env, s, id).0;
            && Drifts(s, s1, k) && Known(s1, k) && SameRow(s, s1, k) && Stamp(s1, k) == Stamp(s, k)
            && s1.acc.Keys == s.acc.Keys + {id} && s1.buffer == s.buffer
  {
    hide PlanLabels, Mentions;
    var job := s.tables.jobs[id].job;
    var s1 := Emit(s, Marked(id, Printing));
    PlanDrifts(env, s1, job, PrintedLabels(s1.tables, id), |job.labels|, k);
  }

  lemma NotMentioned(id: JobId, plan: seq<Decision>, k: JobId)
    requires id != k
    ensures !Mentions(Expand(id, plan), k)
  {
    ExpandCounts(id, plan, 0);
  }

  /** What submitting one job does to another, whatever the link does. */
  lemma SubmitDrifts(env: Env, s: State, id: JobId, k: JobId)
    requires id in s.tables.jobs && Known(s, k) && id != k
    ensures Drifts(s, Submit(env, s, id), k) && Known(Submit(env, s, id), k)
  {
    hide Flush, RunDiscrete, BufferCopies, Finalize, MaybeFinalize, StallEach, Prepare, Expand, Drifts, Known, Total;
    var job := s.tables.jobs[id].job;
    if WrongModel(job) {
      ConcludeDrifts(s, id, Rejection(job), k);
    } else {
      var r := Prepare(env, s, id);
      var todo := Expand(id, r.1);
      PrepareDrifts(env, s, id, k);
      NotMentioned(id, r.1, k);
      OthersDrift(r.0, id, env.now, k);
      DriftsThen(s, r.0, Finalize(r.0, id), k);
      FlushDrifts(env, r.0, k);
      DriftsThen(s, r.0, Flush(env, r.0), k);
      RunDiscreteDrifts(env, Flush(env, r.0), id, todo, k);
      DriftsThen(s, Flush(env, r.0), RunDiscrete(env, Flush(env, r.0), id, todo), k);
      BufferCopiesDrifts(env, r.0, id, todo, job.flush || AsStrip(env.cfg, job), k);
      DriftsThen(s, r.0, BufferCopies(env, r.0, id, todo, job.flush || AsStrip(env.cfg, job)), k);
      PreparedAcc(env, s, id);
    }
  }

  lemma ConcludeDrifts(s: State, id: JobId, r: JobResult, k: JobId)
    requires Known(s, k) && id != k
    ensures Drifts(s, Conclude(s, id, r), k) && Known(Conclude(s, id, r), k)
  {
  }

  // --- a printer that is there ------------------------------------------------

  /** Every attempt begins its frame, whether or not it breaks off. */
  ghost predicate Present(env: Env) {
    env.cfg.maxAttempts > 0 && forall n: nat :: !env.link(n).ConnectFailed?
  }

  /** And every frame does. */
  ghost predicate Breaks(env: Env) {
    forall n: nat :: env.link(n).PrintFailed?
  }

  lemma {:induction false} PresentWrites(env: Env, s: State, copies: seq<PendingLabel>, strip: bool, attempt: nat)
    requires Present(env) && attempt < env.cfg.maxAttempts
    ensures var out := SendFrom(env, s, copies, strip, attempt).1; out.wrote && (Breaks(env) ==> !out.ok)
    decreases env.cfg.maxAttempts - attempt
  {
    var o := env.link(|s.journal|);
    if o.PrintFailed? && !strip && o.retryable && attempt + 1 < env.cfg.maxAttempts {
      PresentWrites(env, Emit(s, Tried(copies, strip, o)), copies, strip, attempt + 1);
    }
  }

  /** Then a flush finishes every job in flight that has no copies still to come, and no other. */
  lemma PresentFlush(env: Env, s: State, todo: seq<PendingLabel>, k: JobId)
    requires Inv(s, todo) && Present(env) && k in s.acc
    ensures var s1 := Flush(env, s);
            && Inv(s1, todo) && s1.buffer.pending == []
            && (k in s1.acc <==> Mentions(todo, k))
            && (k !in s1.acc ==> Stored(env, s1, k))
  {
    hide Conserved, PrintStrip, Send, Unsettled, LostUncommitted;
    FlushEmpties(env, s);
    TakeBuffer(s, todo);
    InFlightIsOut(s, todo, k);
    if s.buffer.pending != [] {
      var s0 := s.(buffer := EMPTY_BUFFER);
      PresentSend(env, s0, s.buffer.pending);
      BegunStrip(env, s0, s.buffer.pending, todo, k);
      Emptied(Flush(env, s), todo);
    } else {
      assert s.buffer.pending + todo == todo;
    }
  }

  lemma PresentSend(env: Env, s: State, copies: seq<PendingLabel>)
    requires Present(env)
    ensures var out := Send(env, s, copies, true).1; out.wrote && (Breaks(env) ==> !out.ok)
  {
    PresentWrites(env, s, copies, true, 0);
  }

  /** The same for a strip, whether or not the job has copies in it. */
  lemma BegunStrip(env: Env, s: State, labels: seq<PendingLabel>, rest: seq<PendingLabel>, k: JobId)
    requires Conserved(s, labels + rest) && Unsettled(s) && s.buffer.pending == [] && labels != []
    requires k in s.acc && (Mentions(labels, k) || Mentions(rest, k))
    requires var out := Send(env, s, labels, true).1; out.wrote && (Breaks(env) ==> !out.ok)
    ensures var s1 := PrintStrip(env, s, labels);
            && Conserved(s1, rest) && Unsettled(s1) && s1.buffer == s.buffer
            && (k in s1.acc <==> Mentions(rest, k))
            && (k !in s1.acc ==> Stored(env, s1, k))
  {
    hide Conserved, PrintStrip, Send, Unsettled, LostUncommitted;
    var c := labels[0];
    BegunStripFinishesExactlyItsLast(env, s, labels, rest, c.job);
    if Mentions(labels, k) {
      BegunStripFinishesExactlyItsLast(env, s, labels, rest, k);
    } else {
      RestInFlight(PrintStrip(env, s, labels), rest, k);
    }
  }

  lemma InFlightIsOut(s: State, todo: seq<PendingLabel>, k: JobId)
    requires Inv(s, todo) && k in s.acc
    ensures Mentions(s.buffer.pending, k) || Mentions(todo, k)
  {
    hide SoundJournal, Replay;
    var out := s.buffer.pending + todo;
    CompleteWhenNoneOut(s.journal, s.tables, s.acc[k], out, k);
    var c :| c in out && c.job == k;
  }

  lemma Emptied(s: State, todo: seq<PendingLabel>)
    requires Conserved(s, todo) && Unsettled(s) && s.buffer.pending == []
    ensures Inv(s, todo)
  {
    assert s.buffer.pending + todo == todo;
  }

  /** Nothing stalls, so no job is stalled inside its own buffering loop. */
  lemma {:induction false} PresentNeverStalls(env: Env, s: State, id: JobId, todo: seq<PendingLabel>)
    requires Inv(s, todo) && Present(env) && OfJob(todo, id) && id in s.acc && Joinable(env, s, id)
    ensures NoMidLoopStall(env, s, id, todo)
    decreases |todo|
  {
    hide Inv, Flush, Joinable;
    if |todo| > 1 {
      var pl, rest := todo[0], todo[1..];
      assert todo == [pl] + rest && rest[0] in rest;
      PresentAddOne(env, s, id, pl, rest);
      AddOneKeeps(env, s, id, pl, rest);
      PresentNeverStalls(env, AddOne(env, s, pl), id, rest);
    }
  }

  lemma PresentAddOne(env: Env, s: State, id: JobId, pl: PendingLabel, rest: seq<PendingLabel>)
    requires Inv(s, [pl] + rest) && Present(env) && OfJob([pl] + rest, id) && id in s.acc && Joinable(env, s, id)
    requires rest != []
    ensures id in AddOne(env, s, pl).acc
  {
    hide Conserved, Unsettled, Flush;
    assert rest[0] in rest && rest[0] in [pl] + rest;
    MakeRoom(env, s, id, [pl] + rest);
    var s1 := if Accepts(s.buffer, env.cfg.tapeWidth) then s else Flush(env, s);
    if !Accepts(s.buffer, env.cfg.tapeWidth) {
      PresentFlush(env, s, [pl] + rest, id);
    }
    var b := AddTo(s1.buffer, pl, env.cfg.tapeWidth, env.now);
    assert s1.buffer.pending + ([pl] + rest) == b.pending + rest;
    Rebuffer(s1, b, [pl] + rest, rest);
    PresentFlush(env, s1.(buffer := b), rest, id);
  }

  lemma PresentLinkHolds(env: Env, s: State, id: JobId)
    requires Inv(s, []) && Submittable(s, id) && Present(env)
    ensures LinkHolds(env, s, id)
  {
    hide Conserved, Prepare, NoMidLoopStall, Complete;
    var job := s.tables.jobs[id].job;
    if !WrongModel(job) && !IsDiscrete(env.cfg, job) {
      var r := Prepare(env, s, id);
      var todo := Expand(id, r.1);
      PrepareKeeps(env, s, id);
      ExpandCounts(id, r.1, 0);
      if todo == [] {
        assert NoMidLoopStall(env, r.0, id, todo) by { NothingToStall(env, r.0, id, todo); }
      } else {
        PreparedInv(env, s, id);
        PresentNeverStalls(env, r.0, id, todo);
      }
    }
  }

  lemma NothingToStall(env: Env, s: State, id: JobId, todo: seq<PendingLabel>)
    requires todo == []
    ensures NoMidLoopStall(env, s, id, todo)
  {
  }

  /** After planning a job that has anything to print. */
  lemma PreparedInv(env: Env, s: State, id: JobId)
    requires Inv(s, []) && Submittable(s, id) && Expand(id, Prepare(env, s, id).1) != []
    ensures var r := Prepare(env, s, id); Inv(r.0, Expand(id, r.1)) && id in r.0.acc && !Mentions(s.buffer.pending, id)
    ensures var r := Prepare(env, s, id);
            r.0.buffer == s.buffer && OfJob(Expand(id, r.1), id) && (forall k :: k in s.acc ==> k in r.0.acc)
            && Total(r.0.acc[id].expected, |s.tables.jobs[id].job.labels|) != 0
  {
    hide Conserved, Prepare, Complete;
    PrepareKeeps(env, s, id);
    PreparedAcc(env, s, id);
    var r := Prepare(env, s, id);
    ExpandCounts(id, r.1, 0);
    SomethingAsked(id, s.tables.jobs[id].job, r.1);
    FreshIsUnsettled(s.tables.jobs[id].job, r.1);
  }

  lemma SomethingAsked(id: JobId, job: PrintJob, plan: seq<Decision>)
    requires |plan| == |job.labels| && Expand(id, plan) != []
    ensures Total(FreshAcc(job, plan).expected, |plan|) != 0
  {
    if Total(FreshAcc(job, plan).expected, |plan|) == 0 {
      NothingAsked(id, job, plan);
    }
  }

  // --- which submissions flush the strip --------------------------------------

  /** Does submitting this job flush the strip? A question of the plan, the strip and the
      settings: the link is not asked. */
  ghost predicate FlushesStrip(cfg: Config, now: real, s: State, id: JobId)
    requires id in s.tables.jobs
  {
    var job, copies := s.tables.jobs[id].job, CopiesOf(cfg, now, s, id);
    && !WrongModel(job) && copies != []
    && (IsDiscrete(cfg, job) || job.flush || AsStrip(cfg, job) || !Accepts(s.buffer, cfg.tapeWidth)
        || Triggers(cfg, s.buffer.pending, copies))
  }

  /** Is the strip full after some of these copies? */
  ghost predicate Triggers(cfg: Config, pending: seq<PendingLabel>, copies: seq<PendingLabel>) {
    exists n :: 0 < n <= |copies| && IsFull(cfg, pending + copies[..n])
  }

  /** Finished, with no copy left in the strip and none of the labels it lost committed; on a
      link that breaks every frame off, with tape partly consumed. */
  ghost predicate Over(env: Env, s: State, k: JobId) {
    && Away(s, k) && Stored(env, s, k)
  }

  ghost predicate Stored(env: Env, s: State, k: JobId) {
    && k in s.tables.jobs && s.tables.jobs[k].result.Some?
    && LostUncommitted(s.tables, k, s.tables.jobs[k].result.value)
    && (Breaks(env) ==> s.tables.jobs[k].result.value.partialTape)
  }

  lemma FinishedDrifts(env: Env, s: State, s1: State, k: JobId)
    requires Over(env, s, k) && Drifts(s, s1, k)
    ensures Over(env, s1, k) && Known(s1, k)
  {
    hide Mentions;
  }

  lemma FinishedByFlush(env: Env, s: State, todo: seq<PendingLabel>, k: JobId)
    requires Inv(s, todo) && Present(env) && k in s.acc && !Mentions(todo, k)
    ensures Over(env, Flush(env, s), k) && Known(Flush(env, s), k)
  {
    hide Inv, Flush;
    PresentFlush(env, s, todo, k);
  }

  lemma {:induction false} AddAllFinishes(env: Env, s: State, id: JobId, todo: seq<PendingLabel>, k: JobId)
    requires Inv(s, todo) && Present(env) && OfJob(todo, id) && Joinable(env, s, id) && id in s.acc
    requires k in s.acc && k != id && todo != []
    requires !Accepts(s.buffer, env.cfg.tapeWidth) || Triggers(env.cfg, s.buffer.pending, todo)
    ensures Over(env, AddAll(env, s, todo), k)
    decreases |todo|
  {
    hide Inv, Flush, IsFull, Joinable, Drifts, Known, Over, Mentions;
    var pl, rest := todo[0], todo[1..];
    assert todo == [pl] + rest && pl in todo;
    InvIsUnraisedMid(s, todo);
    OthersNotMentioned(todo, id, k);
    OthersNotMentioned(rest, id, k);
    if !Accepts(s.buffer, env.cfg.tapeWidth) {
      FinishedByFlush(env, s, todo, k);
      AddOneAfterFlush(env, s, pl, k);
      AddAllDrifts(env, AddOne(env, s, pl), rest, k);
      FinishedDrifts(env, AddOne(env, s, pl), AddAll(env, AddOne(env, s, pl), rest), k);
    } else {
      AddOneAccepted(env, s, pl);
      var s1 := s.(buffer := AddTo(s.buffer, pl, env.cfg.tapeWidth, env.now));
      assert s.buffer.pending + ([pl] + rest) == s1.buffer.pending + rest;
      Rebuffer(s, s1.buffer, [pl] + rest, rest);
      if IsFull(env.cfg, s1.buffer.pending) {
        FinishedByFlush(env, s1, rest, k);
        AddAllDrifts(env, Flush(env, s1), rest, k);
        FinishedDrifts(env, Flush(env, s1), AddAll(env, Flush(env, s1), rest), k);
      } else {
        TriggersLater(env.cfg, s.buffer.pending, todo);
        JoinedIsJoinable(env, s, pl, id);
        AddAllFinishes(env, s1, id, rest, k);
      }
    }
  }

  lemma InvIsUnraisedMid(s: State, todo: seq<PendingLabel>)
    requires Inv(s, todo)
    ensures !s.raised
  {
  }

  lemma OthersNotMentioned(todo: seq<PendingLabel>, id: JobId, k: JobId)
    requires (forall c :: c in todo ==> c.job == id) && k != id
    ensures !Mentions(todo, k)
  {
  }

  lemma JoinedIsJoinable(env: Env, s: State, pl: PendingLabel, id: JobId)
    ensures Joinable(env, s.(buffer := AddTo(s.buffer, pl, env.cfg.tapeWidth, env.now)), id)
  {
  }

  lemma TriggersLater(cfg: Config, pending: seq<PendingLabel>, todo: seq<PendingLabel>)
    requires Triggers(cfg, pending, todo) && todo != [] && !IsFull(cfg, pending + [todo[0]])
    ensures todo[1..] != [] && Triggers(cfg, pending + [todo[0]], todo[1..])
  {
    hide IsFull;
    var n :| 0 < n <= |todo| && IsFull(cfg, pending + todo[..n]);
    assert todo[..1] == [todo[0]];
    assert pending + [todo[0]] + todo[1..][..n - 1] == pending + todo[..n];
  }

  lemma AddOneAfterFlush(env: Env, s: State, pl: PendingLabel, k: JobId)
    requires !Accepts(s.buffer, env.cfg.tapeWidth) && Over(env, Flush(env, s), k) && Known(Flush(env, s), k) && pl.job != k
    ensures Over(env, AddOne(env, s, pl), k) && Known(AddOne(env, s, pl), k)
  {
    hide Flush, IsFull, Drifts, Known, Over;
    var s1 := Flush(env, s);
    JoinDrifts(env, s1, pl, k);
    var s2 := s1.(buffer := AddTo(s1.buffer, pl, env.cfg.tapeWidth, env.now));
    FinishedDrifts(env, s1, s2, k);
    FlushDrifts(env, s2, k);
    FinishedDrifts(env, s2, Flush(env, s2), k);
  }

  lemma BufferCopiesFinishes(env: Env, s: State, id: JobId, todo: seq<PendingLabel>, flush: bool, k: JobId)
    requires Inv(s, todo) && Present(env) && OfJob(todo, id) && Joinable(env, s, id) && id in s.acc
    requires k in s.acc && k != id && todo != [] && Known(s, k)
    requires flush || !Accepts(s.buffer, env.cfg.tapeWidth) || Triggers(env.cfg, s.buffer.pending, todo)
    ensures Over(env, BufferCopies(env, s, id, todo, flush), k)
  {
    hide Inv, Flush, AddAll, MaybeFinalize, Finalize, StallEach, Joinable, Drifts, Known, Over, Mentions, Triggers;
    PresentNeverStalls(env, s, id, todo);
    AddAllKeeps(env, s, id, todo);
    InvIsUnraisedMid(s, todo);
    var s1 := AddAll(env, s, todo);
    InvIsUnraised(s1);
    OthersNotMentioned(todo, id, k);
    AddAllDrifts(env, s, todo, k);
    FlushDrifts(env, s1, k);
    var s2 := if flush then Flush(env, s1) else s1;
    if !Accepts(s.buffer, env.cfg.tapeWidth) || Triggers(env.cfg, s.buffer.pending, todo) {
      AddAllFinishes(env, s, id, todo, k);
      if flush {
        FinishedDrifts(env, s1, s2, k);
      }
    } else {
      StillThere(env, s, s1, todo, k);
      NothingMentioned(k);
      FinishedByFlush(env, s1, [], k);
    }
    if !s2.raised {
      OthersDrift(s2, id, env.now, k);
      FinishedDrifts(env, s2, MaybeFinalize(s2, id), k);
    }
  }

  /** Where nothing triggers, the copies just join the strip. */
  lemma {:induction false} AddAllQuiet(env: Env, s: State, todo: seq<PendingLabel>)
    requires Accepts(s.buffer, env.cfg.tapeWidth) && !s.raised && !Triggers(env.cfg, s.buffer.pending, todo)
    ensures AddAll(env, s, todo) == s.(buffer :=
              if todo == [] then s.buffer else Buffer(s.buffer.pending + todo, Some(env.cfg.tapeWidth), Some(env.now)))
    decreases |todo|
  {
    hide IsFull, Flush;
    if todo != [] {
      AddOneAccepted(env, s, todo[0]);
      assert todo[..1] == [todo[0]];
      assert !IsFull(env.cfg, s.buffer.pending + todo[..1]);
      var s1 := s.(buffer := AddTo(s.buffer, todo[0], env.cfg.tapeWidth, env.now));
      forall n | 0 < n <= |todo| - 1 ensures !IsFull(env.cfg, s1.buffer.pending + todo[1..][..n]) {
        assert s1.buffer.pending + todo[1..][..n] == s.buffer.pending + todo[..n + 1];
      }
      AddAllQuiet(env, s1, todo[1..]);
      assert s1.buffer.pending + todo[1..] == s.buffer.pending + todo;
    }
  }

  lemma StillThere(env: Env, s: State, s1: State, todo: seq<PendingLabel>, k: JobId)
    requires Accepts(s.buffer, env.cfg.tapeWidth) && !s.raised && !Triggers(env.cfg, s.buffer.pending, todo)
    requires k in s.acc && s1 == AddAll(env, s, todo)
    ensures k in s1.acc
  {
    AddAllQuiet(env, s, todo);
  }

  /** With the printer there, a submission that flushes the strip finishes whatever else was
      in flight. */
  lemma FlushingTurnFinishes(env: Env, s: State, id: JobId, k: JobId)
    requires Inv(s, []) && Submittable(s, id) && Present(env) && k in s.acc
    requires FlushesStrip(env.cfg, env.now, s, id)
    ensures Over(env, Submit(env, s, id), k)
  {
    hide Conserved, Unsettled, Prepare, Flush, RunDiscrete, BufferCopies, Drifts, Known, Over, Mentions, Triggers, Expand, Total;
    var job := s.tables.jobs[id].job;
    PrepareIgnoresLink(env, Env(env.cfg, DeadLink, env.now), s, id);
    var r := Prepare(env, s, id);
    var todo := Expand(id, r.1);
    PreparedInv(env, s, id);
    KnownInInv(s, k);
    PrepareDrifts(env, s, id, k);
    OthersNotMentioned(todo, id, k);
    if IsDiscrete(env.cfg, job) {
      FinishedByFlush(env, r.0, todo, k);
      RunDiscreteDrifts(env, Flush(env, r.0), id, todo, k);
      FinishedDrifts(env, Flush(env, r.0), RunDiscrete(env, Flush(env, r.0), id, todo), k);
    } else {
      BufferCopiesFinishes(env, r.0, id, todo, job.flush || AsStrip(env.cfg, job), k);
    }
  }

  lemma KnownInInv(s: State, k: JobId)
    requires Inv(s, []) && (k in s.tables.jobs || k in s.acc)
    ensures Known(s, k)
  {
    hide SoundJournal, Replay;
    assert s.buffer.pending + [] == s.buffer.pending;
  }

  // --- submissions that flush nothing -----------------------------------------

  /** Another job's row, stamp and place are as they were. */
  ghost predicate Untouched(s: State, s1: State, k: JobId) {
    SameRow(s, s1, k) && Stamp(s1, k) == Stamp(s, k) && (k in s1.acc <==> k in s.acc)
  }

  lemma NothingAskedTotal(id: JobId, job: PrintJob, plan: seq<Decision>)
    requires |plan| == |job.labels| && Expand(id, plan) == []
    ensures Total(FreshAcc(job, plan).expected, |job.labels|) == 0
  {
    forall i: nat ensures Get(FreshAcc(job, plan).expected, i) == 0 {
      ExpandCounts(id, plan, i);
    }
    TotalOfZeros(FreshAcc(job, plan).expected, |job.labels|);
  }

  lemma FinalizeUntouched(s: State, id: JobId, k: JobId)
    requires k != id
    ensures Untouched(s, Finalize(s, id), k) && Untouched(s, MaybeFinalize(s, id), k)
  {
    hide ResultOf, Complete;
  }

  /** The state before the last line of `submit`, where nothing is flushed. */
  ghost function Joined(env: Env, s: State, id: JobId): State
    requires id in s.tables.jobs
  {
    var r := Prepare(env, s, id);
    var todo := Expand(id, r.1);
    r.0.(buffer := Buffer(s.buffer.pending + todo, Some(env.cfg.tapeWidth), Some(env.now)))
  }

  lemma QuietSubmit(env: Env, s: State, id: JobId)
    requires id in s.tables.jobs && !s.raised && !FlushesStrip(env.cfg, env.now, s, id)
    ensures var job := s.tables.jobs[id].job; var r := Prepare(env, s, id);
            Submit(env, s, id) == if WrongModel(job) then Conclude(s, id, Rejection(job))
                                  else if Expand(id, r.1) == [] then Finalize(r.0, id)
                                  else MaybeFinalize(Joined(env, s, id), id)
  {
    hide Prepare, Conclude, Finalize, MaybeFinalize, RunDiscrete, Flush, AddAll, Triggers, Expand;
    var job := s.tables.jobs[id].job;
    if !WrongModel(job) {
      PrepareIgnoresLink(env, Env(env.cfg, DeadLink, env.now), s, id);
      PreparedAcc(env, s, id);
      PrepareAsks(env, s, id);
      var r := Prepare(env, s, id);
      if Expand(id, r.1) == [] {
        NothingAskedTotal(id, job, r.1);
      } else {
        SomethingAsked(id, job, r.1);
        AddAllQuiet(env, r.0, Expand(id, r.1));
      }
    }
  }

  /** Then the link plays no part. */
  lemma QuietSubmitIgnoresLink(env: Env, s: State, id: JobId)
    requires id in s.tables.jobs && !s.raised && !FlushesStrip(env.cfg, env.now, s, id)
    ensures Submit(env, s, id) == Submit(Env(env.cfg, DeadLink, env.now), s, id)
  {
    hide Prepare, Conclude, Finalize, MaybeFinalize, Submit, FlushesStrip, Expand;
    var dead := Env(env.cfg, DeadLink, env.now);
    PrepareIgnoresLink(env, dead, s, id);
    QuietSubmit(env, s, id);
    QuietSubmit(dead, s, id);
  }

  /** And no other job notices. */
  lemma QuietSubmitSpares(env: Env, s: State, id: JobId, k: JobId)
    requires id in s.tables.jobs && !s.raised && !FlushesStrip(env.cfg, env.now, s, id) && k != id
    ensures Untouched(s, Submit(env, s, id), k)
  {
    hide Prepare, Conclude, Finalize, MaybeFinalize, Submit, FlushesStrip, Expand;
    QuietSubmit(env, s, id);
    PrepareUntouched(env, s, id, k);
    FinalizeUntouched(Prepare(env, s, id).0, id, k);
    FinalizeUntouched(Joined(env, s, id), id, k);
    RejectUntouched(s, id, k);
  }

  lemma RejectUntouched(s: State, id: JobId, k: JobId)
    requires id in s.tables.jobs && k != id
    ensures Untouched(s, Conclude(s, id, Rejection(s.tables.jobs[id].job)), k)
  {
  }

  lemma PrepareUntouched(env: Env, s: State, id: JobId, k: JobId)
    requires id in s.tables.jobs && k != id
    ensures Untouched(s, Prepare(env, s, id).0, k)
  {
    hide PlanLabels;
    var job := s.tables.jobs[id].job;
    var s1 := Emit(s, Marked(id, Printing));
    PlanDrifts(env, s1, job, PrintedLabels(s1.tables, id), |job.labels|, k);
  }

  // --- when the list goes stale -----------------------------------------------

  predicate DueByStamp(cfg: Config, now: real, s: State, k: JobId) {
    now - Stamp(s, k) >= cfg.retryInterval
  }

  function Stamped(s: State, id: JobId, now: real): State {
    s.(stalled := s.stalled[id := now])
  }

  /** What can be seen before the call, whatever the link will do: behind the first due job
      whose submission flushes the strip stands no job in flight that has gone unstamped for
      the retry interval. Up to that submission nothing is sent, so no link is asked. */
  ghost predicate ListStaysFresh(cfg: Config, now: real, s: State, ids: seq<JobId>)
    decreases |ids|
  {
    ids != [] ==>
      var id := ids[0];
      if id in s.acc || !DueByStamp(cfg, now, s, id) then ListStaysFresh(cfg, now, s, ids[1..])
      else
        id in s.tables.jobs &&
        if FlushesStrip(cfg, now, Stamped(s, id, now), id) then
          forall k :: k in ids[1..] && k in s.acc ==> !DueByStamp(cfg, now, s, k)
        else ListStaysFresh(cfg, now, Submit(Env(cfg, DeadLink, now), Stamped(s, id, now), id).(raised := false), ids[1..])
  }

  ghost predicate Distinct(ids: seq<JobId>) {
    forall i, j :: 0 <= i < j < |ids| ==> ids[i] != ids[j]
  }

  lemma TailDistinct(ids: seq<JobId>)
    requires Distinct(ids) && ids != []
    ensures Distinct(ids[1..]) && ids[0] !in ids[1..] && forall k :: k in ids[1..] ==> k in ids && k != ids[0]
  {
  }

  /** A job that will not be submitted once it has left the queue. */
  ghost predicate Safe(cfg: Config, now: real, s: State, k: JobId) {
    && k in s.tables.jobs
    && (k in s.acc ==> !DueByStamp(cfg, now, s, k))
    && (k !in s.acc ==> Awaiting(s.tables, k) || !DueByStamp(cfg, now, s, k))
  }

  lemma SafeStays(env: Env, s: State, id: JobId, k: JobId)
    requires Inv(s, []) && id in s.tables.jobs && k != id && Safe(env.cfg, env.now, s, k)
    ensures Safe(env.cfg, env.now, Submit(env, s, id), k)
  {
    hide Inv, Submit;
    KnownInInv(s, k);
    SubmitDrifts(env, s, id, k);
    if k !in s.acc {
      assert Away(s, k);
    }
  }

  lemma TurnKeeps(env: Env, s: State, id: JobId)
    requires Inv(s, []) && id !in s.acc && Awaiting(s.tables, id)
    requires LinkHolds(env, Stamped(s, id, env.now), id)
    ensures var s0 := Stamped(s, id, env.now); var s1 := Submit(env, s0, id);
            Inv(s0, []) && Submittable(s0, id) && Inv(s1, []) && s1.(raised := false) == s1
  {
    hide Inv, Submit, LinkHolds, QueuedIn;
    StalledIsNoAccount(s, s.stalled[id := env.now]);
    WaitingIsQueued(s, id);
    SubmitKeeps(env, Stamped(s, id, env.now), id);
    NotRaised(Submit(env, Stamped(s, id, env.now), id));
  }

  lemma {:induction false} SafeListStaysWaiting(env: Env, s: State, ids: seq<JobId>)
    requires Inv(s, []) && RetryLinkHolds(env, s, ids) && Distinct(ids)
    requires forall k :: k in ids ==> Safe(env.cfg, env.now, s, k)
    ensures EachStillWaiting(env, s, ids)
    decreases |ids|
  {
    hide Inv, Submit, LinkHolds, Safe, Awaiting;
    if ids != [] {
      TailDistinct(ids);
      var id := ids[0];
      if Due(env, s, id) {
        SafeAndDue(env, s, id);
        TurnKeeps(env, s, id);
        var s0 := Stamped(s, id, env.now);
        var s1 := Submit(env, s0, id);
        forall k | k in ids[1..] ensures Safe(env.cfg, env.now, s1, k) {
          StampingOthers(env, s, id, k);
          SafeStays(env, s0, id, k);
        }
        SafeListStaysWaiting(env, s1, ids[1..]);
      } else {
        SafeListStaysWaiting(env, s, ids[1..]);
      }
    }
  }

  lemma SafeAndDue(env: Env, s: State, id: JobId)
    requires Safe(env.cfg, env.now, s, id) && Due(env, s, id)
    ensures Awaiting(s.tables, id)
  {
  }

  lemma StampingOthers(env: Env, s: State, id: JobId, k: JobId)
    requires k != id
    ensures Safe(env.cfg, env.now, s, k) ==> Safe(env.cfg, env.now, Stamped(s, id, env.now), k)
    ensures Stamp(Stamped(s, id, env.now), k) == Stamp(s, k)
  {
  }

  lemma WaitingIsSafe(env: Env, s: State, k: JobId)
    requires Awaiting(s.tables, k) && (k in s.acc ==> !DueByStamp(env.cfg, env.now, s, k))
    ensures Safe(env.cfg, env.now, s, k)
  {
  }

  lemma {:induction false} FreshListStaysWaiting(env: Env, s: State, ids: seq<JobId>)
    requires Inv(s, []) && RetryLinkHolds(env, s, ids) && Distinct(ids)
    requires forall k :: k in ids ==> Awaiting(s.tables, k)
    requires ListStaysFresh(env.cfg, env.now, s, ids)
    ensures EachStillWaiting(env, s, ids)
    decreases |ids|
  {
    hide Inv, Submit, LinkHolds, Safe, FlushesStrip;
    if ids != [] {
      TailDistinct(ids);
      var id := ids[0];
      if Due(env, s, id) {
        TurnKeeps(env, s, id);
        var s0 := Stamped(s, id, env.now);
        var s1 := Submit(env, s0, id);
        if FlushesStrip(env.cfg, env.now, s0, id) {
          forall k | k in ids[1..] ensures Safe(env.cfg, env.now, s1, k) {
            WaitingIsSafe(env, s, k);
            StampingOthers(env, s, id, k);
            SafeStays(env, s0, id, k);
          }
          SafeListStaysWaiting(env, s1, ids[1..]);
        } else {
          InvIsUnraised(s0);
          forall k | k in ids[1..] ensures Awaiting(s1.tables, k) {
            QuietSubmitSpares(env, s0, id, k);
          }
          QuietSubmitIgnoresLink(env, s0, id);
          FreshListStaysWaiting(env, s1, ids[1..]);
        }
      } else {
        FreshListStaysWaiting(env, s, ids[1..]);
      }
    }
  }

  // Where the condition fails, a printer that is there is enough.

  lemma {:induction false} FinishedComesUp(env: Env, s: State, ids: seq<JobId>, k: JobId)
    requires k in ids && Distinct(ids) && Over(env, s, k) && !Awaiting(s.tables, k) && DueByStamp(env.cfg, env.now, s, k)
    requires !s.raised
    ensures !EachStillWaiting(env, s, ids)
    decreases |ids|
  {
    hide Submit, Mentions;
    TailDistinct(ids);
    var id := ids[0];
    if id != k {
      if Due(env, s, id) && Awaiting(s.tables, id) {
        var s0 := Stamped(s, id, env.now);
        SubmitDrifts(env, s0, id, k);
        FinishedComesUp(env, Submit(env, s0, id).(raised := false), ids[1..], k);
      } else if !Due(env, s, id) {
        FinishedComesUp(env, s, ids[1..], k);
      }
    }
  }

  lemma {:induction false} PresentRetryLinkHolds(env: Env, s: State, ids: seq<JobId>)
    requires Inv(s, []) && Present(env) && Distinct(ids) && forall k :: k in ids ==> k in s.tables.jobs
    ensures RetryLinkHolds(env, s, ids)
    decreases |ids|
  {
    hide Inv, Submit, LinkHolds, QueuedIn;
    if ids != [] {
      TailDistinct(ids);
      var id := ids[0];
      if Due(env, s, id) {
        var s0 := Stamped(s, id, env.now);
        StalledIsNoAccount(s, s0.stalled);
        if Awaiting(s.tables, id) {
          WaitingIsQueued(s0, id);
          PresentLinkHolds(env, s0, id);
          TurnKeeps(env, s, id);
          forall k | k in ids[1..] ensures k in Submit(env, s0, id).tables.jobs {
            KnownInInv(s0, k);
            SubmitDrifts(env, s0, id, k);
          }
          PresentRetryLinkHolds(env, Submit(env, s0, id), ids[1..]);
        }
      } else {
        PresentRetryLinkHolds(env, s, ids[1..]);
      }
    }
  }

  lemma {:induction false} StaleListFails(env: Env, s: State, ids: seq<JobId>)
    requires Inv(s, []) && Present(env) && Distinct(ids)
    requires forall k :: k in ids ==> Awaiting(s.tables, k)
    requires !ListStaysFresh(env.cfg, env.now, s, ids)
    ensures !EachStillWaiting(env, s, ids)
    decreases |ids|
  {
    hide Inv, Submit, LinkHolds, FlushesStrip, QueuedIn, Over;
    TailDistinct(ids);
    var id := ids[0];
    if Due(env, s, id) {
      var s0 := Stamped(s, id, env.now);
      StalledIsNoAccount(s, s0.stalled);
      WaitingIsQueued(s0, id);
      PresentLinkHolds(env, s0, id);
      TurnKeeps(env, s, id);
      InvIsUnraised(s0);
      var s1 := Submit(env, s0, id);
      if FlushesStrip(env.cfg, env.now, s0, id) {
        var k :| k in ids[1..] && k in s.acc && DueByStamp(env.cfg, env.now, s, k);
        FlushedOut(env, s, id, k);
        FinishedComesUp(env, s1, ids[1..], k);
      } else {
        forall k | k in ids[1..] ensures Awaiting(s1.tables, k) {
          QuietSubmitSpares(env, s0, id, k);
        }
        QuietSubmitIgnoresLink(env, s0, id);
        StaleListFails(env, s1, ids[1..]);
      }
    } else {
      StaleListFails(env, s, ids[1..]);
    }
  }

  lemma FlushedOut(env: Env, s: State, id: JobId, k: JobId)
    requires Inv(s, []) && Present(env) && id !in s.acc && Awaiting(s.tables, id) && k in s.acc
    requires FlushesStrip(env.cfg, env.now, Stamped(s, id, env.now), id) && DueByStamp(env.cfg, env.now, s, k)
    ensures var s1 := Submit(env, Stamped(s, id, env.now), id);
            Over(env, s1, k) && !Awaiting(s1.tables, k) && DueByStamp(env.cfg, env.now, s1, k) && !s1.raised
  {
    hide Inv, Submit, LinkHolds, FlushesStrip, QueuedIn;
    var s0 := Stamped(s, id, env.now);
    StalledIsNoAccount(s, s0.stalled);
    WaitingIsQueued(s0, id);
    PresentLinkHolds(env, s0, id);
    TurnKeeps(env, s, id);
    var s1 := Submit(env, s0, id);
    FlushingTurnFinishes(env, s0, id, k);
    KnownInInv(s0, k);
    SubmitDrifts(env, s0, id, k);
    InvIsUnraised(s1);
    FinishedIsNotQueued(s1, k);
  }

  /** `retry_queued` keeps the invariant whatever the link does, short of stalling a job inside
      its own buffering loop, if and only if the list it reads stays fresh: something the state
      before the call decides. A stale list costs no copy (`Balance.CopiesConserved`); what it
      breaks is that a finished job stays finished. */
  lemma RetryKeepsForEveryLinkIff(cfg: Config, now: real, s: State)
    requires Inv(s, []) && cfg.maxAttempts > 0
    ensures (forall link: nat -> Attempt ::
              RetryLinkHolds(Env(cfg, link, now), s, QueuedIds(s.tables)) ==> Inv(RetryQueued(Env(cfg, link, now), s), []))
            <==> ListStaysFresh(cfg, now, s, QueuedIds(s.tables))
  {
    hide Inv, RetryEach, RetryLinkHolds, EachStillWaiting, ListStaysFresh, QueuedIn;
    var ids := QueuedIds(s.tables);
    QueueIsDistinct(s);
    if ListStaysFresh(cfg, now, s, ids) {
      forall link: nat -> Attempt | RetryLinkHolds(Env(cfg, link, now), s, ids)
        ensures Inv(RetryQueued(Env(cfg, link, now), s), [])
      {
        FreshListStaysWaiting(Env(cfg, link, now), s, ids);
        RetryKeepsIffEachStillWaiting(Env(cfg, link, now), s, ids);
      }
    } else {
      var link: nat -> Attempt := n => FramePrinted;
      var env := Env(cfg, link, now);
      PresentRetryLinkHolds(env, s, ids);
      StaleListFails(env, s, ids);
      RetryKeepsIffEachStillWaiting(env, s, ids);
      assert RetryLinkHolds(Env(cfg, link, now), s, ids) && !Inv(RetryQueued(Env(cfg, link, now), s), []);
    }
  }

  lemma QueueIsDistinct(s: State)
    requires Inv(s, [])
    ensures var ids := QueuedIds(s.tables); Distinct(ids) && forall k :: k in ids ==> Awaiting(s.tables, k)
  {
    hide Inv;
    InvTables(s);
    QueuedDistinct(s.tables, s.tables.order);
  }

  // --- what comes of it -------------------------------------------------------

  /** A plan that asks again for every label this result reports as failed, as far as it
      renders and has no dedupe key: for all its copies. */
  ghost predicate PlansLost(cfg: Config, job: PrintJob, r: JobResult, plan: seq<Decision>) {
    && |plan| == |job.labels|
    && forall i :: 0 <= i < |plan| && i < |r.labels| && r.labels[i].state == Failed ==>
         DedupeKey(cfg, job.labels[i]).None? && cfg.render(job.labels[i]).Some? ==>
           plan[i] == Print(job.labels[i].copies, cfg.render(job.labels[i]).value)
  }

  lemma PlannedAgain(env: Env, s: State, id: JobId)
    requires id in s.tables.jobs && s.tables.jobs[id].result.Some?
    requires LostUncommitted(s.tables, id, s.tables.jobs[id].result.value)
    ensures PlansLost(env.cfg, s.tables.jobs[id].job, s.tables.jobs[id].result.value, Prepare(env, s, id).1)
  {
    hide Prepare;
    var job, r := s.tables.jobs[id].job, s.tables.jobs[id].result.value;
    PreparedAcc(env, s, id);
    forall i | 0 <= i < |job.labels| && i < |r.labels| && r.labels[i].state == Failed
        && DedupeKey(env.cfg, job.labels[i]).None? && env.cfg.render(job.labels[i]).Some?
      ensures Prepare(env, s, id).1[i] == Print(job.labels[i].copies, env.cfg.render(job.labels[i]).value)
    {
      var m := PreparedEntry(env, s, id, i);
      assert i !in PrintedLabels(s.tables, id);
    }
  }

  lemma PlannedInJournal(env: Env, s: State, id: JobId) returns (q: nat)
    requires id in s.tables.jobs && !WrongModel(s.tables.jobs[id].job) && !s.raised
    ensures var h := Submit(env, s, id).journal;
            |s.journal| <= q < |h| && h[q] == Planned(id, Prepare(env, s, id).1)
  {
    hide Submit, Prepare, Moved;
    SubmitMoves(env, s, id);
    EveryRun.PrepareExtends(env, None, s, id);
    MovedJournal(Prepare(env, s, id).0, Submit(env, s, id), Expand(id, Prepare(env, s, id).1));
    q := |Prepare(env, s, id).0.journal| - 1;
  }

  lemma {:induction false} FinishedIsPlannedAgain(env: Env, s: State, ids: seq<JobId>, k: JobId) returns (q: nat)
    requires k in ids && Distinct(ids) && Over(env, s, k) && DueByStamp(env.cfg, env.now, s, k) && !s.raised
    requires !WrongModel(s.tables.jobs[k].job)
    ensures var h := RetryEach(env, s, ids).journal;
            && |s.journal| <= q < |h| && h[q].Planned? && h[q].id == k
            && PlansLost(env.cfg, s.tables.jobs[k].job, s.tables.jobs[k].result.value, h[q].plan)
    decreases |ids|
  {
    hide Submit, Mentions, LostUncommitted, PlansLost, Prepare;
    TailDistinct(ids);
    var id := ids[0];
    var s0 := Stamped(s, id, env.now);
    var s1 := Submit(env, s0, id).(raised := false);
    if id == k {
      PlannedAgain(env, s0, k);
      q := PlannedInJournal(env, s0, k);
      RetryEachExtends(env, s1, ids[1..]);
    } else if Due(env, s, id) {
      SubmitOrder(env, s0, id);
      if id in s.tables.jobs {
        SubmitDrifts(env, s0, id, k);
        FinishedDrifts(env, s0, s1, k);
      } else {
        SubmitCases(env, s0, id);
      }
      q := FinishedIsPlannedAgain(env, s1, ids[1..], k);
    } else {
      q := FinishedIsPlannedAgain(env, s, ids[1..], k);
    }
  }

  /** A result that was not there is stored by an effect in between. */
  lemma {:induction false} ResultWasStored(h: seq<Event>, m: nat, id: JobId) returns (p: nat)
    requires m <= |h| && id in Replay(h[..m]).jobs && Replay(h[..m]).jobs[id].result.None?
    requires id in Replay(h).jobs && Replay(h).jobs[id].result.Some?
    ensures m <= p < |h| && h[p] == Finished(id, Replay(h).jobs[id].result.value)
    decreases |h|
  {
    assert h[..|h|] == h;
    if Last(h).Finished? && Last(h).id == id && id in Replay(Prev(h)).jobs {
      p := |h| - 1;
    } else {
      assert Prev(h)[..m] == h[..m];
      p := ResultWasStored(Prev(h), m, id);
    }
  }

  /** Where the list goes stale and the printer is there, some job is finished in another
      job's turn and planned again in its own: if frames break off, with its tape reported as
      partly consumed, and all its lost labels are asked for once more, all copies. */
  lemma {:induction false} StaleJobIsPlannedAgain(env: Env, s: State, ids: seq<JobId>)
    returns (k: JobId, p: nat, q: nat)
    requires Inv(s, []) && Present(env) && Distinct(ids)
    requires forall id :: id in ids ==> Awaiting(s.tables, id)
    requires forall id :: id in ids && id in s.acc ==> !WrongModel(s.tables.jobs[id].job)
    requires !ListStaysFresh(env.cfg, env.now, s, ids)
    ensures var h := RetryEach(env, s, ids).journal;
            && k in ids && k in s.acc && |s.journal| <= p < q < |h|
            && h[p].Finished? && h[p].id == k && h[q].Planned? && h[q].id == k
            && (Breaks(env) ==> h[p].result.partialTape)
            && PlansLost(env.cfg, s.tables.jobs[k].job, h[p].result, h[q].plan)
    decreases |ids|
  {
    hide Inv, Submit, LinkHolds, FlushesStrip, QueuedIn, LostUncommitted, PlansLost, Mentions, Breaks;
    TailDistinct(ids);
    var id := ids[0];
    if Due(env, s, id) {
      var s0 := Stamped(s, id, env.now);
      StalledIsNoAccount(s, s0.stalled);
      WaitingIsQueued(s0, id);
      PresentLinkHolds(env, s0, id);
      TurnKeeps(env, s, id);
      InvIsUnraised(s0);
      var s1 := Submit(env, s0, id);
      SubmitOrder(env, s0, id);
      if FlushesStrip(env.cfg, env.now, s0, id) {
        k :| k in ids[1..] && k in s.acc && DueByStamp(env.cfg, env.now, s, k);
        FlushedOut(env, s, id, k);
        p := StoredInTurn(s0, s1, k);
        q := FinishedIsPlannedAgain(env, s1, ids[1..], k);
        RetryEachExtends(env, s1, ids[1..]);
      } else {
        forall k | k in ids[1..]
          ensures Awaiting(s1.tables, k) && (k in s1.acc ==> !WrongModel(s1.tables.jobs[k].job))
        {
          QuietSubmitSpares(env, s0, id, k);
        }
        QuietSubmitIgnoresLink(env, s0, id);
        k, p, q := StaleJobIsPlannedAgain(env, s1, ids[1..]);
        QuietSubmitSpares(env, s0, id, k);
      }
    } else {
      k, p, q := StaleJobIsPlannedAgain(env, s, ids[1..]);
    }
  }

  lemma {:induction false} JobStays(h: seq<Event>, m: nat, id: JobId)
    requires SoundJournal(h) && m <= |h| && id in Replay(h[..m]).jobs
    ensures id in Replay(h).jobs && Replay(h).jobs[id].job == Replay(h[..m]).jobs[id].job
  {
    hide Truthful, PlanFits, OthersCommitted, SendOf, BegunInSend, PrintedInSend, PlanOf, Good;
    if m == |h| {
      assert h[..m] == h;
    } else {
      assert Prev(h)[..m] == h[..m];
      JobStays(Prev(h), m, id);
      assert Sound(Prev(h), Last(h));
    }
  }

  lemma StoredInTurn(s: State, s1: State, k: JobId) returns (p: nat)
    requires Inv(s, []) && Inv(s1, []) && s.journal <= s1.journal && k in s.acc
    requires k in s1.tables.jobs && s1.tables.jobs[k].result.Some?
    ensures |s.journal| <= p < |s1.journal| && s1.journal[p] == Finished(k, s1.tables.jobs[k].result.value)
    ensures k in s.tables.jobs && s1.tables.jobs[k].job == s.tables.jobs[k].job
  {
    hide SoundJournal, PlanOf, Good, Lost, StripLost;
    assert s1.journal[..|s.journal|] == s.journal;
    assert Tallied(s.journal, s.tables, s.acc[k], s.buffer.pending + [], k);
    p := ResultWasStored(s1.journal, |s.journal|, k);
    JobStays(s1.journal, |s.journal|, k);
  }
}
