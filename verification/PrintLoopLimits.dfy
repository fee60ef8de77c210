/** Where the code's promises stop: the exact condition each needs, and what happens without it. */
module PrintLoopLimits {
  import opened Basics
  import opened Contract
  import opened Spool
  import opened PrintLoop
  import opened History
  import opened PrintLoopInvariant
  import opened PrintLoopSteps
  import opened PrintLoopJournal

  // --- submitting a job that has left the queue -------------------------------

  lemma UnsoundForGood(h: seq<Event>, g: seq<Event>, e: Event)
    requires h + [e] <= g && !Sound(h, e)
    ensures !SoundJournal(g)
  {
    if SoundJournal(g) {
      SoundPrefix(g, |h| + 1);
      assert g[..|h| + 1] == h + [e];
      Appended(h, e);
    }
  }

  lemma PrepareExtends(env: Env, s: State, id: JobId)
    requires id in s.tables.jobs
    ensures s.journal + [Marked(id, Printing)] <= Prepare(env, s, id).0.journal
  {
    var job := s.tables.jobs[id].job;
    var s1 := Emit(s, Marked(id, Printing));
    PlanMoves(env, s1, job, PrintedLabels(s1.tables, id), |job.labels|);
  }

  /** A submission that is out of turn leaves an unsound journal behind, whatever follows. */
  lemma OutOfTurn(env: Env, s: State, id: JobId)
    requires Inv(s, []) && id in s.tables.jobs && !Awaiting(s.tables, id)
    ensures !SoundJournal(Submit(env, s, id).journal)
  {
    hide Tallied, Submit, Prepare;
    SoundTables(s.journal);
    assert RowOk(id, s.tables.jobs[id]);
    var job := s.tables.jobs[id].job;
    if WrongModel(job) {
      SubmitCases(env, s, id);
      UnsoundForGood(s.journal, Submit(env, s, id).journal, Finished(id, Rejection(job)));
    } else {
      PrepareExtends(env, s, id);
      SubmitMoves(env, s, id);
      UnsoundForGood(s.journal, Submit(env, s, id).journal, Marked(id, Printing));
    }
  }

  lemma WaitingIsQueued(s: State, id: JobId)
    requires Inv(s, []) && Awaiting(s.tables, id)
    ensures id in QueuedIds(s.tables)
  {
    hide QueuedIn;
    SoundTables(s.journal);
  }

  /** `submit` does not look at the row's state. For a job not in flight that is exactly what
      decides whether it keeps the invariant: it does if and only if the job is still waiting. */
  lemma SubmitKeepsIffWaiting(env: Env, s: State, id: JobId)
    requires Inv(s, []) && id in s.tables.jobs && id !in s.acc && LinkHolds(env, s, id)
    ensures Inv(Submit(env, s, id), []) <==> Awaiting(s.tables, id)
  {
    hide Conserved, Submit, Prepare, LinkHolds, QueuedIn;
    if Awaiting(s.tables, id) {
      WaitingIsQueued(s, id);
      SubmitKeeps(env, s, id);
    } else {
      OutOfTurn(env, s, id);
      if Inv(Submit(env, s, id), []) {
        InvHasSoundPast(Submit(env, s, id), Submit(env, s, id));
      }
    }
  }

  lemma InvHasSoundPast(s: State, s1: State)
    requires s.journal <= s1.journal && Inv(s1, [])
    ensures SoundJournal(s.journal)
  {
    SoundPrefix(s1.journal, |s.journal|);
    assert s1.journal[..|s.journal|] == s.journal;
  }

  // --- a strip settles the jobs that end in it --------------------------------

  lemma {:induction false} FinalizeEachStores(s: State, ids: seq<JobId>, id: JobId)
    requires id in ids && id in s.acc && Complete(s.acc[id]) && id in s.tables.jobs
    requires forall c :: c in s.buffer.pending ==> c.job != id
    ensures var s1 := FinalizeEach(s, ids);
            id !in s1.acc && id in s1.tables.jobs && s1.tables.jobs[id].result == Some(ResultOf(s.acc[id]))
    decreases |ids|
  {
    hide Complete, ResultOf;
    var s1 := MaybeFinalize(s, ids[0]);
    if ids[0] == id {
      FinalizeBystander(s1, ids[1..], id);
    } else {
      assert id in ids[1..];
      FinalizeEachStores(s1, ids[1..], id);
    }
  }

  lemma SettledAcc(s: State, s1: State, labels: seq<PendingLabel>, rest: seq<PendingLabel>, out: Sent, id: JobId)
    requires Conserved(s, labels + rest) && Unsettled(s) && s.buffer.pending == []
    requires SendDone(s, labels, true, s1, out) && out.wrote
    requires Mentions(labels, id) && !Mentions(rest, id)
    ensures var s2 := SettleAll(s1, labels, out.ok, true);
            && !s2.raised && id in s2.acc && Complete(s2.acc[id]) && id in s2.tables.jobs && s2.buffer == s.buffer
            && (!out.ok ==> s2.acc[id].partialTape)
            && LostUncommitted(s2.tables, id, ResultOf(s2.acc[id]))
  {
    hide SoundJournal, Replay, ResultOf, Complete;
    assert forall c :: c in labels ==> c in labels + rest;
    if out.ok {
      SentIsCreditable(s, s1, labels, rest, true, out);
    }
    SettleAllEffect(s1, labels, out.ok, true);
    var s2 := SettleAll(s1, labels, out.ok, true);
    SettledKeeps(s, s1, s2, labels, rest, true, out);
    CompleteWhenNoneOut(s2.journal, s2.tables, s2.acc[id], rest, id);
    assert AccSettled(s1.acc[id], s2.acc[id], labels, out.ok, true, id);
    SoundTables(s2.journal);
    assert RowOk(id, s2.tables.jobs[id]);
    FailedIsUncommitted(s2.journal, s2.tables, s2.acc[id], rest, id);
  }

  lemma FinalizeEachKeepsAcc(s: State, ids: seq<JobId>, id: JobId)
    requires id in FinalizeEach(s, ids).acc
    ensures id in s.acc && FinalizeEach(s, ids).acc[id] == s.acc[id]
    decreases |ids|
  {
    hide Complete, ResultOf;
    if ids != [] {
      FinalizeEachKeepsAcc(MaybeFinalize(s, ids[0]), ids[1..], id);
    }
  }

  ghost predicate CountedAsFailed(a: JobAcc, b: JobAcc, labels: seq<PendingLabel>, id: JobId) {
    forall i: nat :: Get(b.failed, i) == Get(a.failed, i) + Count(labels, id, i)
  }

  /** No label this result reports as failed is committed. */
  ghost predicate LostUncommitted(t: Tables, id: JobId, r: JobResult) {
    forall i :: 0 <= i < |r.labels| && r.labels[i].state == Failed ==> (id, i) !in t.printed
  }

  lemma FailedIsUncommitted(h: seq<Event>, t: Tables, a: JobAcc, out: seq<PendingLabel>, id: JobId)
    requires Tallied(h, t, a, out, id) && ValidJob(a.job)
    ensures LostUncommitted(t, id, ResultOf(a))
  {
    hide Unfinished, Good, Lost, PlanOf, StripLost;
    var r := ResultOf(a);
    forall i | 0 <= i < |r.labels| && r.labels[i].state == Failed ensures (id, i) !in t.printed {
      assert r.labels[i] == Entry(a, i);
    }
  }

  lemma FinalizeEachCommitsNothing(s: State, ids: seq<JobId>)
    ensures FinalizeEach(s, ids).tables.printed == s.tables.printed
    decreases |ids|
  {
    hide Complete, ResultOf;
    if ids != [] {
      FinalizeEachCommitsNothing(MaybeFinalize(s, ids[0]), ids[1..]);
    }
  }

  /** When `_print_strip` returns after a frame that was begun, the jobs of the strip that are
      finished are exactly those whose last outstanding copies were in it. If the frame broke
      off, their results say that tape was partly consumed; the others stay in flight, with
      their copies in the strip counted as failed. */
  lemma BegunStripFinishesExactlyItsLast(env: Env, s: State, labels: seq<PendingLabel>, rest: seq<PendingLabel>, id: JobId)
    requires Conserved(s, labels + rest) && Unsettled(s) && s.buffer.pending == []
    requires Mentions(labels, id) && Send(env, s, labels, true).1.wrote
    ensures var s1, ok := PrintStrip(env, s, labels), Send(env, s, labels, true).1.ok;
            && Conserved(s1, rest) && Unsettled(s1) && s1.buffer == s.buffer
            && (id !in s1.acc <==> !Mentions(rest, id))
            && (id !in s1.acc ==>
                 id in s1.tables.jobs && s1.tables.jobs[id].result.Some?
                 && (!ok ==> s1.tables.jobs[id].result.value.partialTape)
                 && LostUncommitted(s1.tables, id, s1.tables.jobs[id].result.value))
            && (id in s1.acc ==> id in s.acc && s1.acc[id].job == s.acc[id].job)
            && (id in s1.acc && !ok ==> CountedAsFailed(s.acc[id], s1.acc[id], labels, id))
  {
    hide Conserved, SendFrom, FinalizeEach, SettleAll, Complete, SendDone;
    StripIsSound(s, labels, rest);
    ConservedIsReady(s, labels + rest);
    SendKeeps(env, s, labels, true);
    var r := Send(env, s, labels, true);
    SettleStrip(s, r.0, labels, rest, r.1);
    var s2 := SettleAll(r.0, labels, r.1.ok, true);
    var s3 := FinalizeEach(s2, JobIds(labels));
    if Mentions(rest, id) {
      RestInFlight(s3, rest, id);
      FinalizeEachKeepsAcc(s2, JobIds(labels), id);
      SettledFailures(s, r.0, labels, rest, r.1, id);
    } else {
      SettledAcc(s, r.0, labels, rest, r.1, id);
      FinalizeEachStores(s2, JobIds(labels), id);
      FinalizeEachCommitsNothing(s2, JobIds(labels));
    }
  }

  lemma RestInFlight(s: State, rest: seq<PendingLabel>, id: JobId)
    requires Conserved(s, rest) && Mentions(rest, id)
    ensures id in s.acc
  {
  }

  lemma SettledFailures(s: State, s1: State, labels: seq<PendingLabel>, rest: seq<PendingLabel>, out: Sent, id: JobId)
    requires Conserved(s, labels + rest) && SendDone(s, labels, true, s1, out) && out.wrote && Mentions(labels, id)
    requires id in SettleAll(s1, labels, out.ok, true).acc
    ensures id in s.acc
    ensures var s2 := SettleAll(s1, labels, out.ok, true);
            s2.acc[id].job == s.acc[id].job && (!out.ok ==> CountedAsFailed(s.acc[id], s2.acc[id], labels, id))
  {
    hide SoundJournal, Replay, Tallied;
    assert forall c :: c in labels ==> c in labels + rest;
    if out.ok {
      SentIsCreditable(s, s1, labels, rest, true, out);
    }
    SettleAllEffect(s1, labels, out.ok, true);
  }

  lemma ConservedIsReady(s: State, out: seq<PendingLabel>)
    requires Conserved(s, out)
    ensures s.tables == Replay(s.journal) && SoundJournal(s.journal) && AtRest(s.journal)
  {
  }

  // --- a stall in the middle of the buffering loop ----------------------------

  function DeadLink(n: nat): Attempt {
    ConnectFailed(false)
  }

  lemma {:induction false} PlanIgnoresLink(env: Env, other: Env, s: State, job: PrintJob, already: set<nat>, n: nat)
    requires n <= |job.labels| && other.cfg == env.cfg && other.now == env.now
    ensures PlanLabels(env, s, job, already, n) == PlanLabels(other, s, job, already, n)
  {
    if n > 0 {
      PlanIgnoresLink(env, other, s, job, already, n - 1);
    }
  }

  lemma PrepareIgnoresLink(env: Env, other: Env, s: State, id: JobId)
    requires id in s.tables.jobs && other.cfg == env.cfg && other.now == env.now
    ensures Prepare(env, s, id) == Prepare(other, s, id)
  {
    var job := s.tables.jobs[id].job;
    var s1 := Emit(s, Marked(id, Printing));
    PlanIgnoresLink(env, other, s1, job, PrintedLabels(s1.tables, id), |job.labels|);
  }

  /** Does no size trigger fire before the last of these copies is in the strip? */
  predicate NoEarlyTrigger(cfg: Config, pending: seq<PendingLabel>, copies: seq<PendingLabel>) {
    forall k :: 0 < k < |copies| ==> !IsFull(cfg, pending + copies[..k])
  }

  lemma AddOneAccepted(env: Env, s: State, pl: PendingLabel)
    requires Accepts(s.buffer, env.cfg.tapeWidth) && !s.raised
    ensures var s1 := s.(buffer := AddTo(s.buffer, pl, env.cfg.tapeWidth, env.now));
            AddOne(env, s, pl) == if IsFull(env.cfg, s.buffer.pending + [pl]) then Flush(env, s1) else s1
  {
  }

  lemma {:induction false} NoTriggerNoStall(env: Env, s: State, id: JobId, todo: seq<PendingLabel>)
    requires Accepts(s.buffer, env.cfg.tapeWidth) && !s.raised && id in s.acc
    requires NoEarlyTrigger(env.cfg, s.buffer.pending, todo)
    ensures NoMidLoopStall(env, s, id, todo)
    decreases |todo|
  {
    if |todo| > 1 {
      AddOneAccepted(env, s, todo[0]);
      assert todo[..1] == [todo[0]];
      var s1 := AddOne(env, s, todo[0]);
      forall k | 0 < k < |todo| - 1 ensures !IsFull(env.cfg, s1.buffer.pending + todo[1..][..k]) {
        assert s1.buffer.pending + todo[1..][..k] == s.buffer.pending + todo[..k + 1];
      }
      NoTriggerNoStall(env, s1, id, todo[1..]);
    }
  }

  /** The first trigger fires while copies are still to come, and the printer is away. */
  lemma {:induction false} TriggerStalls(env: Env, s: State, id: JobId, todo: seq<PendingLabel>, k: nat) returns (s1: State)
    requires Accepts(s.buffer, env.cfg.tapeWidth) && !s.raised && OfJob(todo, id)
    requires 0 < k < |todo| && IsFull(env.cfg, s.buffer.pending + todo[..k])
    requires forall j :: 0 < j < k ==> !IsFull(env.cfg, s.buffer.pending + todo[..j])
    requires env.cfg.maxAttempts > 0 && env.link(|s.journal|) == ConnectFailed(false)
    ensures AddAll(env, s, todo) == AddAll(env, s1, todo[k..])
    ensures id !in s1.acc && s1.buffer == EMPTY_BUFFER && !s1.raised && |s1.journal| > |s.journal|
    decreases k
  {
    hide Flush, AddOne, IsFull;
    AddOneAccepted(env, s, todo[0]);
    assert todo[..1] == [todo[0]];
    var s2 := s.(buffer := AddTo(s.buffer, todo[0], env.cfg.tapeWidth, env.now));
    if k == 1 {
      assert todo[0] in s2.buffer.pending && todo[0].job == id;
      UnsentFlush(env, s2, id);
      s1 := Flush(env, s2);
    } else {
      assert !IsFull(env.cfg, s.buffer.pending + todo[..1]);
      forall j | 0 < j < k ensures s2.buffer.pending + todo[1..][..j] == s.buffer.pending + todo[..j + 1] {
      }
      s1 := TriggerStalls(env, s2, id, todo[1..], k - 1);
      assert todo[1..][k - 1..] == todo[k..];
    }
  }

  lemma UnsentFlush(env: Env, s: State, id: JobId)
    requires Mentions(s.buffer.pending, id) && !s.raised
    requires env.cfg.maxAttempts > 0 && env.link(|s.journal|) == ConnectFailed(false)
    ensures var s1 := Flush(env, s); id !in s1.acc && s1.buffer == EMPTY_BUFFER && !s1.raised && |s1.journal| > |s.journal|
  {
    var labels := s.buffer.pending;
    var s0 := s.(buffer := EMPTY_BUFFER);
    var r := Send(env, s0, labels, true);
    assert r.1 == Sent(false, false) && |r.0.journal| > |s.journal|;
    StallEachRemoves(r.0, JobIds(labels), env.now, id);
    StallEachKeepsBuffer(r.0, JobIds(labels), env.now);
    StallMoves(r.0, JobIds(labels), env.now);
  }

  lemma {:induction false} StallEachRemoves(s: State, ids: seq<JobId>, now: real, id: JobId)
    requires id in ids || id !in s.acc
    ensures id !in StallEach(s, ids, now).acc
    decreases |ids|
  {
    if ids != [] {
      StallEachRemoves(StallOne(s, ids[0], now), ids[1..], now, id);
    }
  }

  /** A strip of copies of a job that is no longer in flight: crediting them raises. */
  lemma OrphansRaise(env: Env, s: State, id: JobId)
    requires s.buffer.pending != [] && OfJob(s.buffer.pending, id) && id !in s.acc && !s.raised
    requires env.cfg.maxAttempts > 0 && env.link(|s.journal|) == FramePrinted
    ensures Flush(env, s).raised
  {
    var labels := s.buffer.pending;
    assert labels[0] in labels;
    var s0 := s.(buffer := EMPTY_BUFFER);
    var r := Send(env, s0, labels, true);
    assert r.1 == Sent(true, true) && r.0.acc == s.acc;
    assert SettleOne(r.0, labels[0], true, true).raised;
    SettleRaised(SettleOne(r.0, labels[0], true, true), labels[1..], true, true);
  }

  /** After such a stall the loop goes on: it strands the rest of the copies, or raises. */
  lemma {:induction false} RestIsStranded(env: Env, s: State, id: JobId, todo: seq<PendingLabel>)
    requires Accepts(s.buffer, env.cfg.tapeWidth) && !s.raised && id !in s.acc
    requires OfJob(s.buffer.pending, id) && OfJob(todo, id) && s.buffer.pending + todo != []
    requires env.cfg.maxAttempts > 0 && forall n: nat :: n >= |s.journal| ==> env.link(n) == FramePrinted
    ensures var s1 := AddAll(env, s, todo);
            s1.raised || (id !in s1.acc && s1.buffer.pending != [] && OfJob(s1.buffer.pending, id) && s1.journal == s.journal)
    decreases |todo|
  {
    if todo != [] {
      AddOneAccepted(env, s, todo[0]);
      var s1 := s.(buffer := AddTo(s.buffer, todo[0], env.cfg.tapeWidth, env.now));
      if IsFull(env.cfg, s1.buffer.pending) {
        OrphansRaise(env, s1, id);
      } else {
        RestIsStranded(env, s1, id, todo[1..]);
      }
    }
  }

  /** A KeyError is on its way, or a copy in the strip belongs to no job in flight. */
  ghost predicate Stranded(s: State) {
    s.raised || exists c :: c in s.buffer.pending && c.job !in s.acc
  }

  /** An early trigger, with the printer away for that one attempt and back afterwards. */
  lemma EarlyTriggerBreaks(env: Env, s: State, id: JobId, todo: seq<PendingLabel>, flush: bool, k: nat)
    requires Accepts(s.buffer, env.cfg.tapeWidth) && !s.raised && OfJob(todo, id)
    requires 0 < k < |todo| && IsFull(env.cfg, s.buffer.pending + todo[..k])
    requires forall j :: 0 < j < k ==> !IsFull(env.cfg, s.buffer.pending + todo[..j])
    requires env.cfg.maxAttempts > 0 && env.link(|s.journal|) == ConnectFailed(false)
    requires forall n: nat :: n > |s.journal| ==> env.link(n) == FramePrinted
    ensures Stranded(BufferCopies(env, s, id, todo, flush))
  {
    hide AddAll, Flush;
    var s1 := TriggerStalls(env, s, id, todo, k);
    RestIsStranded(env, s1, id, todo[k..]);
    var s2 := AddAll(env, s, todo);
    if !s2.raised {
      if flush {
        OrphansRaise(env, s2, id);
      } else {
        assert s2.buffer.pending[0] in s2.buffer.pending;
      }
    }
  }

  lemma StrandedIsUnsound(s: State)
    requires Stranded(s)
    ensures !Inv(s, [])
  {
    hide Tallied, SoundJournal, Replay;
    assert s.buffer.pending + [] == s.buffer.pending;
  }

  lemma {:induction false} FirstTrigger(cfg: Config, pending: seq<PendingLabel>, copies: seq<PendingLabel>,
                                        n: nat) returns (k: nat)
    requires 0 < n < |copies| && IsFull(cfg, pending + copies[..n])
    ensures 0 < k <= n && IsFull(cfg, pending + copies[..k])
    ensures forall j :: 0 < j < k ==> !IsFull(cfg, pending + copies[..j])
  {
    if j :| 0 < j < n && IsFull(cfg, pending + copies[..j]) {
      k := FirstTrigger(cfg, pending, copies, j);
    } else {
      k := n;
    }
  }

  /** The copies `submit` will ask for, which do not depend on the link. */
  function CopiesOf(cfg: Config, now: real, s: State, id: JobId): seq<PendingLabel>
    requires id in s.tables.jobs
  {
    Expand(id, Prepare(Env(cfg, DeadLink, now), s, id).1)
  }

  lemma NoTriggerIsSafe(env: Env, s: State, id: JobId)
    requires Inv(s, []) && Submittable(s, id) && !WrongModel(s.tables.jobs[id].job)
    requires Accepts(s.buffer, env.cfg.tapeWidth)
    requires NoEarlyTrigger(env.cfg, s.buffer.pending, CopiesOf(env.cfg, env.now, s, id))
    ensures Inv(Submit(env, s, id), [])
  {
    hide Conserved, Prepare, NoMidLoopStall, NoEarlyTrigger, Submit;
    PrepareIgnoresLink(env, Env(env.cfg, DeadLink, env.now), s, id);
    PrepareKeeps(env, s, id);
    InvIsUnraised(s);
    PrepareAsks(env, s, id);
    NoTriggerNoStall(env, Prepare(env, s, id).0, id, CopiesOf(env.cfg, env.now, s, id));
    SubmitKeeps(env, s, id);
  }

  lemma TriggerIsUnsafe(env: Env, s: State, id: JobId, k: nat)
    requires Inv(s, []) && Submittable(s, id) && !WrongModel(s.tables.jobs[id].job) && !IsDiscrete(env.cfg, s.tables.jobs[id].job)
    requires Accepts(s.buffer, env.cfg.tapeWidth) && env.cfg.maxAttempts > 0
    requires var copies := CopiesOf(env.cfg, env.now, s, id);
             && 0 < k < |copies| && IsFull(env.cfg, s.buffer.pending + copies[..k])
             && forall j :: 0 < j < k ==> !IsFull(env.cfg, s.buffer.pending + copies[..j])
    requires var at := |Prepare(env, s, id).0.journal|;
             env.link(at) == ConnectFailed(false) && forall n: nat :: n > at ==> env.link(n) == FramePrinted
    ensures !Inv(Submit(env, s, id), [])
  {
    hide Conserved, Prepare, BufferCopies;
    PrepareIgnoresLink(env, Env(env.cfg, DeadLink, env.now), s, id);
    PrepareKeeps(env, s, id);
    PreparedAcc(env, s, id);
    InvIsUnraised(s);
    PrepareAsks(env, s, id);
    var r := Prepare(env, s, id);
    var job := s.tables.jobs[id].job;
    ExpandCounts(id, r.1, 0);
    if Total(r.0.acc[id].expected, |job.labels|) == 0 {
      NothingAsked(id, job, r.1);
    }
    EarlyTriggerBreaks(env, r.0, id, Expand(id, r.1), job.flush || AsStrip(env.cfg, job), k);
    StrandedIsUnsound(Submit(env, s, id));
  }

  /** For a strip job on the tape already in the buffer, `submit` keeps the accounts whatever
      the link does if and only if no size trigger fires while copies are still to come. */
  lemma ConservedForEveryLinkIff(cfg: Config, now: real, s: State, id: JobId)
    requires Inv(s, []) && Submittable(s, id) && cfg.maxAttempts > 0
    requires !WrongModel(s.tables.jobs[id].job) && !IsDiscrete(cfg, s.tables.jobs[id].job)
    requires Accepts(s.buffer, cfg.tapeWidth)
    ensures (forall link: nat -> Attempt :: Inv(Submit(Env(cfg, link, now), s, id), []))
            <==> NoEarlyTrigger(cfg, s.buffer.pending, CopiesOf(cfg, now, s, id))
  {
    hide Inv, Submit, Prepare, QueuedIn;
    var copies := CopiesOf(cfg, now, s, id);
    if NoEarlyTrigger(cfg, s.buffer.pending, copies) {
      forall link: nat -> Attempt ensures Inv(Submit(Env(cfg, link, now), s, id), []) {
        NoTriggerIsSafe(Env(cfg, link, now), s, id);
      }
    } else {
      var n :| 0 < n < |copies| && IsFull(cfg, s.buffer.pending + copies[..n]);
      var k := FirstTrigger(cfg, s.buffer.pending, copies, n);
      var dead := Env(cfg, DeadLink, now);
      var at := |Prepare(dead, s, id).0.journal|;
      var link: nat -> Attempt := m => if m <= at then ConnectFailed(false) else FramePrinted;
      PrepareIgnoresLink(dead, Env(cfg, link, now), s, id);
      TriggerIsUnsafe(Env(cfg, link, now), s, id, k);
    }
  }

  // --- what a resubmission asks for -------------------------------------------

  lemma {:induction false} PlanEntry(env: Env, s: State, job: PrintJob, already: set<nat>, n: nat,
                                     i: nat) returns (s1: State)
    requires i < n <= |job.labels|
    ensures PlanLabels(env, s, job, already, n).1[i] == Decide(env, s1, job, already, i).1
    ensures Moved(s, s1, [])
    ensures Moved(Decide(env, s1, job, already, i).0, PlanLabels(env, s, job, already, n).0, [])
  {
    hide Moved;
    var before := PlanLabels(env, s, job, already, n - 1);
    PlanMoves(env, s, job, already, n - 1);
    if i == n - 1 {
      s1 := before.0;
      MovedNothing(PlanLabels(env, s, job, already, n).0);
    } else {
      s1 := PlanEntry(env, s, job, already, n - 1, i);
      LabelMoves(env, before.0, job, already, n - 1);
      QuietlyThen(Decide(env, s1, job, already, i).0, before.0, PlanLabels(env, s, job, already, n).0);
    }
  }

  lemma LabelMoves(env: Env, s: State, job: PrintJob, already: set<nat>, i: nat)
    requires i < |job.labels|
    ensures Moved(s, Decide(env, s, job, already, i).0, []) && Decide(env, s, job, already, i).0.raised == s.raised
  {
    hide Moved;
    MovedNothing(s);
    var key := DedupeKey(env.cfg, job.labels[i]);
    if key.Some? {
      EmitMoves(s, DedupeRecorded(key.value, job.id, env.now));
    }
  }

  /** The decision on label i, made on a state with at least the dedupe keys of s. */
  lemma PreparedEntry(env: Env, s: State, id: JobId, i: nat) returns (s1: State)
    requires id in s.tables.jobs && i < |s.tables.jobs[id].job.labels|
    ensures var r := Prepare(env, s, id); var job := s.tables.jobs[id].job;
            && |r.1| == |job.labels|
            && r.1[i] == Decide(env, s1, job, PrintedLabels(s.tables, id), i).1
            && s.tables.dedupe.Keys <= s1.tables.dedupe.Keys
            && Decide(env, s1, job, PrintedLabels(s.tables, id), i).0.tables.dedupe.Keys <= r.0.tables.dedupe.Keys
  {
    var job := s.tables.jobs[id].job;
    var marked := Emit(s, Marked(id, Printing));
    assert PrintedLabels(marked.tables, id) == PrintedLabels(s.tables, id);
    s1 := PlanEntry(env, marked, job, PrintedLabels(s.tables, id), |job.labels|, i);
  }

  /** An empty key is none. */
  predicate Keyless(spec: LabelSpec) {
    spec.dedupeKey == None || spec.dedupeKey == Some("")
  }

  /** A label is recorded under its dedupe key when it is taken on, not when it is printed.
      Whatever became of the job since, as long as the record lasts and the label is not
      committed, the next submission asks for it again exactly where it has no dedupe key;
      otherwise it passes the label over as a duplicate. */
  lemma AskedForAgainIff(env: Env, later: Env, s: State, t: State, id: JobId, i: nat)
    requires id in s.tables.jobs && id in t.tables.jobs && t.tables.jobs[id].job == s.tables.jobs[id].job
    requires i < |s.tables.jobs[id].job.labels| && Prepare(env, s, id).1[i].Print?
    requires Prepare(env, s, id).0.tables.dedupe.Keys <= t.tables.dedupe.Keys && (id, i) !in t.tables.printed
    requires var spec := s.tables.jobs[id].job.labels[i];
             later.cfg.printerId == env.cfg.printerId && later.cfg.render(spec) == env.cfg.render(spec)
    ensures var again := Prepare(later, t, id).1[i];
            && (again.Print? <==> Keyless(s.tables.jobs[id].job.labels[i]))
            && (again.Print? || again == Duplicate)
  {
    hide Prepare;
    var m := PreparedEntry(env, s, id, i);
    var m1 := PreparedEntry(later, t, id, i);
    assert i !in PrintedLabels(t.tables, id);
  }

  /** The record the first submission makes of a label it takes on. */
  lemma KeyIsRecordedByPlanning(env: Env, s: State, id: JobId, i: nat) returns (p: nat)
    requires id in s.tables.jobs && s.tables.jobs[id].job.id == id && !WrongModel(s.tables.jobs[id].job) && !s.raised
    requires i < |s.tables.jobs[id].job.labels| && Prepare(env, s, id).1[i].Print?
    requires !Keyless(s.tables.jobs[id].job.labels[i])
    ensures var h, key := Submit(env, s, id).journal, s.tables.jobs[id].job.labels[i].dedupeKey.value;
            |s.journal| <= p < |h| && h[p] == DedupeRecorded(env.cfg.printerId + ":" + key, id, env.now)
  {
    hide Submit, Moved;
    var job := s.tables.jobs[id].job;
    var marked := Emit(s, Marked(id, Printing));
    assert PrintedLabels(marked.tables, id) == PrintedLabels(s.tables, id);
    var m := PlanEntry(env, marked, job, PrintedLabels(s.tables, id), |job.labels|, i);
    SubmitMoves(env, s, id);
    MovedJournal(marked, m, []);
    p := |m.journal|;
    RecordedIn(env, s, m, job, id, i);
    MovedJournal(Prepare(env, s, id).0, Submit(env, s, id), Expand(id, Prepare(env, s, id).1));
  }

  lemma RecordedIn(env: Env, s: State, m: State, job: PrintJob, id: JobId, i: nat)
    requires id in s.tables.jobs && job == s.tables.jobs[id].job && job.id == id && i < |job.labels|
    requires var marked := Emit(s, Marked(id, Printing)); var already := PrintedLabels(s.tables, id);
             Moved(Decide(env, m, job, already, i).0, PlanLabels(env, marked, job, already, |job.labels|).0, [])
             && Decide(env, m, job, already, i).1.Print?
    requires DedupeKey(env.cfg, job.labels[i]).Some?
    ensures var h := Prepare(env, s, id).0.journal; var key := DedupeKey(env.cfg, job.labels[i]).value;
            |m.journal| < |h| && h[|m.journal|] == DedupeRecorded(key, id, env.now)
  {
    hide PlanLabels;
    var marked := Emit(s, Marked(id, Printing));
    assert PrintedLabels(marked.tables, id) == PrintedLabels(s.tables, id);
  }

  lemma MovedJournal(s: State, s1: State, copies: seq<PendingLabel>)
    requires Moved(s, s1, copies)
    ensures s.journal <= s1.journal
  {
  }

  lemma MovedKeys(s: State, s1: State, copies: seq<PendingLabel>)
    requires Moved(s, s1, copies)
    ensures s.tables.dedupe.Keys <= s1.tables.dedupe.Keys
  {
  }

  /** The records made when a job is planned are still there when its submission returns, or
      fails: a stall takes the job back, but not its records. */
  lemma PlannedKeysOutlastTheCall(env: Env, s: State, id: JobId)
    requires id in s.tables.jobs && !WrongModel(s.tables.jobs[id].job) && !s.raised
    ensures Prepare(env, s, id).0.tables.dedupe.Keys <= Submit(env, s, id).tables.dedupe.Keys
  {
    hide Submit, Prepare, Moved;
    SubmitMoves(env, s, id);
    MovedKeys(Prepare(env, s, id).0, Submit(env, s, id), Expand(id, Prepare(env, s, id).1));
  }

  lemma {:induction false} StallEachRequeues(s: State, ids: seq<JobId>, now: real, id: JobId)
    requires id in ids && id in s.tables.jobs
    requires forall i, k :: 0 <= i < k < |ids| ==> ids[i] != ids[k]
    ensures var s1 := StallEach(s, ids, now);
            && s1.tables.order == s.tables.order && s1.tables.printed == s.tables.printed
            && id in s1.tables.jobs && s1.tables.jobs[id] == s.tables.jobs[id].(state := Queued)
    decreases |ids|
  {
    var s1 := StallOne(s, ids[0], now);
    if ids[0] == id {
      StallEachOthers(s1, ids[1..], now, id);
    } else {
      StallEachRequeues(s1, ids[1..], now, id);
    }
  }

  lemma {:induction false} StallEachOthers(s: State, ids: seq<JobId>, now: real, id: JobId)
    requires id !in ids && id in s.tables.jobs
    ensures var s1 := StallEach(s, ids, now);
            && s1.tables.order == s.tables.order && s1.tables.printed == s.tables.printed
            && id in s1.tables.jobs && s1.tables.jobs[id] == s.tables.jobs[id]
    decreases |ids|
  {
    if ids != [] {
      StallEachOthers(StallOne(s, ids[0], now), ids[1..], now, id);
    }
  }

  /** A label of a job in flight with a lost copy is not committed. */
  lemma LostIsUncommitted(s: State, id: JobId, i: nat)
    requires Inv(s, []) && id in s.acc && Get(s.acc[id].failed, i) > 0
    ensures i < |s.acc[id].job.labels| && (id, i) !in s.tables.printed
    ensures id in s.tables.jobs && s.tables.jobs[id].job == s.acc[id].job && Mentions(s.buffer.pending, id)
  {
    hide SoundJournal, Replay, Tallied, Complete;
    assert s.buffer.pending + [] == s.buffer.pending;
    LostTally(s.journal, s.tables, s.acc[id], s.buffer.pending, id, i);
  }

  lemma LostTally(h: seq<Event>, t: Tables, a: JobAcc, out: seq<PendingLabel>, id: JobId, i: nat)
    requires Tallied(h, t, a, out, id) && !Complete(a) && Get(a.failed, i) > 0
    ensures i < |a.job.labels| && (id, i) !in t.printed
    ensures id in t.jobs && t.jobs[id].job == a.job && Mentions(out, id)
  {
    CompleteWhenNoneOut(h, t, a, out, id);
    assert i in a.expected;
  }

  /** A job in flight with a lost copy, and the printer away at the next flush: the job is
      queued again, and its next submission asks for the lost label afresh, all copies. */
  lemma LostLabelIsAskedForAgain(env: Env, later: Env, s: State, id: JobId, i: nat)
    requires Inv(s, []) && id in s.acc && Get(s.acc[id].failed, i) > 0
    requires env.cfg.maxAttempts > 0 && env.link(|s.journal|) == ConnectFailed(false)
    requires var spec := s.acc[id].job.labels;
             i < |spec| && DedupeKey(later.cfg, spec[i]).None? && later.cfg.render(spec[i]).Some?
    ensures var s1 := Flush(env, s); var spec := s.acc[id].job.labels[i];
            && Submittable(s1, id) && s1.tables.jobs[id].job == s.acc[id].job
            && Prepare(later, s1, id).1[i] == Print(spec.copies, later.cfg.render(spec).value)
  {
    hide Conserved, SendFrom, Prepare, QueuedIn;
    LostIsUncommitted(s, id, i);
    InvTables(s);
    InvIsUnraised(s);
    UnsentFlush(env, s, id);
    var labels := s.buffer.pending;
    var s0 := s.(buffer := EMPTY_BUFFER);
    DeadSend(env, s0, labels);
    var r := Send(env, s0, labels, true);
    StallEachRequeues(r.0, JobIds(labels), env.now, id);
    var s1 := Flush(env, s);
    assert id in s1.tables.order;
    var m := PreparedEntry(later, s1, id, i);
    assert i !in PrintedLabels(s1.tables, id);
  }

  /** Is there a link on which the next flush leaves the job to be submitted, and to be asked
      for this label again? */
  ghost predicate CanPrintAgain(env: Env, later: Env, s: State, id: JobId, i: nat) {
    exists link: nat -> Attempt :: AskedForAfter(later, Flush(env.(link := link), s), id, i)
  }

  ghost predicate AskedForAfter(later: Env, s: State, id: JobId, i: nat) {
    Submittable(s, id) && i < |s.tables.jobs[id].job.labels| && Prepare(later, s, id).1[i].Print?
  }

  /** After a strip that broke off, with `rest` the copies still to come: its label can be put
      on tape again exactly where the job has a copy among them. "Never auto-retried" holds
      of the jobs that end with the strip, and of no other. */
  lemma BrokenStripCanPrintAgainIff(env: Env, later: Env, s: State, labels: seq<PendingLabel>, rest: seq<PendingLabel>,
                                    b: Buffer, id: JobId, i: nat)
    requires Conserved(s, labels + rest) && Unsettled(s) && s.buffer.pending == [] && b.pending == rest
    requires Count(labels, id, i) > 0 && id in s.acc && env.cfg.maxAttempts > 0
    requires Send(env, s, labels, true).1 == Sent(false, true)
    requires var spec := s.acc[id].job.labels;
             i < |spec| && DedupeKey(later.cfg, spec[i]).None? && later.cfg.render(spec[i]).Some?
    ensures CanPrintAgain(env, later, PrintStrip(env, s, labels).(buffer := b), id, i) <==> Mentions(rest, id)
  {
    hide Conserved, PrintStrip, Prepare, Send, Flush, Unsettled, QueuedIn;
    var c := CountWitness(labels, id, i);
    BegunStripFinishesExactlyItsLast(env, s, labels, rest, id);
    var s1 := PrintStrip(env, s, labels).(buffer := b);
    Waiting(PrintStrip(env, s, labels), b, rest);
    if Mentions(rest, id) {
      var away := env.(link := DeadLink);
      LostLabelIsAskedForAgain(away, later, s1, id, i);
      assert AskedForAfter(later, Flush(env.(link := DeadLink), s1), id, i);
    } else {
      forall link: nat -> Attempt ensures !Submittable(Flush(env.(link := link), s1), id) {
        FlushBystander(env.(link := link), s1, id);
        FinishedIsNotQueued(s1, id);
      }
    }
  }

  /** The jobs of a state with copies still to come, once those copies are in the strip. */
  lemma Waiting(s: State, b: Buffer, rest: seq<PendingLabel>)
    requires Conserved(s, rest) && Unsettled(s) && b.pending == rest
    ensures Inv(s.(buffer := b), [])
  {
    assert b.pending + [] == rest;
  }

  lemma FinishedIsNotQueued(s: State, id: JobId)
    requires Inv(s, []) && id in s.tables.jobs && s.tables.jobs[id].result.Some?
    ensures !Awaiting(s.tables, id)
  {
    hide Inv;
    InvTables(s);
    assert RowOk(id, s.tables.jobs[id]);
  }

  lemma DeadSend(env: Env, s: State, copies: seq<PendingLabel>)
    requires env.cfg.maxAttempts > 0 && env.link(|s.journal|) == ConnectFailed(false)
    ensures var r := Send(env, s, copies, true); r.1 == Sent(false, false) && r.0.tables == s.tables
  {
  }
}
