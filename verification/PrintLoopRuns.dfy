/** Runs of the agent: calls and crashes in any order, and what holds over all of them. */
module PrintLoopRuns {
  import opened Basics
  import opened Contract
  import opened Spool
  import opened PrintLoop
  import opened History
  import opened PrintLoopInvariant
  import opened PrintLoopSteps
  import opened PrintLoopJournal
  import opened EveryRun
  import opened TapeOrder

  /** The hypotheses the code needs: jobs are submitted while they wait in the queue and are
      not in flight, and no flush stalls a job in the middle of its own buffering loop. */
  ghost predicate Allowed(env: Env, s: State, op: Op) {
    match op
    case SubmitOp(id) => Submittable(s, id) && LinkHolds(env, s, id)
    case FlushOp => true
    case TickOp =>
      var s1 := if IdleExpired(env.cfg, s.buffer, env.now) then Flush(env, s) else s;
      EachRetryAllowed(env, s1, QueuedIds(s1.tables))
    case RecoverOp => s.acc == map[] && EachLinkHolds(env, s, QueuedIds(s.tables))
    case MessageOp(d, _) => d.job.Some? ==> ValidJob(d.job.value)
  }

  ghost predicate StepsTo(s: State, step: Step, s1: State) {
    Allowed(step.env, s, step.op) && Leads(s, step, s1)
  }

  ghost predicate Run(states: seq<State>, steps: seq<Step>) {
    && |states| == |steps| + 1
    && states[0] == Reboot([])
    && forall i :: 0 <= i < |steps| ==> StepsTo(states[i], steps[i], states[i + 1])
  }

  lemma RunIsAnyRun(states: seq<State>, steps: seq<Step>)
    requires Run(states, steps)
    ensures AnyRun(states, steps)
  {
    hide Leads, Allowed, Reboot;
  }

  lemma CallKeeps(env: Env, s: State, op: Op)
    requires Inv(s, []) && Allowed(env, s, op)
    ensures Inv(Do(env, s, op), [])
  {
    hide Inv, Submit, Flush, Tick, Recover, OnMessage, LinkHolds, EachRetryAllowed, EachLinkHolds;
    match op
    case SubmitOp(id) => SubmitKeeps(env, s, id);
    case FlushOp => FlushAlone(env, s);
    case TickOp => TickKeeps(env, s);
    case RecoverOp => RecoverKeeps(env, s);
    case MessageOp(d, fault) => OnMessageKeeps(env, s, d, fault);
  }

  lemma InvIsSound(s: State)
    requires Inv(s, [])
    ensures SoundJournal(s.journal) && s.tables == Replay(s.journal)
  {
  }

  /** One step, crashing or not, keeps the invariant. */
  lemma StepKeeps(s: State, step: Step, s1: State)
    requires Inv(s, []) && StepsTo(s, step, s1)
    ensures Inv(s1, [])
  {
    hide Inv, Do, Allowed, Reboot;
    CallKeeps(step.env, s, step.op);
    var done := Do(step.env, s, step.op);
    NotRaised(done);
    if step.Crash? {
      InvIsSound(done);
      SoundPrefix(done.journal, step.kept);
      RebootKeeps(done.journal[..step.kept]);
    }
  }

  /** Every state of every run satisfies the invariant. */
  lemma {:induction false} RunKeeps(states: seq<State>, steps: seq<Step>, n: nat)
    requires Run(states, steps) && n < |states|
    ensures Inv(states[n], [])
    decreases n
  {
    hide Inv, StepsTo, Reboot;
    if n == 0 {
      RebootKeeps([]);
    } else {
      RunKeeps(states, steps, n - 1);
      StepKeeps(states[n - 1], steps[n - 1], states[n]);
    }
  }

  // --- no submission fails ----------------------------------------------------

  lemma {:induction false} RecoveryNeverFails(env: Env, s: State, ids: seq<JobId>)
    requires Inv(s, []) && EachLinkHolds(env, s, ids)
    requires forall id :: id in ids ==> Submittable(s, id)
    requires forall i, k :: 0 <= i < k < |ids| ==> ids[i] != ids[k]
    ensures !SomeSubmissionFails(env, s, ids)
    decreases |ids|
  {
    if ids != [] {
      hide Submit, LinkHolds, Conserved, Submittable;
      SubmitKeeps(env, s, ids[0]);
      var s1 := Submit(env, s, ids[0]);
      NotRaised(s1);
      forall k | k in ids[1..] ensures Submittable(s1, k) {
        StillSubmittable(env, s, ids[0], k);
      }
      RecoveryNeverFails(env, s1, ids[1..]);
    }
  }

  lemma {:induction false} RetryNeverFails(env: Env, s: State, ids: seq<JobId>)
    requires Inv(s, []) && EachRetryAllowed(env, s, ids)
    ensures !SomeRetryFails(env, s, ids)
    decreases |ids|
  {
    if ids != [] {
      hide Inv, Submit, LinkHolds, Submittable;
      if Due(env, s, ids[0]) {
        var s0 := s.(stalled := s.stalled[ids[0] := env.now]);
        StalledIsNoAccount(s, s0.stalled);
        SubmitKeeps(env, s0, ids[0]);
        NotRaised(Submit(env, s0, ids[0]));
        RetryNeverFails(env, Submit(env, s0, ids[0]), ids[1..]);
      } else {
        RetryNeverFails(env, s, ids[1..]);
      }
    }
  }

  lemma AllowedNeverFails(env: Env, s: State, op: Op)
    requires Inv(s, []) && Allowed(env, s, op)
    ensures !CallFails(env, s, op)
  {
    hide Inv, Submit, Flush, LinkHolds, EachRetryAllowed, EachLinkHolds, Submittable, SomeRetryFails, SomeSubmissionFails, QueuedIn;
    match op
    case SubmitOp(id) =>
      SubmitKeeps(env, s, id);
      NotRaised(Submit(env, s, id));
    case TickOp =>
      FlushAlone(env, s);
      var s1 := if IdleExpired(env.cfg, s.buffer, env.now) then Flush(env, s) else s;
      RetryNeverFails(env, s1, QueuedIds(s1.tables));
    case RecoverOp =>
      QueuedTurns(s);
      RecoveryNeverFails(env, s, QueuedIds(s.tables));
    case _ =>
  }

  /** In a run that keeps to the hypotheses no submission ever fails, so tape order is
      submission order in all of it, unless a job was sent back to the queue. */
  lemma {:induction false} NoSubmissionFails(states: seq<State>, steps: seq<Step>, n: nat)
    requires Run(states, steps) && n < |states|
    ensures !FailedSinceBoot(states, steps, n)
    ensures Stalled(states[n].journal) ||
            HandedOver(states[n].journal) + states[n].buffer.pending == AskedFor(states[n].journal)
    decreases n
  {
    hide Inv, Allowed, CallFails, Leads, Reboot;
    RunIsAnyRun(states, steps);
    TapeOrderIsSubmissionOrder(states, steps, n);
    if n > 0 {
      NoSubmissionFails(states, steps, n - 1);
      RunKeeps(states, steps, n - 1);
      assert StepsTo(states[n - 1], steps[n - 1], states[n]);
      AllowedNeverFails(steps[n - 1].env, states[n - 1], steps[n - 1].op);
    }
  }

  // --- copies are conserved ---------------------------------------------------

  /** In every state of every run: each copy of each job in flight is done, failed or pending
      in the strip; the strip holds copies of jobs in flight only; and every job in flight has
      a copy pending, so that finished and stalled jobs have none. */
  lemma CopiesConserved(states: seq<State>, steps: seq<Step>, n: nat)
    requires Run(states, steps) && n < |states|
    ensures var s := states[n];
            && (forall id, i: nat :: id in s.acc ==>
                  Get(s.acc[id].done, i) + Get(s.acc[id].failed, i) + Count(s.buffer.pending, id, i)
                  == Get(s.acc[id].expected, i))
            && (forall c :: c in s.buffer.pending ==> c.job in s.acc && c.index < |s.acc[c.job].job.labels|)
            && (forall id :: id in s.acc <==> Mentions(s.buffer.pending, id))
            && (forall id :: id in s.acc ==> id in s.tables.jobs && s.tables.jobs[id].state == Printing)
  {
    hide SoundJournal, Run, Tallied, Complete;
    RunKeeps(states, steps, n);
    var s := states[n];
    assert s.buffer.pending + [] == s.buffer.pending;
    forall id | id in s.acc
      ensures forall i: nat ::
        Get(s.acc[id].done, i) + Get(s.acc[id].failed, i) + Count(s.buffer.pending, id, i) == Get(s.acc[id].expected, i)
      ensures forall c :: c in s.buffer.pending && c.job == id ==> c.index < |s.acc[id].job.labels|
      ensures Mentions(s.buffer.pending, id)
      ensures id in s.tables.jobs && s.tables.jobs[id].state == Printing
    {
      JobConserved(s.journal, s.tables, s.acc[id], s.buffer.pending, id);
    }
  }

  lemma JobConserved(h: seq<Event>, t: Tables, a: JobAcc, out: seq<PendingLabel>, id: JobId)
    requires Tallied(h, t, a, out, id) && !Complete(a)
    ensures forall i: nat :: Get(a.done, i) + Get(a.failed, i) + Count(out, id, i) == Get(a.expected, i)
    ensures forall c :: c in out && c.job == id ==> c.index < |a.job.labels|
    ensures Mentions(out, id)
    ensures id in t.jobs && t.jobs[id].state == Printing
  {
    CompleteWhenNoneOut(h, t, a, out, id);
  }

  // --- what a sound journal rules out -----------------------------------------

  lemma SoundAt(h: seq<Event>, q: nat)
    requires SoundJournal(h) && q < |h|
    ensures Sound(h[..q], h[q])
  {
    hide Sound;
    SoundPrefix(h, q + 1);
    assert Prev(h[..q + 1]) == h[..q];
  }

  /** Commits and results stay in the tables once they are there. */
  lemma {:induction false} TablesRemember(h: seq<Event>, p: nat, q: nat)
    requires SoundJournal(h) && p < q <= |h|
    ensures h[p].Committed? ==> (h[p].id, h[p].index) in Replay(h[..q]).printed
    ensures h[p].Finished? ==> h[p].id in Replay(h[..q]).jobs && Replay(h[..q]).jobs[h[p].id].result == Some(h[p].result)
    ensures h[p].Inserted? ==> h[p].job.id in Replay(h[..q]).jobs && Replay(h[..q]).jobs[h[p].job.id].job == h[p].job
  {
    assert Prev(h[..q]) == h[..q - 1] && Last(h[..q]) == h[q - 1];
    SoundAt(h, q - 1);
    if p < q - 1 {
      TablesRemember(h, p, q - 1);
    }
  }

  /** Labels in the printed table stay there: it never loses a row. */
  lemma {:induction false} PrintedRemember(h: seq<Event>, p: nat, q: nat, id: JobId, i: nat)
    requires SoundJournal(h) && p <= q <= |h| && (id, i) in Replay(h[..p]).printed
    ensures (id, i) in Replay(h[..q]).printed
  {
    if p < q {
      assert Prev(h[..q]) == h[..q - 1] && Last(h[..q]) == h[q - 1];
      PrintedRemember(h, p, q - 1, id, i);
    }
  }

  /** Crash safety: once a label is in `printed_labels`, no later frame of the run contains a
      copy of it, through any number of crashes, reboots and stalls. */
  lemma CommittedNeverReprinted(states: seq<State>, steps: seq<Step>, m: nat, n: nat, q: nat, id: JobId, i: nat)
    requires Run(states, steps) && m <= n < |states| && (id, i) in states[m].tables.printed
    requires |states[m].journal| <= q < |states[n].journal| && states[n].journal[q].Tried?
    ensures forall c :: c in states[n].journal[q].copies ==> !(c.job == id && c.index == i)
  {
    hide Run, Tallied;
    RunKeeps(states, steps, m);
    RunKeeps(states, steps, n);
    RunIsAnyRun(states, steps);
    JournalOnlyGrows(states, steps, m, n);
    var h := states[n].journal;
    assert h[..|states[m].journal|] == states[m].journal;
    PrintedRemember(h, |states[m].journal|, q, id, i);
    SoundAt(h, q);
  }

  /** A finished job is over: none of its copies is on a later frame, and it is not finished
      again. This covers every job that was finished because its strip broke off. */
  lemma FinishedIsTerminal(states: seq<State>, steps: seq<Step>, n: nat, p: nat, q: nat)
    requires Run(states, steps) && n < |states|
    requires p < q < |states[n].journal| && states[n].journal[p].Finished?
    ensures var id := states[n].journal[p].id; var later := states[n].journal[q];
            && (later.Tried? ==> !Mentions(later.copies, id))
            && !(later.Finished? && later.id == id)
            && !(later.Planned? && later.id == id)
            && !(later.Marked? && later.id == id)
  {
    hide Run, Tallied;
    RunKeeps(states, steps, n);
    SoundAt(states[n].journal, q);
    TablesRemember(states[n].journal, p, q);
  }

  /** Results tell the truth: see `Truthful` for what a stored result says about the tape. */
  lemma ResultsTellTheTruth(states: seq<State>, steps: seq<Step>, n: nat, p: nat)
    requires Run(states, steps) && n < |states|
    requires p < |states[n].journal| && states[n].journal[p].Finished?
    requires states[n].journal[p].result.state != Rejected
    ensures Truthful(states[n].journal[..p], states[n].journal[p].id, states[n].journal[p].result)
  {
    hide Run, Tallied, Truthful;
    RunKeeps(states, steps, n);
    SoundAt(states[n].journal, p);
  }

  /** Commits tell the truth too: a label is committed only when all its copies are on tape. */
  lemma CommitsTellTheTruth(states: seq<State>, steps: seq<Step>, n: nat, p: nat)
    requires Run(states, steps) && n < |states|
    requires p < |states[n].journal| && states[n].journal[p].Committed?
    ensures var e := states[n].journal[p]; var h := states[n].journal[..p];
            && e.index < |PlanOf(h, e.id)| && PlanOf(h, e.id)[e.index].Print?
            && Good(h, e.id, e.index) == PlanOf(h, e.id)[e.index].copies
  {
    hide Run, Tallied;
    RunKeeps(states, steps, n);
    SoundAt(states[n].journal, p);
  }

  // --- nobody is forgotten ----------------------------------------------------

  /** Is there, after p, an event that ends the submission of job id begun there? */
  ghost predicate EndedAfter(h: seq<Event>, p: nat, id: JobId) {
    exists q :: p < q < |h| &&
      ((h[q].Finished? && h[q].id == id) || (h[q].Marked? && h[q].id == id && h[q].state == Queued) || h[q].Booted?)
  }

  lemma {:induction false} LiveUnlessEnded(h: seq<Event>, p: nat, id: JobId)
    requires p < |h| && h[p].Planned? && h[p].id == id
    ensures id in Live(h) || EndedAfter(h, p, id)
    decreases |h|
  {
    if p < |h| - 1 {
      LiveUnlessEnded(Prev(h), p, id);
      if EndedAfter(Prev(h), p, id) {
        var q :| p < q < |Prev(h)| && ((Prev(h)[q].Finished? && Prev(h)[q].id == id)
          || (Prev(h)[q].Marked? && Prev(h)[q].id == id && Prev(h)[q].state == Queued) || Prev(h)[q].Booted?);
        assert h[q] == Prev(h)[q];
      } else if id !in Live(h) {
        assert h[|h| - 1] == Last(h);
      }
    }
  }

  /** Every submission that neither stalls nor crashes is finalised once all its copies have
      settled: until one of these happens, a copy of it is waiting in the strip. */
  lemma SubmissionsAreSeenThrough(states: seq<State>, steps: seq<Step>, n: nat, p: nat)
    requires Run(states, steps) && n < |states|
    requires p < |states[n].journal| && states[n].journal[p].Planned?
    ensures var id := states[n].journal[p].id;
            Mentions(states[n].buffer.pending, id) || EndedAfter(states[n].journal, p, id)
  {
    hide Run, Tallied, SoundJournal;
    RunKeeps(states, steps, n);
    LiveUnlessEnded(states[n].journal, p, states[n].journal[p].id);
    CopiesConserved(states, steps, n);
  }

  // --- discrete crash safety --------------------------------------------------

  /** Since the job's latest submission, every frame with copies of it was a discrete one. */
  ghost predicate DiscreteOnly(h: seq<Event>, id: JobId) {
    if h == [] || (Last(h).Planned? && Last(h).id == id) then true
    else (Last(h).Tried? && Mentions(Last(h).copies, id) ==> !Last(h).strip) && DiscreteOnly(Prev(h), id)
  }

  /** The label of job id whose frame was begun last since then. */
  ghost function LastLabel(h: seq<Event>, id: JobId): Option<nat> {
    if h == [] || (Last(h).Planned? && Last(h).id == id) then None
    else if Last(h).Tried? && Mentions(Last(h).copies, id) then Some(Last(h).copies[0].index)
    else LastLabel(Prev(h), id)
  }

  lemma {:induction false} OnlyTheLastIsOpen(h: seq<Event>, id: JobId, i: nat)
    requires SoundJournal(h) && DiscreteOnly(h, id)
    requires Good(h, id, i) > 0 && Lost(h, id, i) == 0 && (id, i) !in Replay(h).printed
    ensures LastLabel(h, id) == Some(i)
    decreases |h|
  {
    hide Truthful, PlanFits, SendOf;
    var e := Last(h);
    if e.Tried? && Mentions(e.copies, id) {
      assert e.copies == [e.copies[0]];
      CountOne(e.copies[0], id, i);
      assert OthersCommitted(Prev(h), id, e.copies[0].index);
    } else {
      if e.Tried? {
        NoneMentioned(e.copies, id);
      }
      OnlyTheLastIsOpen(Prev(h), id, i);
    }
  }

  /** At every point of a run where the process may die, a label of a discretely printed job
      that has a good copy on tape, has lost none, and is not committed yet is the one in
      flight: so a crash reprints copies of at most one label. */
  lemma DiscreteCrashLosesOneLabel(states: seq<State>, steps: seq<Step>, n: nat, k: nat, id: JobId, i: nat)
    requires Run(states, steps) && n < |states| && k <= |states[n].journal|
    requires var h := states[n].journal[..k];
             && DiscreteOnly(h, id) && Good(h, id, i) > 0 && Lost(h, id, i) == 0 && (id, i) !in Replay(h).printed
    ensures LastLabel(states[n].journal[..k], id) == Some(i)
  {
    hide Run, Tallied;
    RunKeeps(states, steps, n);
    SoundPrefix(states[n].journal, k);
    OnlyTheLastIsOpen(states[n].journal[..k], id, i);
  }
}
