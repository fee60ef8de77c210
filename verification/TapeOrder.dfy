/** Copies reach the tape in the order they were asked for, over every run. */
module TapeOrder {
  import opened Basics
  import opened Contract
  import opened Spool
  import opened PrintLoop
  import opened History
  import opened PrintLoopSteps
  import opened PrintLoopJournal
  import opened EveryRun

  // --- which calls break off part-way -----------------------------------------

  /** Does a KeyError end this submission after it has begun? */
  ghost predicate Fails(env: Env, s: State, id: JobId) {
    id in s.tables.jobs && Submit(env, s, id).raised
  }

  ghost predicate SomeSubmissionFails(env: Env, s: State, ids: seq<JobId>)
    decreases |ids|
  {
    ids != [] && (Fails(env, s, ids[0]) || SomeSubmissionFails(env, Submit(env, s, ids[0]).(raised := false), ids[1..]))
  }

  ghost predicate SomeRetryFails(env: Env, s: State, ids: seq<JobId>)
    decreases |ids|
  {
    ids != [] &&
      if Due(env, s, ids[0]) then
        var s0 := s.(stalled := s.stalled[ids[0] := env.now]);
        Fails(env, s0, ids[0]) || SomeRetryFails(env, Submit(env, s0, ids[0]).(raised := false), ids[1..])
      else SomeRetryFails(env, s, ids[1..])
  }

  /** Does some submission this call makes fail? */
  ghost predicate CallFails(env: Env, s: State, op: Op) {
    match op
    case SubmitOp(id) => Fails(env, s, id)
    case TickOp =>
      var s1 := if IdleExpired(env.cfg, s.buffer, env.now) then Flush(env, s) else s;
      !s1.raised && SomeRetryFails(env, s1, QueuedIds(s1.tables))
    case RecoverOp => SomeSubmissionFails(env, s, QueuedIds(s.tables))
    case _ => false
  }

  /** Has a submission failed since the process started? */
  ghost predicate FailedSinceBoot(states: seq<State>, steps: seq<Step>, n: nat)
    requires n <= |steps| <= |states|
  {
    n > 0 && steps[n - 1].Call?
    && (CallFails(steps[n - 1].env, states[n - 1], steps[n - 1].op) || FailedSinceBoot(states, steps, n - 1))
  }

  // --- a flush keeps its place even when it fails -----------------------------

  /** Handed over, asked for and pending are as they were. */
  ghost predicate SamePlaces(s: State, s1: State) {
    && HandedOver(s1.journal) == HandedOver(s.journal) && AskedFor(s1.journal) == AskedFor(s.journal)
    && s1.buffer == s.buffer && Stalled(s1.journal) == Stalled(s.journal)
  }

  lemma EmitSamePlaces(s: State, e: Event)
    requires !e.Planned? && !e.Booted? && !e.Settled? && !e.Marked?
    ensures SamePlaces(s, Emit(s, e))
  {
    Appended(s.journal, e);
    assert HandedOver(s.journal) + [] == HandedOver(s.journal);
    assert AskedFor(s.journal) + [] == AskedFor(s.journal);
  }

  lemma {:induction false} SettleSamePlaces(s: State, labels: seq<PendingLabel>, ok: bool, strip: bool)
    ensures SamePlaces(s, SettleAll(s, labels, ok, strip))
    decreases |labels|
  {
    if labels != [] && !s.raised {
      var pl := labels[0];
      if pl.job in s.acc && ok {
        var a := s.acc[pl.job].(done := Bump(s.acc[pl.job].done, pl.index));
        EmitSamePlaces(s.(acc := s.acc[pl.job := a]), Committed(pl.job, pl.index));
      }
      SettleSamePlaces(SettleOne(s, pl, ok, strip), labels[1..], ok, strip);
    }
  }

  lemma PlacesKeepOrder(s: State, s1: State)
    requires SamePlaces(s, s1) && Ordered(s)
    ensures Ordered(s1)
  {
  }

  lemma FlushOrdered(env: Env, s: State)
    requires Ordered(s) && !s.raised
    ensures Ordered(Flush(env, s))
  {
    hide Moved, Ordered, SendFrom, SettleAll, FinalizeEach, StallEach;
    FlushMoves(env, s);
    MovedKeepsOrder(s, Flush(env, s));
    if Flush(env, s).raised {
      var labels, s0 := s.buffer.pending, s.(buffer := EMPTY_BUFFER);
      var r := Send(env, s0, labels, true);
      SendMoves(env, s0, labels, true);
      HandedOverInOrder(s, r.0);
      StallMoves(r.0, JobIds(labels), env.now);
      SettleSamePlaces(r.0, labels, r.1.ok, true);
      FinalizeMoves(SettleAll(r.0, labels, r.1.ok, true), JobIds(labels));
      PlacesKeepOrder(r.0, SettleAll(r.0, labels, r.1.ok, true));
    }
  }

  lemma HandedOverInOrder(s: State, s1: State)
    requires Moved(s.(buffer := EMPTY_BUFFER), s1, s.buffer.pending) && Ordered(s) && !s1.raised && s1.buffer == EMPTY_BUFFER
    ensures Ordered(s1)
  {
    assert HandedOver(s1.journal) + [] == HandedOver(s1.journal);
    assert HandedOver(s.journal) + [] == HandedOver(s.journal);
  }

  // --- every call -------------------------------------------------------------

  lemma SubmitOrdered(env: Env, s: State, id: JobId)
    requires Ordered(s) && !s.raised && !Fails(env, s, id)
    ensures Ordered(Submit(env, s, id))
  {
    hide Ordered, Submit;
    SubmitOrder(env, s, id);
    if id !in s.tables.jobs {
      SubmitCases(env, s, id);
      OrderIgnores(s, s.(raised := true));
    }
  }

  lemma OrderIgnores(s: State, s1: State)
    requires s1.journal == s.journal && s1.buffer == s.buffer && Ordered(s)
    ensures Ordered(s1)
  {
  }

  lemma {:induction false} SubmitEachOrdered(env: Env, s: State, ids: seq<JobId>)
    requires Ordered(s) && !s.raised && !SomeSubmissionFails(env, s, ids)
    ensures Ordered(SubmitEach(env, s, ids))
    decreases |ids|
  {
    if ids != [] {
      hide Ordered, Submit;
      SubmitOrdered(env, s, ids[0]);
      OrderIgnores(Submit(env, s, ids[0]), Submit(env, s, ids[0]).(raised := false));
      SubmitEachOrdered(env, Submit(env, s, ids[0]).(raised := false), ids[1..]);
    }
  }

  lemma {:induction false} RetryEachOrdered(env: Env, s: State, ids: seq<JobId>)
    requires Ordered(s) && !s.raised && !SomeRetryFails(env, s, ids)
    ensures Ordered(RetryEach(env, s, ids))
    decreases |ids|
  {
    if ids != [] {
      hide Ordered, Submit;
      if Due(env, s, ids[0]) {
        var s0 := s.(stalled := s.stalled[ids[0] := env.now]);
        OrderIgnores(s, s0);
        SubmitOrdered(env, s0, ids[0]);
        OrderIgnores(Submit(env, s0, ids[0]), Submit(env, s0, ids[0]).(raised := false));
        RetryEachOrdered(env, Submit(env, s0, ids[0]).(raised := false), ids[1..]);
      } else {
        RetryEachOrdered(env, s, ids[1..]);
      }
    }
  }

  lemma OnMessageOrdered(env: Env, s: State, d: Delivery, fault: IntakeFault)
    requires Ordered(s)
    ensures Ordered(OnMessage(env, s, d, fault))
  {
    hide FindKey, Apply, DuplicateReply, Ordered;
    if d.job.None? {
      EmitOrdered(s, Published(MALFORMED));
      EmitOrdered(Emit(s, Published(MALFORMED)), Acked(d));
    } else if fault != PurgeFails {
      var purged := DedupePurged(env.now - env.cfg.dedupeTtl);
      EmitOrdered(s, purged);
      var s1 := Emit(s, purged);
      var row := FindKey(s1.tables, s1.tables.order, d.job.value.key);
      var e := if row.Some? then Published(DuplicateReply(s1.tables, row.value, d.job.value)) else Inserted(d.job.value);
      EmitOrdered(s1, e);
      EmitOrdered(Emit(s1, e), Acked(d));
    }
  }

  lemma EmitOrdered(s: State, e: Event)
    requires Ordered(s) && !e.Planned? && !e.Booted? && !e.Settled? && !e.Marked?
    ensures Ordered(Emit(s, e))
  {
    EmitSamePlaces(s, e);
    PlacesKeepOrder(s, Emit(s, e));
  }

  lemma CallOrdered(env: Env, s: State, op: Op)
    requires Ordered(s) && !s.raised && !CallFails(env, s, op)
    ensures Ordered(Do(env, s, op))
  {
    hide Ordered, Submit, Flush, SubmitEach, RetryEach, OnMessage, QueuedIn, SomeRetryFails, SomeSubmissionFails, Fails;
    match op
    case SubmitOp(id) => SubmitOrdered(env, s, id);
    case FlushOp => FlushOrdered(env, s);
    case TickOp =>
      FlushOrdered(env, s);
      var s1 := if IdleExpired(env.cfg, s.buffer, env.now) then Flush(env, s) else s;
      if !s1.raised {
        RetryEachOrdered(env, s1, QueuedIds(s1.tables));
      }
    case RecoverOp => SubmitEachOrdered(env, s, QueuedIds(s.tables));
    case MessageOp(d, fault) => OnMessageOrdered(env, s, d, fault);
  }

  lemma RebootOrdered(h: seq<Event>)
    ensures Ordered(Reboot(h))
  {
    Appended(h, Booted);
  }

  lemma {:induction false} RunsAreUnraised(states: seq<State>, steps: seq<Step>, n: nat)
    requires AnyRun(states, steps) && n < |states|
    ensures !states[n].raised
  {
    hide Do;
    if n > 0 {
      assert Leads(states[n - 1], steps[n - 1], states[n]);
    }
  }

  /** Tape order is submission order: in every state of every run, however the agent is called,
      unless since the process started a job was sent back to the queue or a submission failed
      part-way, the copies handed to `_send` followed by the pending strip are the copies of
      the jobs taken on, label by label, in order: none is dropped, duplicated, reordered or
      interleaved, whether jobs print discretely or in strips. */
  lemma {:induction false} TapeOrderIsSubmissionOrder(states: seq<State>, steps: seq<Step>, n: nat)
    requires AnyRun(states, steps) && n < |states|
    ensures FailedSinceBoot(states, steps, n) || Stalled(states[n].journal) ||
            HandedOver(states[n].journal) + states[n].buffer.pending == AskedFor(states[n].journal)
  {
    hide CallFails, Do, Reboot;
    if n == 0 {
      RebootOrdered([]);
    } else {
      TapeOrderIsSubmissionOrder(states, steps, n - 1);
      RunsAreUnraised(states, steps, n - 1);
      assert Leads(states[n - 1], steps[n - 1], states[n]);
      var done := Do(steps[n - 1].env, states[n - 1], steps[n - 1].op);
      if steps[n - 1].Crash? {
        RebootOrdered(done.journal[..steps[n - 1].kept]);
      } else if !FailedSinceBoot(states, steps, n) {
        CallOrdered(steps[n - 1].env, states[n - 1], steps[n - 1].op);
      }
    }
  }
}
