/** What a stored result says of the labels its job's plan did not print, over every run. */
module Reports {
  import opened Basics
  import opened Contract
  import opened Spool
  import opened PrintLoop
  import opened History
  import opened PrintLoopSteps
  import opened EveryRun

  /** The result has one line for each decision of the plan, those not to print reported as
      they were decided, and is "completed" exactly when no line failed. */
  ghost predicate ReportsPlan(plan: seq<Decision>, r: JobResult) {
    && |r.labels| == |plan|
    && (forall i :: 0 <= i < |plan| && !plan[i].Print? ==> r.labels[i] == RenderState(i, plan[i]))
    && (r.state == Completed <==> forall i :: 0 <= i < |r.labels| ==> r.labels[i].state != Failed)
  }

  /** Is this no result, a refusal, or a report on the job's latest plan? */
  ghost predicate Reported(h: seq<Event>, e: Event) {
    e.Finished? && e.result.state != Rejected ==> ReportsPlan(PlanOf(h, e.id), e.result)
  }

  ghost predicate AllReported(h: seq<Event>) {
    h == [] || (AllReported(Prev(h)) && Reported(Prev(h), Last(h)))
  }

  /** The tally carries the decisions of the job's latest plan. */
  ghost predicate Carries(h: seq<Event>, a: JobAcc, id: JobId) {
    a.renderStates == StatesByLabel(PlanOf(h, id)) && |a.job.labels| == |PlanOf(h, id)|
  }

  ghost predicate Honest(s: State) {
    AllReported(s.journal) && forall id :: id in s.acc ==> Carries(s.journal, s.acc[id], id)
  }

  // --- small steps ------------------------------------------------------------

  /** Does s1 have the tallies of s, less some, with only their counts changed? */
  ghost predicate SamePlans(s: State, s1: State) {
    forall id :: id in s1.acc ==>
      id in s.acc && s1.acc[id].job == s.acc[id].job && s1.acc[id].renderStates == s.acc[id].renderStates
  }

  lemma Recounted(s: State, s1: State)
    requires Honest(s) && s1.journal == s.journal && SamePlans(s, s1)
    ensures Honest(s1)
  {
  }

  lemma EmitHonest(s: State, e: Event)
    requires Honest(s) && !e.Planned? && Reported(s.journal, e)
    ensures Honest(Emit(s, e))
  {
    hide StatesByLabel;
    Appended(s.journal, e);
    forall id ensures PlanOf(s.journal + [e], id) == PlanOf(s.journal, id) {
    }
  }

  lemma {:induction false} AttemptsHonest(env: Env, s: State, copies: seq<PendingLabel>, strip: bool, attempt: nat)
    requires Honest(s)
    ensures Honest(SendFrom(env, s, copies, strip, attempt).0)
    decreases env.cfg.maxAttempts - attempt
  {
    hide Honest;
    if attempt < env.cfg.maxAttempts {
      var e := Tried(copies, strip, env.link(|s.journal|));
      EmitHonest(s, e);
      AttemptsHonest(env, Emit(s, e), copies, strip, attempt + 1);
    }
  }

  lemma SendHonest(env: Env, s: State, copies: seq<PendingLabel>, strip: bool)
    requires Honest(s)
    ensures Honest(Send(env, s, copies, strip).0)
  {
    hide Honest, SendFrom;
    AttemptsHonest(env, s, copies, strip, 0);
    var r := SendFrom(env, s, copies, strip, 0);
    EmitHonest(r.0, Settled(copies, strip, r.1.ok, r.1.wrote));
  }

  lemma SettleOneHonest(s: State, pl: PendingLabel, ok: bool, strip: bool)
    requires Honest(s)
    ensures Honest(SettleOne(s, pl, ok, strip))
  {
    hide Honest;
    if pl.job !in s.acc {
      Recounted(s, s.(raised := true));
    } else if ok {
      var a := s.acc[pl.job].(done := Bump(s.acc[pl.job].done, pl.index));
      var s1 := s.(acc := s.acc[pl.job := a]);
      Recounted(s, s1);
      EmitHonest(s1, Committed(pl.job, pl.index));
    } else {
      Recounted(s, Fail(s, pl, strip));
    }
  }

  lemma {:induction false} SettleAllHonest(s: State, labels: seq<PendingLabel>, ok: bool, strip: bool)
    requires Honest(s)
    ensures Honest(SettleAll(s, labels, ok, strip))
    decreases |labels|
  {
    hide Honest, SettleOne;
    if labels != [] && !s.raised {
      SettleOneHonest(s, labels[0], ok, strip);
      SettleAllHonest(SettleOne(s, labels[0], ok, strip), labels[1..], ok, strip);
    }
  }

  // --- results ----------------------------------------------------------------

  lemma ResultReports(h: seq<Event>, a: JobAcc, id: JobId)
    requires Carries(h, a, id)
    ensures ReportsPlan(PlanOf(h, id), ResultOf(a)) && ResultOf(a).state != Rejected
  {
    hide PlanOf;
    var plan, r := PlanOf(h, id), ResultOf(a);
    forall i | 0 <= i < |plan| && !plan[i].Print? ensures r.labels[i] == RenderState(i, plan[i]) {
      assert i in a.renderStates;
    }
    assert forall i :: 0 <= i < |r.labels| ==> r.labels[i] == Entry(a, i);
  }

  lemma ConcludeHonest(s: State, id: JobId, r: JobResult)
    requires Honest(s) && Reported(s.journal, Finished(id, r))
    ensures Honest(Conclude(s, id, r))
  {
    hide Honest;
    EmitHonest(s, Finished(id, r));
    EmitHonest(Emit(s, Finished(id, r)), Published(r));
  }

  lemma FinalizeHonest(s: State, id: JobId)
    requires Honest(s)
    ensures Honest(Finalize(s, id))
  {
    hide Conclude, ResultOf, ReportsPlan;
    if id in s.acc {
      Recounted(s, s.(acc := s.acc - {id}));
      ResultReports(s.journal, s.acc[id], id);
      ConcludeHonest(s.(acc := s.acc - {id}), id, ResultOf(s.acc[id]));
    } else {
      Recounted(s, s.(raised := true));
    }
  }

  lemma {:induction false} FinalizeEachHonest(s: State, ids: seq<JobId>)
    requires Honest(s)
    ensures Honest(FinalizeEach(s, ids))
    decreases |ids|
  {
    hide Honest, Finalize, Complete;
    if ids != [] {
      FinalizeHonest(s, ids[0]);
      FinalizeEachHonest(MaybeFinalize(s, ids[0]), ids[1..]);
    }
  }

  lemma {:induction false} StallEachHonest(s: State, ids: seq<JobId>, now: real)
    requires Honest(s)
    ensures Honest(StallEach(s, ids, now))
    decreases |ids|
  {
    hide Honest;
    if ids != [] {
      EmitHonest(s, Marked(ids[0], Queued));
      Recounted(Emit(s, Marked(ids[0], Queued)), StallOne(s, ids[0], now));
      StallEachHonest(StallOne(s, ids[0], now), ids[1..], now);
    }
  }

  // --- printing ---------------------------------------------------------------

  lemma PrintStripHonest(env: Env, s: State, labels: seq<PendingLabel>)
    requires Honest(s)
    ensures Honest(PrintStrip(env, s, labels))
  {
    hide Honest, Send, SettleAll, FinalizeEach, StallEach, JobIds;
    SendHonest(env, s, labels, true);
    var r := Send(env, s, labels, true);
    if !r.1.ok && !r.1.wrote {
      StallEachHonest(r.0, JobIds(labels), env.now);
    } else {
      SettleAllHonest(r.0, labels, r.1.ok, true);
      FinalizeEachHonest(SettleAll(r.0, labels, r.1.ok, true), JobIds(labels));
    }
  }

  lemma FlushHonest(env: Env, s: State)
    requires Honest(s)
    ensures Honest(Flush(env, s))
  {
    hide Honest, PrintStrip;
    Recounted(s, s.(buffer := EMPTY_BUFFER));
    PrintStripHonest(env, s.(buffer := EMPTY_BUFFER), s.buffer.pending);
  }

  lemma {:induction false} RunDiscreteHonest(env: Env, s: State, id: JobId, todo: seq<PendingLabel>)
    requires Honest(s)
    ensures Honest(RunDiscrete(env, s, id, todo))
    decreases |todo|
  {
    hide Honest, Send, SettleOne, StallEach, Finalize, Complete;
    if !s.raised {
      if todo == [] {
        FinalizeHonest(s, id);
      } else {
        SendHonest(env, s, [todo[0]], false);
        var r := Send(env, s, [todo[0]], false);
        StallEachHonest(r.0, [id], env.now);
        SettleOneHonest(r.0, todo[0], r.1.ok, false);
        RunDiscreteHonest(env, SettleOne(r.0, todo[0], r.1.ok, false), id, todo[1..]);
      }
    }
  }

  lemma JoinHonest(s: State, b: Buffer)
    requires Honest(s)
    ensures Honest(s.(buffer := b))
  {
  }

  lemma {:induction false} AddAllHonest(env: Env, s: State, todo: seq<PendingLabel>)
    requires Honest(s)
    ensures Honest(AddAll(env, s, todo))
    decreases |todo|
  {
    hide Honest, Flush, IsFull;
    if todo != [] && !s.raised {
      FlushHonest(env, s);
      var s1 := if Accepts(s.buffer, env.cfg.tapeWidth) then s else Flush(env, s);
      var b := AddTo(s1.buffer, todo[0], env.cfg.tapeWidth, env.now);
      JoinHonest(s1, b);
      FlushHonest(env, s1.(buffer := b));
      AddAllHonest(env, AddOne(env, s, todo[0]), todo[1..]);
    }
  }

  lemma BufferCopiesHonest(env: Env, s: State, id: JobId, todo: seq<PendingLabel>, flush: bool)
    requires Honest(s)
    ensures Honest(BufferCopies(env, s, id, todo, flush))
  {
    hide Honest, Flush, AddAll, Finalize, Complete;
    AddAllHonest(env, s, todo);
    var s1 := AddAll(env, s, todo);
    FlushHonest(env, s1);
    FinalizeHonest(if flush && !s1.raised then Flush(env, s1) else s1, id);
  }

  // --- taking jobs on ---------------------------------------------------------

  lemma {:induction false} PlanHonest(env: Env, s: State, job: PrintJob, already: set<nat>, n: nat)
    requires Honest(s) && n <= |job.labels|
    ensures var s1 := PlanLabels(env, s, job, already, n).0; Honest(s1) && s1.acc == s.acc
  {
    hide Honest;
    if n > 0 {
      PlanHonest(env, s, job, already, n - 1);
      var s1 := PlanLabels(env, s, job, already, n - 1).0;
      var key := DedupeKey(env.cfg, job.labels[n - 1]);
      if key.Some? {
        EmitHonest(s1, DedupeRecorded(key.value, job.id, env.now));
      }
    }
  }

  /** A plan replaces the job's last one, in the journal and in its tally. */
  lemma PlannedHonest(s: State, id: JobId, job: PrintJob, plan: seq<Decision>)
    requires Honest(s) && |plan| == |job.labels|
    ensures Honest(Emit(s, Planned(id, plan)).(acc := s.acc[id := FreshAcc(job, plan)]))
  {
    Appended(s.journal, Planned(id, plan));
  }

  lemma PrepareHonest(env: Env, s: State, id: JobId)
    requires id in s.tables.jobs && Honest(s)
    ensures Honest(Prepare(env, s, id).0)
  {
    hide Honest, PlanLabels, FreshAcc;
    var job := s.tables.jobs[id].job;
    var s1 := Emit(s, Marked(id, Printing));
    EmitHonest(s, Marked(id, Printing));
    PlanHonest(env, s1, job, PrintedLabels(s1.tables, id), |job.labels|);
    var r := PlanLabels(env, s1, job, PrintedLabels(s1.tables, id), |job.labels|);
    PlannedHonest(r.0, id, job, r.1);
  }

  lemma SubmitHonest(env: Env, s: State, id: JobId)
    requires Honest(s)
    ensures Honest(Submit(env, s, id))
  {
    hide Honest, Prepare, Conclude, Finalize, Flush, RunDiscrete, BufferCopies, Expand, Total;
    Recounted(s, s.(raised := true));
    if id in s.tables.jobs {
      var job := s.tables.jobs[id].job;
      if WrongModel(job) {
        ConcludeHonest(s, id, Rejection(job));
      } else {
        PrepareHonest(env, s, id);
        var r := Prepare(env, s, id);
        FinalizeHonest(r.0, id);
        FlushHonest(env, r.0);
        RunDiscreteHonest(env, Flush(env, r.0), id, Expand(id, r.1));
        BufferCopiesHonest(env, r.0, id, Expand(id, r.1), job.flush || AsStrip(env.cfg, job));
      }
    }
  }

  lemma LoweredHonest(s: State, raised: bool)
    requires Honest(s)
    ensures Honest(s.(raised := raised))
  {
  }

  lemma {:induction false} SubmitEachHonest(env: Env, s: State, ids: seq<JobId>)
    requires Honest(s)
    ensures Honest(SubmitEach(env, s, ids))
    decreases |ids|
  {
    hide Honest, Submit;
    if ids != [] {
      SubmitHonest(env, s, ids[0]);
      LoweredHonest(Submit(env, s, ids[0]), false);
      SubmitEachHonest(env, Submit(env, s, ids[0]).(raised := false), ids[1..]);
    }
  }

  lemma StampedHonest(s: State, stalled: map<JobId, real>)
    requires Honest(s)
    ensures Honest(s.(stalled := stalled))
  {
  }

  lemma {:induction false} RetryEachHonest(env: Env, s: State, ids: seq<JobId>)
    requires Honest(s)
    ensures Honest(RetryEach(env, s, ids))
    decreases |ids|
  {
    hide Honest, Submit;
    if ids != [] {
      var s0 := s.(stalled := s.stalled[ids[0] := env.now]);
      StampedHonest(s, s0.stalled);
      SubmitHonest(env, s0, ids[0]);
      LoweredHonest(Submit(env, s0, ids[0]), false);
      RetryEachHonest(env, if Due(env, s, ids[0]) then Submit(env, s0, ids[0]).(raised := false) else s, ids[1..]);
    }
  }

  lemma OnMessageHonest(env: Env, s: State, d: Delivery, fault: IntakeFault)
    requires Honest(s)
    ensures Honest(OnMessage(env, s, d, fault))
  {
    hide Honest, FindKey, Apply, DuplicateReply;
    if d.job.None? {
      EmitHonest(s, Published(MALFORMED));
      EmitHonest(Emit(s, Published(MALFORMED)), Acked(d));
    } else if fault != PurgeFails {
      var purged := DedupePurged(env.now - env.cfg.dedupeTtl);
      var s1 := Emit(s, purged);
      EmitHonest(s, purged);
      var row := FindKey(s1.tables, s1.tables.order, d.job.value.key);
      var e := if row.Some? then Published(DuplicateReply(s1.tables, row.value, d.job.value)) else Inserted(d.job.value);
      EmitHonest(s1, e);
      EmitHonest(Emit(s1, e), Acked(d));
    }
  }

  // --- over every run ---------------------------------------------------------

  lemma CallHonest(env: Env, s: State, op: Op)
    requires Honest(s)
    ensures Honest(Do(env, s, op))
  {
    hide Honest, Submit, Flush, SubmitEach, RetryEach, OnMessage, QueuedIn;
    match op
    case SubmitOp(id) => SubmitHonest(env, s, id);
    case FlushOp => FlushHonest(env, s);
    case TickOp =>
      FlushHonest(env, s);
      var s1 := if IdleExpired(env.cfg, s.buffer, env.now) then Flush(env, s) else s;
      RetryEachHonest(env, s1, QueuedIds(s1.tables));
    case RecoverOp => SubmitEachHonest(env, s, QueuedIds(s.tables));
    case MessageOp(d, fault) => OnMessageHonest(env, s, d, fault);
  }

  lemma {:induction false} ReportedAt(h: seq<Event>, k: nat)
    requires AllReported(h) && k <= |h|
    ensures AllReported(h[..k]) && (k < |h| ==> Reported(h[..k], h[k]))
  {
    hide Reported;
    if k < |h| {
      assert Prev(h)[..k] == h[..k];
      if k < |h| - 1 {
        ReportedAt(Prev(h), k);
      }
    } else {
      assert h[..k] == h;
    }
  }

  lemma RebootHonest(h: seq<Event>)
    requires AllReported(h)
    ensures Honest(Reboot(h))
  {
    Appended(h, Booted);
  }

  lemma StepHonest(s: State, step: Step, s1: State)
    requires Honest(s) && Leads(s, step, s1)
    ensures Honest(s1)
  {
    hide Do, Reboot;
    var done := Do(step.env, s, step.op);
    CallHonest(step.env, s, step.op);
    if step.Crash? {
      ReportedAt(done.journal, step.kept);
      RebootHonest(done.journal[..step.kept]);
    } else {
      LoweredHonest(done, false);
    }
  }

  lemma {:induction false} AnyRunHonest(states: seq<State>, steps: seq<Step>, n: nat)
    requires AnyRun(states, steps) && n < |states|
    ensures Honest(states[n])
  {
    hide Honest, Leads, Reboot;
    if n == 0 {
      RebootHonest([]);
    } else {
      AnyRunHonest(states, steps, n - 1);
      StepHonest(states[n - 1], steps[n - 1], states[n]);
    }
  }

  /** Over every run, however the agent is called: a label its job's latest plan did not print
      is reported as it was decided, with no copies; and a job is reported as completed exactly
      when none of its lines failed. */
  lemma DecisionsAreReported(states: seq<State>, steps: seq<Step>, n: nat, p: nat)
    requires AnyRun(states, steps) && n < |states|
    requires p < |states[n].journal| && states[n].journal[p].Finished? && states[n].journal[p].result.state != Rejected
    ensures ReportsPlan(PlanOf(states[n].journal[..p], states[n].journal[p].id), states[n].journal[p].result)
  {
    hide AnyRun, ReportsPlan;
    AnyRunHonest(states, steps, n);
    ReportedAt(states[n].journal, p);
  }
}
