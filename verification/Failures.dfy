/** Properties one would expect of the print loop, each failing on one small run. */
module Failures {
  import opened Basics
  import opened Contract
  import opened Spool
  import opened PrintLoop
  import opened History
  import opened PrintLoopInvariant
  import opened PrintLoopSteps
  import opened PrintLoopJournal
  import opened PrintLoopLimits
  import opened EveryRun
  import opened PrintLoopRuns
  import opened StaleRetry
  import opened Balance

  const PIXEL: Image := Image(1, 1, [[0]])

  /** The settings the agent comes with, and three attempts a frame. */
  function Settings(): Config {
    Config("d30-workshop", 15.0, Continuous, true, 30.0, 300.0, 24, 2.0, 3, 15.0, 604800.0, spec => Some(PIXEL))
  }

  /** Every attempt ends the same way. */
  function At(now: real, o: Attempt): Env {
    Env(Settings(), n => o, now)
  }

  const AWAY: Attempt := ConnectFailed(false)
  const BREAKS: Attempt := PrintFailed(false)

  function OneLabel(id: JobId, flush: bool, copies: nat): PrintJob {
    PrintJob(id, id, None, Strip, flush, [LabelSpec("label", copies, None)])
  }

  function Message(job: PrintJob): Op {
    MessageOp(Delivery(1, Some(job)), NoFault)
  }

  /** Nothing of this one-label job is committed. */
  ghost predicate Unprinted(s: State, id: JobId, flush: bool, copies: nat) {
    id in s.tables.jobs && s.tables.jobs[id].job == OneLabel(id, flush, copies) && (id, 0) !in s.tables.printed
  }

  lemma PlannedWhole(env: Env, s: State, id: JobId, flush: bool, copies: nat)
    requires env.cfg == Settings() && Unprinted(s, id, flush, copies)
    ensures var r := Prepare(env, s, id);
            && r.1 == [Print(copies, PIXEL)]
            && Expand(id, r.1) == Repeat(PendingLabel(id, 0, PIXEL), copies)
            && CopiesOf(env.cfg, env.now, s, id) == Expand(id, r.1)
  {
    hide Prepare, Repeat;
    var m := PreparedEntry(env, s, id, 0);
    assert 0 !in PrintedLabels(s.tables, id);
    var r := Prepare(env, s, id);
    assert r.1 == [Print(copies, PIXEL)];
    assert r.1[..0] == [];
    PrepareIgnoresLink(env, Env(env.cfg, DeadLink, env.now), s, id);
  }

  /** A label without a dedupe key leaves no record, so planning changes little. */
  lemma PlannedTables(env: Env, s: State, id: JobId, flush: bool, copies: nat)
    requires env.cfg == Settings() && Unprinted(s, id, flush, copies)
    ensures var r := Prepare(env, s, id);
            && r.0.buffer == s.buffer && r.0.stalled == s.stalled && r.0.raised == s.raised
            && r.0.acc == s.acc[id := FreshAcc(OneLabel(id, flush, copies), [Print(copies, PIXEL)])]
            && r.0.tables == s.tables.(jobs := s.tables.jobs[id := s.tables.jobs[id].(state := Printing)])
  {
    var marked, job := Emit(s, Marked(id, Printing)), OneLabel(id, flush, copies);
    var already := PrintedLabels(marked.tables, id);
    assert 0 !in already;
    assert PlanLabels(env, marked, job, already, 0) == (marked, []);
    assert Decide(env, marked, job, already, 0) == (marked, Print(copies, PIXEL));
    assert PlanLabels(env, marked, job, already, 1).0 == marked;
    assert PlanLabels(env, marked, job, already, 1).1 == [Print(copies, PIXEL)];
  }

  // --- a label of more copies than a strip holds ------------------------------

  /** The state after one delivery to an empty spool. */
  function AfterFirst(job: PrintJob): State {
    OnMessage(At(100.0, AWAY), Reboot([]), Delivery(1, Some(job)), NoFault)
  }

  lemma FirstDelivery(job: PrintJob)
    requires ValidJob(job)
    ensures var s := AfterFirst(job);
            && s.tables == Tables(map[job.id := Row(job, Queued, None)], [job.id], map[], {})
            && s.acc == map[] && s.stalled == map[] && s.buffer == EMPTY_BUFFER && !s.raised
            && Inv(s, [])
  {
    hide Inv;
    var s0, env, d := Reboot([]), At(100.0, AWAY), Delivery(1, Some(job));
    assert Replay([]) == NO_TABLES;
    assert ([] + [Booted])[..0] == [];
    assert s0.tables == NO_TABLES;
    var s1 := Emit(s0, DedupePurged(env.now - env.cfg.dedupeTtl));
    assert s1.tables.dedupe == map[];
    assert s1.tables == NO_TABLES;
    RebootKeeps([]);
    OnMessageKeeps(env, s0, d, NoFault);
  }

  /** One label of 25 copies with the default limit of 24 to a strip: there is a link on which
      submitting it, as the first job ever, loses track of copies. */
  lemma TwentyFiveCopiesAreTooMany()
    ensures exists link: nat -> Attempt ::
              !Even(Submit(Env(Settings(), link, 100.0), AfterFirst(OneLabel("a", false, 25)), "a"), [])
  {
    hide Inv, Even, Submit, Prepare, QueuedIn, AfterFirst;
    var s := AfterFirst(OneLabel("a", false, 25));
    FirstDelivery(OneLabel("a", false, 25));
    InvIsEven(s);
    PlannedWhole(At(100.0, AWAY), s, "a", false, 25);
    var copies := CopiesOf(Settings(), 100.0, s, "a");
    assert |s.buffer.pending + copies[..24]| == 24;
    assert IsFull(Settings(), s.buffer.pending + copies[..24]);
    EvenForEveryLinkIff(Settings(), 100.0, s, "a");
  }

  // --- a list of queued jobs gone stale ---------------------------------------

  function JobA(): PrintJob { OneLabel("a", true, 1) }

  function JobB(): PrintJob { OneLabel("b", false, 1) }

  function S1(): State { Do(At(100.0, AWAY), Reboot([]), Message(JobA())) }

  function S2(): State { Do(At(100.0, AWAY), S1(), SubmitOp("a")) }

  function S3(): State { Do(At(110.0, AWAY), S2(), Message(JobB())) }

  function S4(): State { Do(At(110.0, AWAY), S3(), SubmitOp("b")) }

  /** Job a is submitted while the printer is away, and stalls; job b comes in and waits in the
      strip; at 120 seconds a is due again. */
  function Story(): (seq<State>, seq<Step>) {
    ([Reboot([]), S1(), S2(), S3(), S4()],
     [Call(At(100.0, AWAY), Message(JobA())), Call(At(100.0, AWAY), SubmitOp("a")),
      Call(At(110.0, AWAY), Message(JobB())), Call(At(110.0, AWAY), SubmitOp("b"))])
  }

  function Copy(id: JobId): PendingLabel {
    PendingLabel(id, 0, PIXEL)
  }

  lemma OneCopyIsNotFull(id: JobId)
    ensures !IsFull(Settings(), [Copy(id)]) && JobIds([Copy(id)]) == [id]
  {
    assert [Copy(id)][..0] == [];
    assert PixelSum([]) == 0;
    assert PixelSum([Copy(id)]) == 1;
  }

  lemma StrippedAway(env: Env, s: State, id: JobId)
    requires env.cfg == Settings() && (forall n :: env.link(n) == AWAY) && !s.raised
    requires s.buffer.pending == [Copy(id)] && id in s.acc && id in s.tables.jobs
    ensures var s1 := Flush(env, s);
            && s1.tables == s.tables.(jobs := s.tables.jobs[id := s.tables.jobs[id].(state := Queued)])
            && s1.acc == s.acc - {id} && s1.stalled == s.stalled[id := env.now]
            && s1.buffer == EMPTY_BUFFER && !s1.raised
  {
    OneCopyIsNotFull(id);
    var labels, s0 := [Copy(id)], s.(buffer := EMPTY_BUFFER);
    var o := env.link(|s0.journal|);
    assert o == AWAY;
    assert SendFrom(env, s0, labels, true, 0) == (Emit(s0, Tried(labels, true, AWAY)), PrintLoop.Sent(false, false));
    var s1 := Send(env, s0, labels, true).0;
    assert [id][1..] == [];
    assert StallEach(s1, [id], env.now) == StallOne(s1, id, env.now);
    assert Flush(env, s) == StallOne(s1, id, env.now);
  }

  /** A job with `flush` and one copy, submitted while the printer is away. */
  lemma StalledAtOnce(env: Env, s: State, id: JobId)
    requires env.cfg == Settings() && (forall n :: env.link(n) == AWAY) && !s.raised && s.buffer == EMPTY_BUFFER
    requires Unprinted(s, id, true, 1)
    ensures var s1 := Submit(env, s, id);
            && s1.tables == s.tables.(jobs := s.tables.jobs[id := s.tables.jobs[id].(state := Queued)])
            && s1.acc == s.acc - {id} && s1.stalled == s.stalled[id := env.now]
            && s1.buffer == EMPTY_BUFFER && !s1.raised
    ensures LinkHolds(env, s, id)
  {
    hide Prepare, Flush;
    PlannedWhole(env, s, id, true, 1);
    PlannedTables(env, s, id, true, 1);
    var r := Prepare(env, s, id);
    var c := Copy(id);
    assert Repeat(c, 1) == [c];
    OneCopyIsNotFull(id);
    var s1 := r.0.(buffer := AddTo(r.0.buffer, c, env.cfg.tapeWidth, env.now));
    assert s1.buffer.pending == [c];
    assert AddAll(env, r.0, [c]) == s1 by {
      assert [c][1..] == [];
      assert AddOne(env, r.0, c) == s1;
    }
    StrippedAway(env, s1, id);
    var s2 := Flush(env, s1);
    assert s.acc[id := r.0.acc[id]] - {id} == s.acc - {id};
    assert BufferCopies(env, r.0, id, [c], true) == s2;
    OneIsAsked(id, true);
    assert Submit(env, s, id) == s2;
  }

  lemma OneIsAsked(id: JobId, flush: bool)
    ensures Total(FreshAcc(OneLabel(id, flush, 1), [Print(1, PIXEL)]).expected, 1) == 1
  {
    var a := FreshAcc(OneLabel(id, flush, 1), [Print(1, PIXEL)]);
    assert Get(a.expected, 0) == 1;
    assert Total(a.expected, 0) == 0;
  }

  /** A job with one copy, submitted into an empty strip. */
  lemma WaitsInTheStrip(env: Env, s: State, id: JobId)
    requires env.cfg == Settings() && !s.raised && s.buffer == EMPTY_BUFFER
    requires Unprinted(s, id, false, 1)
    ensures var s1 := Submit(env, s, id);
            && s1.tables == s.tables.(jobs := s.tables.jobs[id := s.tables.jobs[id].(state := Printing)])
            && s1.acc == s.acc[id := FreshAcc(OneLabel(id, false, 1), [Print(1, PIXEL)])] && s1.stalled == s.stalled
            && s1.buffer == Buffer([Copy(id)], Some(env.cfg.tapeWidth), Some(env.now)) && !s1.raised
    ensures LinkHolds(env, s, id)
  {
    hide Prepare, Flush;
    PlannedWhole(env, s, id, false, 1);
    PlannedTables(env, s, id, false, 1);
    var r := Prepare(env, s, id);
    var c := Copy(id);
    assert Repeat(c, 1) == [c];
    OneCopyIsNotFull(id);
    OneIsAsked(id, false);
    var s1 := r.0.(buffer := AddTo(r.0.buffer, c, env.cfg.tapeWidth, env.now));
    assert s1.buffer.pending == [c];
    assert AddAll(env, r.0, [c]) == s1 by {
      assert [c][1..] == [];
      assert AddOne(env, r.0, c) == s1;
    }
    assert !Complete(s1.acc[id]) by {
      assert Total(map[], 0) == 0 && Total(map[], 1) == 0;
    }
    assert Submit(env, s, id) == s1;
  }

  lemma SecondDelivery(env: Env, s: State, job: PrintJob)
    requires env.cfg == Settings() && !s.raised && s.tables.dedupe == map[] && s.tables.order == ["a"]
    requires "a" in s.tables.jobs && s.tables.jobs["a"].job.key != job.key && job.id !in s.tables.jobs
    ensures var s1 := OnMessage(env, s, Delivery(1, Some(job)), NoFault);
            && s1.tables == s.tables.(jobs := s.tables.jobs[job.id := Row(job, Queued, None)], order := ["a", job.id])
            && s1.acc == s.acc && s1.stalled == s.stalled && s1.buffer == s.buffer && !s1.raised
  {
    var s1 := Emit(s, DedupePurged(env.now - env.cfg.dedupeTtl));
    assert s1.tables.dedupe == map[];
    assert s1.tables == s.tables;
    assert ["a"][..0] == [];
    assert FindKey(s1.tables, ["a"], job.key) == None;
  }

  // The flush of job a's second turn breaks off, with job b's copy in front.

  ghost predicate OutOnce(a: JobAcc, id: JobId, flush: bool) {
    && a.job == OneLabel(id, flush, 1) && a.expected == map[0 := 1] && a.done == map[] && a.failed == map[]
    && a.renderStates == map[] && !a.partialTape
  }

  /** The result of a job whose only copy was lost. */
  function AllLost(id: JobId): JobResult {
    JobResult(id, AllFailed, false, true, [LabelResult(0, Failed, 0, StripAborted)])
  }

  lemma LostResult(a: JobAcc, id: JobId, flush: bool)
    requires OutOnce(a, id, flush)
    ensures var lost := a.(failed := Bump(a.failed, 0), partialTape := true);
            Complete(lost) && ResultOf(lost) == AllLost(id)
  {
    var lost := a.(failed := Bump(a.failed, 0), partialTape := true);
    assert Get(lost.failed, 0) == 1 && Get(lost.done, 0) == 0 && Get(lost.expected, 0) == 1;
    assert Total(lost.done, 0) == Total(lost.failed, 0) == Total(lost.expected, 0) == 0;
    assert Total(lost.done, 1) == 0 && Total(lost.failed, 1) == 1 && Total(lost.expected, 1) == 1;
    var r := ResultOf(lost);
    assert Entry(lost, 0) == LabelResult(0, Failed, 0, StripAborted);
    assert r.labels == [LabelResult(0, Failed, 0, StripAborted)];
  }

  function Closed(row: Row, id: JobId): Row {
    row.(state := Terminal(AllFailed), result := Some(AllLost(id)))
  }

  function Lost(a: JobAcc): JobAcc {
    a.(failed := Bump(a.failed, 0), partialTape := true)
  }

  lemma SentAndBroken(env: Env, s: State, labels: seq<PendingLabel>)
    requires env.cfg == Settings() && forall n :: env.link(n) == BREAKS
    ensures var r := Send(env, s, labels, true);
            r.1 == PrintLoop.Sent(false, true) && r.0 == s.(journal := r.0.journal)
  {
    assert env.link(|s.journal|) == BREAKS;
  }

  lemma SettledAsLost(s: State)
    requires !s.raised && s.acc.Keys == {"a", "b"}
    ensures SettleAll(s, [Copy("b"), Copy("a")], false, true)
            == s.(acc := map["b" := Lost(s.acc["b"]), "a" := Lost(s.acc["a"])])
  {
    var b, a := Copy("b"), Copy("a");
    assert [b, a][1..] == [a] && [a][1..] == [];
    var s1 := Fail(s, b, true);
    var s2 := Fail(s1, a, true);
    assert SettleAll(s2, [], false, true) == s2;
    assert SettleAll(s1, [a], false, true) == s2;
    assert s2.acc == map["b" := Lost(s.acc["b"]), "a" := Lost(s.acc["a"])];
  }

  lemma FinishedAsLost(s: State, id: JobId, flush: bool)
    requires id in s.acc && id in s.tables.jobs
    requires exists a :: OutOnce(a, id, flush) && s.acc[id] == Lost(a)
    ensures var s1 := MaybeFinalize(s, id);
            && s1 == s.(journal := s1.journal, tables := s1.tables, acc := s.acc - {id})
            && s1.tables == s.tables.(jobs := s.tables.jobs[id := Closed(s.tables.jobs[id], id)])
  {
    var a :| OutOnce(a, id, flush) && s.acc[id] == Lost(a);
    LostResult(a, id, flush);
  }

  lemma BothBreakOff(env: Env, s: State)
    requires env.cfg == Settings() && (forall n :: env.link(n) == BREAKS) && !s.raised
    requires s.buffer.pending == [Copy("b"), Copy("a")] && s.acc.Keys == {"a", "b"} && {"a", "b"} <= s.tables.jobs.Keys
    requires OutOnce(s.acc["a"], "a", true) && OutOnce(s.acc["b"], "b", false)
    ensures var s1 := Flush(env, s); var rows := s.tables.jobs;
            && s1.acc == map[] && s1.buffer == EMPTY_BUFFER && s1.stalled == s.stalled && !s1.raised
            && s1.tables == s.tables.(jobs := rows["b" := Closed(rows["b"], "b")]["a" := Closed(rows["a"], "a")])
  {
    hide Send, SettleAll, MaybeFinalize, OutOnce;
    var labels, s0 := s.buffer.pending, s.(buffer := EMPTY_BUFFER);
    SentAndBroken(env, s0, labels);
    var s1 := Send(env, s0, labels, true).0;
    SettledAsLost(s1);
    var s2 := SettleAll(s1, labels, false, true);
    FinishedAsLost(s2, "b", false);
    var s3 := MaybeFinalize(s2, "b");
    FinishedAsLost(s3, "a", true);
    InOrder();
    assert ["b", "a"][1..] == ["a"] && ["a"][1..] == [];
    assert FinalizeEach(MaybeFinalize(s3, "a"), []) == MaybeFinalize(s3, "a");
    assert FinalizeEach(s3, ["a"]) == MaybeFinalize(s3, "a");
  }

  lemma InOrder()
    ensures JobIds([Copy("b"), Copy("a")]) == ["b", "a"]
  {
    var both := [Copy("b"), Copy("a")];
    assert both[..1] == [Copy("b")] && both[..1][..0] == [];
    assert JobIds(both[..1]) == ["b"];
  }

  lemma FreshIsOutOnce(id: JobId, flush: bool)
    ensures OutOnce(FreshAcc(OneLabel(id, flush, 1), [Print(1, PIXEL)]), id, flush)
  {
    var a := FreshAcc(OneLabel(id, flush, 1), [Print(1, PIXEL)]);
    assert a.expected == map[0 := 1] && a.renderStates == map[];
  }

  /** Job b waits in the strip, job a in the queue. */
  ghost predicate BWaits(s: State) {
    && !s.raised && s.buffer == Buffer([Copy("b")], Some(Settings().tapeWidth), Some(110.0))
    && s.acc == map["b" := FreshAcc(JobB(), [Print(1, PIXEL)])]
    && s.tables.jobs == map["a" := Row(JobA(), Queued, None), "b" := Row(JobB(), Printing, None)]
    && s.tables.order == ["a", "b"] && s.tables.printed == {}
  }

  lemma JoinsTheStrip(env: Env, s: State) returns (s1: State)
    requires env.cfg == Settings() && BWaits(s)
    ensures Submit(env, s, "a") == BufferCopies(env, Prepare(env, s, "a").0, "a", [Copy("a")], true)
    ensures AddAll(env, Prepare(env, s, "a").0, [Copy("a")]) == s1
    ensures s1.buffer.pending == [Copy("b"), Copy("a")] && !s1.raised && s1.stalled == s.stalled
    ensures s1.acc == s.acc["a" := FreshAcc(JobA(), [Print(1, PIXEL)])]
    ensures s1.tables == s.tables.(jobs := s.tables.jobs["a" := Row(JobA(), Printing, None)])
  {
    hide Prepare, Flush;
    var a := Copy("a");
    PlannedWhole(env, s, "a", true, 1);
    PlannedTables(env, s, "a", true, 1);
    var r := Prepare(env, s, "a");
    assert Repeat(a, 1) == [a];
    OneIsAsked("a", true);
    TwoCopiesAreNotFull();
    s1 := r.0.(buffer := AddTo(r.0.buffer, a, env.cfg.tapeWidth, env.now));
    assert s1.buffer.pending == [Copy("b"), a];
    assert [a][1..] == [];
    assert AddOne(env, r.0, a) == s1;
  }

  lemma FirstTurn(env: Env, s: State)
    requires env.cfg == Settings() && (forall n :: env.link(n) == BREAKS) && BWaits(s)
    ensures var s1 := Submit(env, s, "a");
            && s1.acc == map[] && s1.buffer == EMPTY_BUFFER && s1.stalled == s.stalled && !s1.raised
            && s1.tables.jobs == map["a" := Closed(Row(JobA(), Queued, None), "a"), "b" := Closed(Row(JobB(), Queued, None), "b")]
            && s1.tables.printed == {}
  {
    hide Prepare, Flush, OutOnce, Submit, AddAll, FreshAcc;
    var s1 := JoinsTheStrip(env, s);
    FreshIsOutOnce("a", true);
    FreshIsOutOnce("b", false);
    BothBreakOff(env, s1);
    assert BufferCopies(env, Prepare(env, s, "a").0, "a", [Copy("a")], true) == Flush(env, s1);
  }

  lemma BothTurns(env: Env, s: State)
    requires env.cfg == Settings() && (forall n :: env.link(n) == BREAKS)
    requires BWaits(s) && s.stalled == map["a" := 100.0] && env.now == 120.0
    ensures var s1 := RetryEach(env, s, ["a", "b"]);
            && "b" in s1.tables.jobs && s1.tables.jobs["b"].result == Some(AllLost("b"))
            && "b" in s1.acc && s1.buffer.pending == [Copy("b")] && !s1.raised
  {
    hide Submit, FreshAcc;
    assert ["a", "b"][1..] == ["b"] && ["b"][1..] == [];
    var t := Stamped(s, "a", env.now);
    FirstTurn(env, t);
    var s1 := Submit(env, t, "a");
    var t1 := Stamped(s1, "b", env.now);
    WaitsInTheStrip(env, t1, "b");
    assert RetryEach(env, s1, ["b"]) == Submit(env, t1, "b");
  }

  lemma ListIsStale(s: State)
    requires BWaits(s) && s.stalled == map["a" := 100.0]
    ensures !ListStaysFresh(Settings(), 120.0, s, ["a", "b"])
  {
    hide Submit, FlushesStrip, Prepare, FreshAcc;
    assert ["a", "b"][1..] == ["b"];
    var t := Stamped(s, "a", 120.0);
    PlannedWhole(At(120.0, BREAKS), t, "a", true, 1);
    FlushIsAsked(t);
    assert "b" in ["b"] && "b" in s.acc && DueByStamp(Settings(), 120.0, s, "b");
  }

  lemma TwoCopiesAreNotFull()
    ensures !IsFull(Settings(), [Copy("b"), Copy("a")])
  {
    var both := [Copy("b"), Copy("a")];
    assert both[..1] == [Copy("b")] && [Copy("b")][..0] == [];
    assert PixelSum([]) == 0;
    assert PixelSum([Copy("b")]) == 1;
    assert PixelSum(both) == 2;
  }

  lemma BothQueued(t: Tables)
    requires t.order == ["a", "b"] && Awaiting(t, "a") && Awaiting(t, "b")
    ensures QueuedIds(t) == ["a", "b"]
  {
    var both := ["a", "b"];
    assert both[..1] == ["a"] && both[..1][..0] == [];
    assert QueuedIn(t, []) == [];
    assert QueuedIn(t, ["a"]) == ["a"];
  }

  lemma TakesIn(env: Env, s: State, job: PrintJob)
    requires ValidJob(job) && !OnMessage(env, s, Delivery(1, Some(job)), NoFault).raised
    ensures StepsTo(s, Call(env, Message(job)), Do(env, s, Message(job)))
  {
    hide OnMessage;
  }

  lemma TakesOn(env: Env, s: State, id: JobId)
    requires id in s.tables.order && Awaiting(s.tables, id) && id !in s.acc && LinkHolds(env, s, id)
    requires !Submit(env, s, id).raised
    ensures StepsTo(s, Call(env, SubmitOp(id)), Do(env, s, SubmitOp(id)))
  {
    hide Submit, LinkHolds, QueuedIn;
  }

  /** Job a is back in the queue, and nothing else is there. */
  ghost predicate AStalled(s: State) {
    && !s.raised && s.buffer == EMPTY_BUFFER && s.acc == map[] && s.stalled == map["a" := 100.0]
    && s.tables == Tables(map["a" := Row(JobA(), Queued, None)], ["a"], map[], {})
  }

  ghost predicate BComesIn(s: State) {
    && !s.raised && s.buffer == EMPTY_BUFFER && s.acc == map[] && s.stalled == map["a" := 100.0]
    && s.tables == Tables(map["a" := Row(JobA(), Queued, None), "b" := Row(JobB(), Queued, None)], ["a", "b"], map[], {})
  }

  ghost predicate AComesIn(s: State) {
    && !s.raised && s.buffer == EMPTY_BUFFER && s.acc == map[] && s.stalled == map[]
    && s.tables == Tables(map["a" := Row(JobA(), Queued, None)], ["a"], map[], {})
  }

  lemma FirstStep()
    ensures StepsTo(Reboot([]), Call(At(100.0, AWAY), Message(JobA())), S1()) && AComesIn(S1())
  {
    hide OnMessage, Reboot, StepsTo, Inv;
    assert S1() == AfterFirst(JobA());
    FirstDelivery(JobA());
    TakesIn(At(100.0, AWAY), Reboot([]), JobA());
  }

  lemma SecondStep()
    requires AComesIn(S1())
    ensures StepsTo(S1(), Call(At(100.0, AWAY), SubmitOp("a")), S2()) && AStalled(S2())
  {
    hide S1, Submit, LinkHolds, StepsTo;
    StalledAtOnce(At(100.0, AWAY), S1(), "a");
    TakesOn(At(100.0, AWAY), S1(), "a");
  }

  lemma ThirdStep()
    requires AStalled(S2())
    ensures StepsTo(S2(), Call(At(110.0, AWAY), Message(JobB())), S3()) && BComesIn(S3())
  {
    hide S2, OnMessage, StepsTo;
    SecondDelivery(At(110.0, AWAY), S2(), JobB());
    TakesIn(At(110.0, AWAY), S2(), JobB());
  }

  lemma FourthStep()
    requires BComesIn(S3())
    ensures StepsTo(S3(), Call(At(110.0, AWAY), SubmitOp("b")), S4())
    ensures BWaits(S4()) && S4().stalled == map["a" := 100.0]
  {
    hide S3, Submit, LinkHolds, StepsTo;
    WaitsInTheStrip(At(110.0, AWAY), S3(), "b");
    TakesOn(At(110.0, AWAY), S3(), "b");
  }

  lemma TheStory()
    ensures var (states, steps) := Story();
            && Run(states, steps) && BWaits(states[4]) && states[4].stalled == map["a" := 100.0]
  {
    hide S1, S2, S3, S4, StepsTo, AComesIn, AStalled, BComesIn, BWaits, Reboot;
    FirstStep();
    SecondStep();
    ThirdStep();
    FourthStep();
  }

  /** A run that stays within everything its theorems ask for, and a tick in which the printer
      breaks the strip off: job b is finished as failed in job a's turn, and put in the strip
      again in its own, its result and all. */
  lemma AFinishedJobWaitsInTheStrip()
    ensures var (states, steps) := Story(); var s := states[4]; var s1 := Do(At(120.0, BREAKS), s, TickOp);
            && Run(states, steps)
            && !ListStaysFresh(Settings(), 120.0, s, QueuedIds(s.tables))
            && "b" in s1.tables.jobs && s1.tables.jobs["b"].result == Some(AllLost("b"))
            && "b" in s1.acc && s1.buffer.pending == [Copy("b")]
  {
    hide S4, RetryEach, Run, ListStaysFresh, FreshAcc;
    TheStory();
    BothQueued(S4().tables);
    ListIsStale(S4());
    BothTurns(At(120.0, BREAKS), S4());
  }

  lemma FlushIsAsked(s: State)
    requires BWaits(s) && CopiesOf(Settings(), 120.0, s, "a") != []
    ensures FlushesStrip(Settings(), 120.0, s, "a")
  {
    hide Prepare, Triggers;
  }

  /** No copy is lost by it: the run and its tick submit only jobs that are not in flight. */
  lemma ThatTickIsOrderly()
    ensures var (states, steps) := Story();
            OrderlyRun(states + [Do(At(120.0, BREAKS), S4(), TickOp).(raised := false)], steps + [Call(At(120.0, BREAKS), TickOp)])
  {
    hide S1, S2, S3, S4, RetryEach, Run, Do, EachRetryFree, Allowed, Reboot, BWaits;
    TheStory();
    var (states, steps) := Story();
    RunIsOrderly(states, steps);
    TickIsOrderly(S4());
  }

  lemma TickIsOrderly(s: State)
    requires BWaits(s) && s.stalled == map["a" := 100.0]
    ensures Orderly(At(120.0, BREAKS), s, TickOp)
  {
    hide Submit, FreshAcc, Prepare;
    var env := At(120.0, BREAKS);
    BothQueued(s.tables);
    assert ["a", "b"][1..] == ["b"] && ["b"][1..] == [];
    var t := Stamped(s, "a", env.now);
    PlannedWhole(env, t, "a", true, 1);
    FirstTurn(env, t);
    var s1 := Submit(env, t, "a");
    var t1 := Stamped(s1, "b", env.now);
    WaitsInTheStrip(env, t1, "b");
    assert EachRetryFree(env, s1, ["b"]);
  }
}
