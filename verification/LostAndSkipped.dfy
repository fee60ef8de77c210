/** Two small runs: a failed label that is planned again, and a label that is never printed. */
module LostAndSkipped {
  import opened Basics
  import opened Contract
  import opened Spool
  import opened PrintLoop
  import opened History
  import opened PrintLoopInvariant
  import opened PrintLoopSteps
  import opened PrintLoopJournal
  import opened PrintLoopLimits
  import opened EveryRun
  import opened PrintLoopRuns
  import opened StaleRetry
  import opened Duplicates
  import opened Failures

  // --- a failed strip tried again ---------------------------------------------

  const JOB: PrintJob := OneLabel("a", false, 25)

  function L1(): State { Do(At(100.0, AWAY), Reboot([]), Message(JOB)) }

  function L2(): State { Do(At(100.0, BREAKS), L1(), SubmitOp("a")) }

  function L3(): State { Do(At(101.0, AWAY), L2(), FlushOp) }

  lemma {:induction false} AddAllSplit(env: Env, s: State, a: seq<PendingLabel>, b: seq<PendingLabel>)
    ensures AddAll(env, s, a + b) == AddAll(env, AddAll(env, s, a), b)
    decreases |a|
  {
    hide AddOne;
    if a == [] || s.raised {
      assert a == [] ==> a + b == b;
    } else {
      AddAllSplit(env, AddOne(env, s, a[0]), a[1..], b);
      assert (a + b)[0] == a[0] && (a + b)[1..] == a[1..] + b;
    }
  }

  lemma {:induction false} CopiesArePixels(n: nat)
    ensures PixelSum(Repeat(Copy("a"), n)) == n
  {
    if n > 0 {
      assert Repeat(Copy("a"), n)[..n - 1] == Repeat(Copy("a"), n - 1);
      CopiesArePixels(n - 1);
    }
  }

  lemma FullAtTwentyFour(n: nat)
    requires 0 < n <= 24
    ensures IsFull(Settings(), Repeat(Copy("a"), n)) <==> n == 24
  {
    hide PixelSum;
    CopiesArePixels(n);
  }

  lemma {:induction false} CopiesAreCounted(n: nat)
    ensures Count(Repeat(Copy("a"), n), "a", 0) == n
  {
    if n > 0 {
      assert Repeat(Copy("a"), n)[1..] == Repeat(Copy("a"), n - 1);
      CopiesAreCounted(n - 1);
    }
  }

  /** The first 23 copies fill the strip up to one. */
  lemma NearlyFull(env: Env, s: State)
    requires env.cfg == Settings() && s.buffer == EMPTY_BUFFER && !s.raised
    ensures AddAll(env, s, Repeat(Copy("a"), 23))
            == s.(buffer := Buffer(Repeat(Copy("a"), 23), Some(env.cfg.tapeWidth), Some(env.now)))
  {
    hide AddAll;
    var copies := Repeat(Copy("a"), 23);
    forall n | 0 < n <= |copies| ensures !IsFull(env.cfg, [] + copies[..n]) {
      assert [] + copies[..n] == Repeat(Copy("a"), n);
      FullAtTwentyFour(n);
    }
    assert [] + copies == copies;
    AddAllQuiet(env, s, copies);
  }

  /** The strip of 24 that breaks off, with one copy still to come. */
  lemma BrokenWithOneToCome(env: Env, s: State)
    requires env.cfg == Settings() && (forall n :: env.link(n) == BREAKS) && s.buffer.pending == []
    requires Conserved(s, Repeat(Copy("a"), 24) + [Copy("a")]) && Unsettled(s) && "a" in s.acc && s.acc["a"].failed == map[]
    ensures var s1 := PrintStrip(env, s, Repeat(Copy("a"), 24));
            && Conserved(s1, [Copy("a")]) && Unsettled(s1) && s1.buffer == s.buffer
            && "a" in s1.acc && Get(s1.acc["a"].failed, 0) == 24 && s1.acc["a"].job == s.acc["a"].job
  {
    hide Conserved, Unsettled, PrintStrip, Send;
    var labels, rest := Repeat(Copy("a"), 24), [Copy("a")];
    assert Copy("a") in rest && Copy("a") in labels by {
      assert labels[0] == Copy("a");
    }
    assert Mentions(rest, "a") && Mentions(labels, "a");
    SentAndBroken(env, s, labels);
    CopiesAreCounted(24);
    BegunStripFinishesExactlyItsLast(env, s, labels, rest, "a");
  }

  lemma OneCopyWaits(env: Env, s: State)
    requires env.cfg == Settings() && s.buffer == EMPTY_BUFFER && Conserved(s, [Copy("a")]) && Unsettled(s)
    ensures var s1 := s.(buffer := Buffer([Copy("a")], Some(env.cfg.tapeWidth), Some(env.now)));
            AddAll(env, s, [Copy("a")]) == s1 && Inv(s1, [])
  {
    hide Conserved, Unsettled;
    NotRaisedYet(s);
    OneCopyIsNotFull("a");
    var b := Buffer([Copy("a")], Some(env.cfg.tapeWidth), Some(env.now));
    assert [] + [Copy("a")] == [Copy("a")];
    Waiting(s, b, [Copy("a")]);
    assert [Copy("a")][1..] == [];
    assert AddOne(env, s, Copy("a")) == s.(buffer := b);
  }

  lemma NotRaisedYet(s: State)
    requires Conserved(s, [Copy("a")])
    ensures !s.raised
  {
  }

  /** What the buffering loop makes of 25 copies when frames break off. */
  lemma LoopBreaksOff(env: Env, s: State) returns (s1: State)
    requires env.cfg == Settings() && (forall n :: env.link(n) == BREAKS) && s.buffer == EMPTY_BUFFER
    requires Inv(s, Repeat(Copy("a"), 25)) && "a" in s.acc && s.acc["a"].failed == map[]
    ensures s1 == AddAll(env, s, Repeat(Copy("a"), 25)) && Inv(s1, [])
    ensures "a" in s1.acc && Get(s1.acc["a"].failed, 0) == 24 && s1.acc["a"].job == s.acc["a"].job
  {
    hide Conserved, Unsettled, AddAll, PrintStrip;
    var c, all := Copy("a"), Repeat(Copy("a"), 25);
    var labels := Repeat(c, 24);
    assert [] + all == all && all == labels + [c] && all == Repeat(c, 23) + ([c] + [c]) && labels == Repeat(c, 23) + [c];
    InvIsUnraisedWith(s, all);
    NearlyFull(env, s);
    AddAllSplit(env, s, Repeat(c, 23), [c] + [c]);
    var s2 := AddAll(env, s, Repeat(c, 23));
    AddAllSplit(env, s2, [c], [c]);
    AddLast(env, s2);
    FullAtTwentyFour(24);
    AddOneAccepted(env, s2, c);
    SameAccounts(s, s.(buffer := EMPTY_BUFFER), all);
    BrokenWithOneToCome(env, s.(buffer := EMPTY_BUFFER));
    var s3 := PrintStrip(env, s.(buffer := EMPTY_BUFFER), labels);
    OneCopyWaits(env, s3);
    s1 := AddAll(env, s3, [c]);
  }

  lemma AddLast(env: Env, s: State)
    requires !s.raised
    ensures AddAll(env, s, [Copy("a")]) == AddOne(env, s, Copy("a"))
  {
    hide AddOne;
    assert [Copy("a")][1..] == [];
    assert AddAll(env, AddOne(env, s, Copy("a")), []) == AddOne(env, s, Copy("a"));
  }

  lemma InvIsUnraisedWith(s: State, todo: seq<PendingLabel>)
    requires Inv(s, todo)
    ensures !s.raised
  {
  }

  lemma SameAccounts(s: State, s1: State, out: seq<PendingLabel>)
    requires Inv(s, out) && s.buffer.pending + out == out && s1 == s.(buffer := s1.buffer)
    ensures Conserved(s1, out) && Unsettled(s1)
  {
  }

  lemma Submitted(env: Env, s: State)
    requires env.cfg == Settings() && (forall n :: env.link(n) == BREAKS) && Inv(s, []) && Submittable(s, "a")
    requires Unprinted(s, "a", false, 25) && s.buffer == EMPTY_BUFFER
    ensures var s1 := Submit(env, s, "a");
            && Inv(s1, []) && "a" in s1.acc && Get(s1.acc["a"].failed, 0) == 24 && s1.acc["a"].job == JOB
    ensures LinkHolds(env, s, "a")
  {
    hide Conserved, Unsettled, Prepare, AddAll, Repeat, Total, NoMidLoopStall;
    PresentLinkHolds(env, s, "a");
    PlannedWhole(env, s, "a", false, 25);
    PlannedTables(env, s, "a", false, 25);
    var r := Prepare(env, s, "a");
    assert Repeat(Copy("a"), 25) != [];
    PreparedInv(env, s, "a");
    var s1 := LoopBreaksOff(env, r.0);
    StillIncomplete(s1);
    assert Submit(env, s, "a") == s1;
  }

  lemma StillIncomplete(s: State)
    requires Inv(s, []) && "a" in s.acc
    ensures !Complete(s.acc["a"])
  {
    hide Complete;
  }

  /** A label the printer may have on tape in part is printed again: of one label of 25 copies,
      24 go out in a strip that breaks off, and one waits; the printer is away at the next
      flush; and the job, queued again, is planned with all 25. The run keeps to everything
      the theorems on runs ask for. */
  lemma FailedStripIsPrintedAgain()
    ensures Run([Reboot([]), L1(), L2(), L3()],
                [Call(At(100.0, AWAY), Message(JOB)), Call(At(100.0, BREAKS), SubmitOp("a")), Call(At(101.0, AWAY), FlushOp)])
    ensures "a" in L2().acc && Get(L2().acc["a"].failed, 0) == 24
    ensures Submittable(L3(), "a") && Prepare(At(116.0, FramePrinted), L3(), "a").1 == [Print(25, PIXEL)]
  {
    hide Submit, OnMessage, Prepare, LinkHolds, Reboot, QueuedIn, StepsTo, Inv;
    assert L1() == AfterFirst(JOB);
    FirstDelivery(JOB);
    WaitingIsQueued(L1(), "a");
    TakesIn(At(100.0, AWAY), Reboot([]), JOB);
    Submitted(At(100.0, BREAKS), L1());
    NotRaised(L2());
    TakesOn(At(100.0, BREAKS), L1(), "a");
    LostLabelIsAskedForAgain(At(101.0, AWAY), At(116.0, FramePrinted), L2(), "a", 0);
    FlushIsAllowed(At(101.0, AWAY), L2());
    PreparedAcc(At(116.0, FramePrinted), L3(), "a");
  }

  lemma FlushIsAllowed(env: Env, s: State)
    requires Inv(s, [])
    ensures StepsTo(s, Call(env, FlushOp), Do(env, s, FlushOp))
  {
    hide Inv, Flush;
    FlushAlone(env, s);
    NotRaised(Flush(env, s));
  }

  // --- a label never printed --------------------------------------------------

  const KEYED: PrintJob := PrintJob("a", "a", None, Strip, true, [LabelSpec("label", 1, Some("k"))])
  const RECORD: string := "d30-workshop:k"

  function M1(): State { Do(At(100.0, AWAY), Reboot([]), Message(KEYED)) }

  function M2(): State { Do(At(100.0, AWAY), M1(), SubmitOp("a")) }

  lemma KeyedPlan(env: Env, s: State)
    requires env.cfg == Settings() && "a" in s.tables.jobs && s.tables.jobs["a"].job == KEYED
    requires s.tables.dedupe == map[] && ("a", 0) !in s.tables.printed
    ensures var r := Prepare(env, s, "a");
            && r.1 == [Print(1, PIXEL)] && Expand("a", r.1) == [Copy("a")]
            && r.0.buffer == s.buffer && r.0.stalled == s.stalled && r.0.raised == s.raised
            && r.0.acc == s.acc["a" := FreshAcc(KEYED, [Print(1, PIXEL)])]
            && r.0.tables == s.tables.(jobs := s.tables.jobs["a" := s.tables.jobs["a"].(state := Printing)],
                                       dedupe := map[RECORD := ("a", env.now)])
  {
    var marked := Emit(s, Marked("a", Printing));
    var already := PrintedLabels(marked.tables, "a");
    assert 0 !in already;
    assert "d30-workshop" + ":" + "k" == RECORD;
    var planned := Emit(marked, DedupeRecorded(RECORD, "a", env.now));
    assert PlanLabels(env, marked, KEYED, already, 0) == (marked, []);
    assert Decide(env, marked, KEYED, already, 0) == (planned, Print(1, PIXEL));
    assert PlanLabels(env, marked, KEYED, already, 1).0 == planned;
    assert PlanLabels(env, marked, KEYED, already, 1).1 == [Print(1, PIXEL)];
    assert [Print(1, PIXEL)][..0] == [];
    assert Repeat(Copy("a"), 1) == [Copy("a")];
  }

  /** The job is recorded, unprinted, and back in the queue. */
  ghost predicate SentBack(s: State) {
    && !s.raised && s.buffer == EMPTY_BUFFER && s.acc == map[] && s.stalled == map["a" := 100.0]
    && s.tables == Tables(map["a" := Row(KEYED, Queued, None)], ["a"], map[RECORD := ("a", 100.0)], {})
  }

  lemma KeyedStalls(s: State)
    requires !s.raised && s.buffer == EMPTY_BUFFER && s.acc == map[] && s.stalled == map[]
    requires s.tables == Tables(map["a" := Row(KEYED, Queued, None)], ["a"], map[], {})
    ensures SentBack(Submit(At(100.0, AWAY), s, "a")) && LinkHolds(At(100.0, AWAY), s, "a")
  {
    hide Prepare, Flush;
    var env, c := At(100.0, AWAY), Copy("a");
    KeyedPlan(env, s);
    var r := Prepare(env, s, "a");
    OneCopyIsNotFull("a");
    var s1 := r.0.(buffer := AddTo(r.0.buffer, c, env.cfg.tapeWidth, env.now));
    assert s1.buffer.pending == [c];
    assert AddAll(env, r.0, [c]) == s1 by {
      assert [c][1..] == [];
      assert AddOne(env, r.0, c) == s1;
    }
    StrippedAway(env, s1, "a");
    assert BufferCopies(env, r.0, "a", [c], true) == Flush(env, s1);
    var a := FreshAcc(KEYED, [Print(1, PIXEL)]);
    assert Get(a.expected, 0) == 1 && Total(a.expected, 0) == 0 && Total(a.expected, 1) == 1;
    assert Submit(env, s, "a") == Flush(env, s1);
  }

  /** A label is lost without a copy printed: the printer is away when its job is submitted, and
      when it is there again the retry finds the label recorded, by itself, and stores the job
      as completed in four effects, with no frame tried. */
  lemma RecordedLabelIsNeverPrinted()
    ensures Run([Reboot([]), M1(), M2()],
                [Call(At(100.0, AWAY), Message(KEYED)), Call(At(100.0, AWAY), SubmitOp("a"))])
    ensures var s, r := Do(At(120.0, FramePrinted), M2(), TickOp), AllSkipped("a", 1);
            && s.journal == M2().journal + [Marked("a", Printing)] + [Planned("a", AllDuplicate(1))]
                            + [Finished("a", r)] + [Published(r)]
            && r.state == Completed && !s.raised
  {
    hide Submit, OnMessage, LinkHolds, Reboot, QueuedIn, StepsTo, Inv;
    var later := At(120.0, FramePrinted);
    assert M1() == AfterFirst(KEYED);
    FirstDelivery(KEYED);
    TakesIn(At(100.0, AWAY), Reboot([]), KEYED);
    KeyedStalls(M1());
    TakesOn(At(100.0, AWAY), M1(), "a");
    OneQueued(M2().tables);
    var t := Stamped(M2(), "a", 120.0);
    assert "d30-workshop" + ":" + "k" == RECORD;
    AllRecordedCompletesUnprinted(later, t, "a");
    assert ["a"][1..] == [];
  }

  lemma OneQueued(t: Tables)
    requires t.order == ["a"] && Awaiting(t, "a")
    ensures QueuedIds(t) == ["a"]
  {
    assert ["a"][..0] == [];
    assert QueuedIn(t, []) == [];
  }
}
