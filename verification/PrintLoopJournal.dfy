/** The journal only grows, and it hands copies over in the order they were asked for. */
module PrintLoopJournal {
  import opened Basics
  import opened Contract
  import opened Spool
  import opened PrintLoop
  import opened History
  import opened PrintLoopInvariant
  import opened PrintLoopSteps

  /** Copies handed to `_send` since the process started, in order. */
  ghost function HandedOver(h: seq<Event>): seq<PendingLabel> {
    if h == [] || Last(h).Booted? then []
    else HandedOver(Prev(h)) + if Last(h).Settled? then Last(h).copies else []
  }

  /** Copies asked for by the jobs taken on since then, in order. */
  ghost function AskedFor(h: seq<Event>): seq<PendingLabel> {
    if h == [] || Last(h).Booted? then []
    else AskedFor(Prev(h)) + if Last(h).Planned? then Expand(Last(h).id, Last(h).plan) else []
  }

  /** Was a job sent back to the queue since then? */
  ghost predicate Stalled(h: seq<Event>) {
    if h == [] || Last(h).Booted? then false
    else Stalled(Prev(h)) || (Last(h).Marked? && Last(h).state == Queued)
  }

  /** Every row is filed under its job's own id. */
  ghost predicate RowsNamed(t: Tables) {
    forall id :: id in t.jobs ==> t.jobs[id].job.id == id
  }

  /** From s to s1 the journal and the dedupe keys grew, and `copies` were added to what is handed over or pending,
      unless a job stalled or the call failed. */
  ghost predicate Moved(s: State, s1: State, copies: seq<PendingLabel>) {
    && s.journal <= s1.journal
    && AskedFor(s1.journal) == AskedFor(s.journal)
    && (Stalled(s.journal) ==> Stalled(s1.journal))
    && s.tables.dedupe.Keys <= s1.tables.dedupe.Keys
    && (RowsNamed(s.tables) ==> RowsNamed(s1.tables))
    && (Stalled(s1.journal) || s1.raised ||
        HandedOver(s1.journal) + s1.buffer.pending == HandedOver(s.journal) + s.buffer.pending + copies)
  }

  lemma MovedNothing(s: State)
    ensures Moved(s, s, [])
  {
  }

  lemma MovedThen(s: State, s1: State, s2: State, a: seq<PendingLabel>, b: seq<PendingLabel>)
    requires Moved(s, s1, a) && Moved(s1, s2, b) && (s1.raised ==> s2.raised)
    ensures Moved(s, s2, a + b)
  {
    assert HandedOver(s.journal) + s.buffer.pending + (a + b) == HandedOver(s.journal) + s.buffer.pending + a + b;
  }

  lemma QuietlyThen(s: State, s1: State, s2: State)
    requires Moved(s, s1, []) && Moved(s1, s2, []) && (s1.raised ==> s2.raised)
    ensures Moved(s, s2, [])
  {
    MovedThen(s, s1, s2, [], []);
    var none: seq<PendingLabel> := [];
    assert none + none == none;
  }

  lemma EmitMoves(s: State, e: Event)
    requires !e.Planned? && !e.Booted? && !e.Settled? && !e.DedupePurged?
    ensures Moved(s, Emit(s, e), [])
    ensures e.Marked? && e.state == Queued ==> Stalled(Emit(s, e).journal)
  {
    Appended(s.journal, e);
    assert HandedOver(s.journal) + [] == HandedOver(s.journal);
    assert AskedFor(s.journal) + [] == AskedFor(s.journal);
  }

  lemma {:induction false} SendFromMoves(env: Env, s: State, copies: seq<PendingLabel>, strip: bool, attempt: nat)
    ensures var s1 := SendFrom(env, s, copies, strip, attempt).0; Moved(s, s1, []) && s1 == s.(journal := s1.journal, tables := s1.tables)
    decreases env.cfg.maxAttempts - attempt
  {
    hide Moved;
    MovedNothing(s);
    if attempt < env.cfg.maxAttempts {
      var o := env.link(|s.journal|);
      var s1 := Emit(s, Tried(copies, strip, o));
      EmitMoves(s, Tried(copies, strip, o));
      if o != FramePrinted && o.retryable && attempt + 1 < env.cfg.maxAttempts && !(strip && o.PrintFailed?) {
        SendFromMoves(env, s1, copies, strip, attempt + 1);
        QuietlyThen(s, s1, SendFrom(env, s1, copies, strip, attempt + 1).0);
      }
    }
  }

  /** A send hands its copies over. */
  lemma SendMoves(env: Env, s: State, copies: seq<PendingLabel>, strip: bool)
    requires s.buffer.pending == []
    ensures var s1 := Send(env, s, copies, strip).0;
            Moved(s, s1, copies) && s1 == s.(journal := s1.journal, tables := s1.tables)
  {
    SendFromMoves(env, s, copies, strip, 0);
    var r := SendFrom(env, s, copies, strip, 0);
    var e := Settled(copies, strip, r.1.ok, r.1.wrote);
    Appended(r.0.journal, e);
    assert AskedFor(r.0.journal) + [] == AskedFor(r.0.journal);
    var h, g := HandedOver(s.journal), HandedOver(r.0.journal);
    assert h + [] == h && h + [] + copies == h + copies && g + [] == g && g + copies + [] == g + copies;
  }

  lemma {:induction false} SettleMoves(s: State, labels: seq<PendingLabel>, ok: bool, strip: bool)
    ensures Moved(s, SettleAll(s, labels, ok, strip), [])
    decreases |labels|
  {
    hide Moved;
    MovedNothing(s);
    if labels != [] && !s.raised {
      var s1 := SettleOne(s, labels[0], ok, strip);
      SettleOneMoves(s, labels[0], ok, strip);
      SettleMoves(s1, labels[1..], ok, strip);
      SettleRaised(s1, labels[1..], ok, strip);
      QuietlyThen(s, s1, SettleAll(s1, labels[1..], ok, strip));
    }
  }

  lemma SettleOneMoves(s: State, pl: PendingLabel, ok: bool, strip: bool)
    ensures Moved(s, SettleOne(s, pl, ok, strip), [])
  {
    Appended(s.journal, Committed(pl.job, pl.index));
    assert HandedOver(s.journal) + [] == HandedOver(s.journal);
    assert AskedFor(s.journal) + [] == AskedFor(s.journal);
  }

  lemma SettleRaised(s: State, labels: seq<PendingLabel>, ok: bool, strip: bool)
    ensures s.raised ==> SettleAll(s, labels, ok, strip).raised
  {
  }

  lemma ConcludeMoves(s: State, id: JobId, r: JobResult)
    ensures Moved(s, Conclude(s, id, r), []) && Conclude(s, id, r).raised == s.raised
  {
    hide Moved;
    EmitMoves(s, Finished(id, r));
    EmitMoves(Emit(s, Finished(id, r)), Published(r));
    QuietlyThen(s, Emit(s, Finished(id, r)), Conclude(s, id, r));
  }

  lemma {:induction false} FinalizeMoves(s: State, ids: seq<JobId>)
    ensures Moved(s, FinalizeEach(s, ids), []) && FinalizeEach(s, ids).raised == s.raised
    decreases |ids|
  {
    hide Conclude, Complete, ResultOf;
    if ids != [] {
      var s1 := MaybeFinalize(s, ids[0]);
      if s1 != s {
        ConcludeMoves(s.(acc := s.acc - {ids[0]}), ids[0], ResultOf(s.acc[ids[0]]));
      }
      FinalizeMoves(s1, ids[1..]);
      assert Moved(s, s1, []);
      QuietlyThen(s, s1, FinalizeEach(s1, ids[1..]));
    }
  }

  lemma {:induction false} StallMoves(s: State, ids: seq<JobId>, now: real)
    ensures Moved(s, StallEach(s, ids, now), []) && StallEach(s, ids, now).raised == s.raised
    ensures ids != [] ==> Stalled(StallEach(s, ids, now).journal)
    decreases |ids|
  {
    if ids != [] {
      var s1 := StallOne(s, ids[0], now);
      EmitMoves(s, Marked(ids[0], Queued));
      StallMoves(s1, ids[1..], now);
      QuietlyThen(s, s1, StallEach(s1, ids[1..], now));
    }
  }

  lemma JobsOfSome(labels: seq<PendingLabel>)
    requires labels != []
    ensures JobIds(labels) != []
  {
    assert labels[0] in labels;
    assert labels[0].job in JobIds(labels);
  }

  /** A flush hands the pending strip over. */
  lemma FlushMoves(env: Env, s: State)
    ensures Moved(s, Flush(env, s), []) && (s.raised ==> Flush(env, s).raised)
  {
    var labels := s.buffer.pending;
    if labels != [] {
      hide SendFrom, StallEach, SettleAll, FinalizeEach;
      var s0 := s.(buffer := EMPTY_BUFFER);
      SendMoves(env, s0, labels, true);
      var r := Send(env, s0, labels, true);
      JobsOfSome(labels);
      StallMoves(r.0, JobIds(labels), env.now);
      SettleMoves(r.0, labels, r.1.ok, true);
      SettleRaised(r.0, labels, r.1.ok, true);
      var s2 := SettleAll(r.0, labels, r.1.ok, true);
      FinalizeMoves(s2, JobIds(labels));
      if !r.1.ok && !r.1.wrote {
        TakenAndHanded(s, r.0, Flush(env, s));
      } else {
        if !s2.raised {
          QuietlyThen(r.0, s2, Flush(env, s));
        }
        TakenAndHanded(s, r.0, Flush(env, s));
      }
    }
  }

  lemma TakenAndHanded(s: State, s1: State, s2: State)
    requires Moved(s.(buffer := EMPTY_BUFFER), s1, s.buffer.pending)
    requires Moved(s1, s2, []) && (s1.raised ==> s2.raised)
    ensures Moved(s, s2, [])
  {
    MovedThen(s.(buffer := EMPTY_BUFFER), s1, s2, s.buffer.pending, []);
    var h := HandedOver(s.journal);
    assert h + [] + (s.buffer.pending + []) == h + s.buffer.pending + [];
  }

  lemma MovedNowhere(s: State, s1: State, s2: State, copies: seq<PendingLabel>)
    requires Moved(s, s1, copies) && Moved(s1, s2, []) && (s1.raised ==> s2.raised)
    ensures Moved(s, s2, copies)
  {
    MovedThen(s, s1, s2, copies, []);
    assert copies + [] == copies;
  }

  lemma JoinMoves(env: Env, s: State, pl: PendingLabel)
    ensures Moved(s, s.(buffer := AddTo(s.buffer, pl, env.cfg.tapeWidth, env.now)), [pl])
  {
    var h := HandedOver(s.journal);
    assert h + (s.buffer.pending + [pl]) == h + s.buffer.pending + [pl];
  }

  lemma AddOneMoves(env: Env, s: State, pl: PendingLabel)
    ensures Moved(s, AddOne(env, s, pl), [pl]) && (s.raised ==> AddOne(env, s, pl).raised)
  {
    hide Moved, Flush;
    MovedNothing(s);
    FlushMoves(env, s);
    var s1 := if Accepts(s.buffer, env.cfg.tapeWidth) then s else Flush(env, s);
    JoinMoves(env, s1, pl);
    var s2 := s1.(buffer := AddTo(s1.buffer, pl, env.cfg.tapeWidth, env.now));
    MovedThen(s, s1, s2, [], [pl]);
    assert [] + [pl] == [pl];
    FlushMoves(env, s2);
    MovedNothing(s2);
    var s3 := if IsFull(env.cfg, s2.buffer.pending) then Flush(env, s2) else s2;
    MovedNowhere(s, s2, s3, [pl]);
    if s1.raised {
      RaisedMoves(s, s1, [pl]);
    }
  }

  lemma RaisedMoves(s: State, s1: State, copies: seq<PendingLabel>)
    requires Moved(s, s1, []) && s1.raised
    ensures Moved(s, s1, copies)
  {
  }

  lemma {:induction false} AddAllMoves(env: Env, s: State, todo: seq<PendingLabel>)
    ensures Moved(s, AddAll(env, s, todo), todo) && (s.raised ==> AddAll(env, s, todo).raised)
    decreases |todo|
  {
    hide Moved, AddOne;
    MovedNothing(s);
    if s.raised {
      RaisedMoves(s, s, todo);
    } else if todo != [] {
      var s1 := AddOne(env, s, todo[0]);
      AddOneMoves(env, s, todo[0]);
      AddAllMoves(env, s1, todo[1..]);
      MovedThen(s, s1, AddAll(env, s1, todo[1..]), [todo[0]], todo[1..]);
      assert [todo[0]] + todo[1..] == todo;
    }
  }

  lemma MaybeFinalizeMoves(s: State, id: JobId)
    ensures Moved(s, MaybeFinalize(s, id), []) && MaybeFinalize(s, id).raised == s.raised
  {
    FinalizeMoves(s, [id]);
    assert FinalizeEach(s, [id]) == MaybeFinalize(s, id) by {
      assert [id][1..] == [];
    }
  }

  lemma BufferCopiesMoves(env: Env, s: State, id: JobId, todo: seq<PendingLabel>, flush: bool)
    ensures Moved(s, BufferCopies(env, s, id, todo, flush), todo)
  {
    hide Moved, AddAll, Flush, MaybeFinalize;
    AddAllMoves(env, s, todo);
    var s1 := AddAll(env, s, todo);
    FlushMoves(env, s1);
    MovedNothing(s1);
    var s2 := if flush && !s1.raised then Flush(env, s1) else s1;
    MovedNowhere(s, s1, s2, todo);
    MaybeFinalizeMoves(s2, id);
    MovedNowhere(s, s2, MaybeFinalize(s2, id), todo);
  }

  lemma StalledIsMoved(s: State, s1: State, a: seq<PendingLabel>, b: seq<PendingLabel>)
    requires Moved(s, s1, a) && Stalled(s1.journal)
    ensures Moved(s, s1, b)
  {
  }

  /** One label's frame in a discrete run: handed over, then settled or stalled. */
  lemma FrameMoves(env: Env, s: State, id: JobId, pl: PendingLabel)
    requires s.buffer.pending == []
    ensures var r := Send(env, s, [pl], false);
            && Moved(s, SettleOne(r.0, pl, r.1.ok, false), [pl])
            && SettleOne(r.0, pl, r.1.ok, false).buffer == s.buffer
            && Moved(s, StallEach(r.0, [id], env.now), [pl])
            && Stalled(StallEach(r.0, [id], env.now).journal)
  {
    hide Moved, SendFrom;
    SendMoves(env, s, [pl], false);
    var r := Send(env, s, [pl], false);
    SettleOneMoves(r.0, pl, r.1.ok, false);
    StallMoves(r.0, [id], env.now);
    MovedNowhere(s, r.0, SettleOne(r.0, pl, r.1.ok, false), [pl]);
    MovedNowhere(s, r.0, StallEach(r.0, [id], env.now), [pl]);
  }

  lemma {:induction false} RunDiscreteMoves(env: Env, s: State, id: JobId, todo: seq<PendingLabel>)
    requires s.buffer.pending == []
    ensures Moved(s, RunDiscrete(env, s, id, todo), todo) && (s.raised ==> RunDiscrete(env, s, id, todo).raised)
    decreases |todo|
  {
    hide Moved, Send, SettleOne, StallEach, MaybeFinalize;
    MovedNothing(s);
    if s.raised {
      RaisedMoves(s, s, todo);
    } else if todo == [] {
      MaybeFinalizeMoves(s, id);
    } else {
      FrameMoves(env, s, id, todo[0]);
      var r := Send(env, s, [todo[0]], false);
      if !r.1.ok && !r.1.wrote {
        StalledIsMoved(s, StallEach(r.0, [id], env.now), [todo[0]], todo);
      } else {
        var s1 := SettleOne(r.0, todo[0], r.1.ok, false);
        RunDiscreteMoves(env, s1, id, todo[1..]);
        MovedThen(s, s1, RunDiscrete(env, s1, id, todo[1..]), [todo[0]], todo[1..]);
        assert [todo[0]] + todo[1..] == todo;
      }
    }
  }

  lemma {:induction false} PlanMoves(env: Env, s: State, job: PrintJob, already: set<nat>, n: nat)
    requires n <= |job.labels|
    ensures var s1 := PlanLabels(env, s, job, already, n).0; Moved(s, s1, []) && s1.raised == s.raised && s1.buffer == s.buffer
  {
    hide Moved;
    MovedNothing(s);
    if n > 0 {
      PlanMoves(env, s, job, already, n - 1);
      var s1 := PlanLabels(env, s, job, already, n - 1).0;
      var key := DedupeKey(env.cfg, job.labels[n - 1]);
      MovedNothing(s1);
      if key.Some? {
        EmitMoves(s1, DedupeRecorded(key.value, job.id, env.now));
      }
      QuietlyThen(s, s1, PlanLabels(env, s, job, already, n).0);
    }
  }

  // --- order over whole calls -------------------------------------------------

  /** What was handed over, followed by what is pending, is what was asked for, in order. */
  ghost predicate Ordered(s: State) {
    Stalled(s.journal) || HandedOver(s.journal) + s.buffer.pending == AskedFor(s.journal)
  }

  /** The journal grew, and order was kept unless the call failed. */
  ghost predicate KeepsOrder(s: State, s1: State) {
    s.journal <= s1.journal && (Ordered(s) ==> Ordered(s1) || s1.raised)
  }

  lemma MovedKeepsOrder(s: State, s1: State)
    requires Moved(s, s1, [])
    ensures KeepsOrder(s, s1)
  {
    assert HandedOver(s.journal) + s.buffer.pending + [] == HandedOver(s.journal) + s.buffer.pending;
  }

  /** Asking for copies and then moving them keeps order. */
  lemma AskedThenMoved(s: State, s1: State, s2: State, copies: seq<PendingLabel>)
    requires s.journal <= s1.journal && s1.buffer == s.buffer
    requires HandedOver(s1.journal) == HandedOver(s.journal) || Stalled(s1.journal) || s1.raised
    requires AskedFor(s1.journal) == AskedFor(s.journal) + copies
    requires Stalled(s.journal) ==> Stalled(s1.journal)
    requires Moved(s1, s2, copies) && (s1.raised ==> s2.raised)
    ensures KeepsOrder(s, s2)
  {
  }

  lemma PrepareAsks(env: Env, s: State, id: JobId)
    requires id in s.tables.jobs
    ensures var r := Prepare(env, s, id);
            && s.journal <= r.0.journal && r.0.buffer == s.buffer && r.0.raised == s.raised
            && AskedFor(r.0.journal) == AskedFor(s.journal) + Expand(id, r.1)
            && (HandedOver(r.0.journal) == HandedOver(s.journal) || Stalled(r.0.journal) || s.raised)
            && (Stalled(s.journal) ==> Stalled(r.0.journal))
  {
    hide Expand;
    var job := s.tables.jobs[id].job;
    var s1 := Emit(s, Marked(id, Printing));
    EmitMoves(s, Marked(id, Printing));
    var already := PrintedLabels(s1.tables, id);
    PlanMoves(env, s1, job, already, |job.labels|);
    var r := PlanLabels(env, s1, job, already, |job.labels|);
    QuietlyThen(s, s1, r.0);
    Appended(r.0.journal, Planned(id, r.1));
    SameTail(HandedOver(r.0.journal), HandedOver(s.journal), s.buffer.pending);
    assert HandedOver(r.0.journal) + [] == HandedOver(r.0.journal);
  }

  lemma SameTail(a: seq<PendingLabel>, b: seq<PendingLabel>, tail: seq<PendingLabel>)
    ensures a + tail == b + tail + [] ==> a == b
  {
    if a + tail == b + tail + [] {
      assert b + tail + [] == b + tail;
      assert |a| == |b|;
      forall i | 0 <= i < |a| ensures a[i] == b[i] {
        assert (a + tail)[i] == a[i] && (b + tail)[i] == b[i];
      }
    }
  }

  lemma {:induction false} TotalAtLeast(d: map<nat, nat>, n: nat, i: nat)
    requires i < n
    ensures Total(d, n) >= Get(d, i)
  {
    if i < n - 1 {
      TotalAtLeast(d, n - 1, i);
    }
  }

  lemma NothingAsked(id: JobId, job: PrintJob, plan: seq<Decision>)
    requires |plan| == |job.labels| && Total(FreshAcc(job, plan).expected, |plan|) == 0
    ensures Expand(id, plan) == []
  {
    if Expand(id, plan) != [] {
      var c := Expand(id, plan)[0];
      ExpandCounts(id, plan, c.index);
      CountMentioned(Expand(id, plan), c);
      TotalAtLeast(FreshAcc(job, plan).expected, |plan|, c.index);
    }
  }

  lemma DiscreteMoves(env: Env, s: State, id: JobId, todo: seq<PendingLabel>)
    ensures Moved(s, RunDiscrete(env, Flush(env, s), id, todo), todo)
    ensures s.raised ==> RunDiscrete(env, Flush(env, s), id, todo).raised
  {
    hide Moved, Flush, RunDiscrete;
    FlushMoves(env, s);
    FlushEmpties(env, s);
    RunDiscreteMoves(env, Flush(env, s), id, todo);
    MovedThen(s, Flush(env, s), RunDiscrete(env, Flush(env, s), id, todo), [], todo);
    assert [] + todo == todo;
  }

  /** After planning, `submit` moves the copies it planned. */
  lemma SubmitMoves(env: Env, s: State, id: JobId)
    requires id in s.tables.jobs && !WrongModel(s.tables.jobs[id].job) && !s.raised
    ensures var r := Prepare(env, s, id); Moved(r.0, Submit(env, s, id), Expand(id, r.1)) && !r.0.raised
  {
    hide Moved, Prepare, RunDiscrete, Flush, BufferCopies, Conclude, Expand;
    var job := s.tables.jobs[id].job;
    PrepareAsks(env, s, id);
    PreparedAcc(env, s, id);
    var r := Prepare(env, s, id);
    var todo := Expand(id, r.1);
    if Total(r.0.acc[id].expected, |job.labels|) == 0 {
      NothingAsked(id, job, r.1);
      ConcludeMoves(r.0.(acc := r.0.acc - {id}), id, ResultOf(r.0.acc[id]));
      MovedFrom(r.0, r.0.(acc := r.0.acc - {id}), Finalize(r.0, id));
    } else if IsDiscrete(env.cfg, job) {
      DiscreteMoves(env, r.0, id, todo);
    } else {
      BufferCopiesMoves(env, r.0, id, todo, job.flush || AsStrip(env.cfg, job));
    }
  }

  lemma SubmitOrder(env: Env, s: State, id: JobId)
    ensures !s.raised ==> KeepsOrder(s, Submit(env, s, id))
  {
    hide Moved, KeepsOrder, Submit, Conclude;
    if id !in s.tables.jobs {
      RaisedKeepsOrder(s);
      assert Submit(env, s, id) == s.(raised := true) by { SubmitCases(env, s, id); }
    } else if !s.raised {
      var job := s.tables.jobs[id].job;
      if WrongModel(job) {
        SubmitCases(env, s, id);
        ConcludeMoves(s, id, Rejection(job));
        MovedKeepsOrder(s, Conclude(s, id, Rejection(job)));
      } else {
        PrepareAsks(env, s, id);
        SubmitMoves(env, s, id);
        AskedThenMoved(s, Prepare(env, s, id).0, Submit(env, s, id), Expand(id, Prepare(env, s, id).1));
      }
    }
  }

  lemma SubmitCases(env: Env, s: State, id: JobId)
    ensures id !in s.tables.jobs ==> Submit(env, s, id) == s.(raised := true)
    ensures id in s.tables.jobs && WrongModel(s.tables.jobs[id].job) ==>
              Submit(env, s, id) == Conclude(s, id, Rejection(s.tables.jobs[id].job))
  {
  }

  lemma PrepareKeepsNames(env: Env, s: State, id: JobId)
    requires id in s.tables.jobs && RowsNamed(s.tables)
    ensures RowsNamed(Prepare(env, s, id).0.tables)
  {
    var job := s.tables.jobs[id].job;
    var s1 := Emit(s, Marked(id, Printing));
    PlanMoves(env, s1, job, PrintedLabels(s1.tables, id), |job.labels|);
  }

  lemma SubmitKeepsNames(env: Env, s: State, id: JobId)
    requires RowsNamed(s.tables) && !s.raised
    ensures RowsNamed(Submit(env, s, id).tables)
  {
    hide Submit, Prepare;
    SubmitCases(env, s, id);
    if id in s.tables.jobs && !WrongModel(s.tables.jobs[id].job) {
      PrepareKeepsNames(env, s, id);
      SubmitMoves(env, s, id);
    }
  }

  lemma RaisedKeepsOrder(s: State)
    ensures KeepsOrder(s, s.(raised := true))
  {
  }

  lemma MovedFrom(s: State, s0: State, s1: State)
    requires s0.journal == s.journal && s0.tables == s.tables && s0.buffer == s.buffer && Moved(s0, s1, [])
    ensures Moved(s, s1, [])
  {
  }

  lemma PreparedAcc(env: Env, s: State, id: JobId)
    requires id in s.tables.jobs
    ensures var r := Prepare(env, s, id);
            id in r.0.acc && r.0.acc[id] == FreshAcc(s.tables.jobs[id].job, r.1) && |r.1| == |s.tables.jobs[id].job.labels|
  {
  }

  lemma InvIsUnraised(s: State)
    requires Inv(s, [])
    ensures !s.raised
  {
  }
}
