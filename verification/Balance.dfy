/** Copies are conserved, whatever the row of a submitted job says: it need only not be in flight. */
module Balance {
  import opened Basics
  import opened Contract
  import opened Spool
  import opened PrintLoop
  import opened History
  import opened PrintLoopInvariant
  import opened PrintLoopSteps
  import opened PrintLoopJournal
  import opened EveryRun
  import opened PrintLoopRuns
  import opened PrintLoopLimits

  /** Done, failed and still out make up what is expected, label by label. */
  ghost predicate AddsUp(a: JobAcc, out: seq<PendingLabel>, id: JobId) {
    && (forall i: nat :: Get(a.done, i) + Get(a.failed, i) + Count(out, id, i) == Expected(a, i))
    && forall i :: i in a.expected ==> i < |a.job.labels|
  }

  ghost predicate IsPrinting(t: Tables, id: JobId) {
    id in t.jobs && t.jobs[id].state == Printing
  }

  /** Every tally adds up, its row says printing, and every copy out belongs to a tally. */
  ghost predicate Balanced(s: State, out: seq<PendingLabel>) {
    && (forall id :: id in s.acc ==> AddsUp(s.acc[id], out, id) && IsPrinting(s.tables, id))
    && forall c :: c in out ==> c.job in s.acc
  }

  /** The accounts, with `todo` copies of the job being submitted still to come. */
  ghost predicate Even(s: State, todo: seq<PendingLabel>) {
    Balanced(s, s.buffer.pending + todo) && Unsettled(s) && !s.raised
  }

  // --- when a tally is complete -----------------------------------------------

  lemma CountIsNone(out: seq<PendingLabel>, id: JobId, i: nat)
    requires !Mentions(out, id)
    ensures Count(out, id, i) == 0
  {
    if Count(out, id, i) > 0 {
      var c := CountWitness(out, id, i);
    }
  }

  lemma CopyIsExpected(a: JobAcc, out: seq<PendingLabel>, c: PendingLabel)
    requires AddsUp(a, out, c.job) && c in out
    ensures c.index < |a.job.labels|
  {
    CountMentioned(out, c);
    assert c.index in a.expected;
  }

  lemma CompleteIffNoneOut(a: JobAcc, out: seq<PendingLabel>, id: JobId)
    requires AddsUp(a, out, id)
    ensures Complete(a) <==> !Mentions(out, id)
  {
    TotalsAdd(a, out, id, |a.job.labels|);
    if Mentions(out, id) {
      var c :| c in out && c.job == id;
      CopyIsExpected(a, out, c);
      CountMentioned(out, c);
    } else {
      forall i: nat ensures Count(out, id, i) == 0 {
        CountIsNone(out, id, i);
      }
    }
  }

  // --- sending and settling ---------------------------------------------------

  /** A send touches nothing but the journal. */
  lemma {:induction false} AttemptsAddToJournal(env: Env, s: State, copies: seq<PendingLabel>, strip: bool, attempt: nat)
    ensures var s1 := SendFrom(env, s, copies, strip, attempt).0; s1 == s.(journal := s1.journal)
    decreases env.cfg.maxAttempts - attempt
  {
    if attempt < env.cfg.maxAttempts {
      AttemptsAddToJournal(env, Emit(s, Tried(copies, strip, env.link(|s.journal|))), copies, strip, attempt + 1);
    }
  }

  lemma SendAddsToJournal(env: Env, s: State, copies: seq<PendingLabel>, strip: bool)
    ensures var s1 := Send(env, s, copies, strip).0; s1 == s.(journal := s1.journal)
  {
    AttemptsAddToJournal(env, s, copies, strip, 0);
  }

  /** From s to s1 only jobs these copies belong to changed their tallies. */
  ghost predicate OthersKeep(s: State, s1: State, labels: seq<PendingLabel>) {
    && s1.acc.Keys == s.acc.Keys && s1.buffer == s.buffer && !s1.raised
    && forall id :: id in s.acc && !Mentions(labels, id) ==> s1.acc[id] == s.acc[id]
  }

  lemma SettledAddsUp(a: JobAcc, b: JobAcc, pl: PendingLabel, rest: seq<PendingLabel>, ok: bool, strip: bool, id: JobId)
    requires AddsUp(a, [pl] + rest, id) && AccSettled(a, b, [pl], ok, strip, id)
    ensures AddsUp(b, rest, id)
  {
    forall i: nat ensures Count([pl] + rest, id, i) == Count([pl], id, i) + Count(rest, id, i) {
      CountConcat([pl], rest, id, i);
    }
  }

  lemma OneSettled(s: State, pl: PendingLabel, ok: bool, strip: bool)
    requires pl.job in s.acc
    ensures var s1 := SettleOne(s, pl, ok, strip);
            && s1.acc.Keys == s.acc.Keys && s1.tables.jobs == s.tables.jobs && s1.buffer == s.buffer && s1.raised == s.raised
            && (forall id :: id in s.acc ==> AccSettled(s.acc[id], s1.acc[id], [pl], ok, strip, id))
            && (forall id :: id in s.acc && id != pl.job ==> s1.acc[id] == s.acc[id])
  {
    hide AccSettled;
    CreditAccs(s, pl, strip);
    AccOne(s.acc[pl.job], pl, ok, strip);
    forall id | id in s.acc && id != pl.job ensures AccSettled(s.acc[id], s.acc[id], [pl], ok, strip, id) {
      AccUntouched(s.acc[id], [pl], ok, strip, id);
    }
  }

  lemma SettleOneBalanced(s: State, pl: PendingLabel, rest: seq<PendingLabel>, ok: bool, strip: bool)
    requires Balanced(s, [pl] + rest) && !s.raised
    ensures var s1 := SettleOne(s, pl, ok, strip); Balanced(s1, rest) && OthersKeep(s, s1, [pl])
  {
    hide AddsUp, AccSettled, SettleOne;
    assert pl in [pl] + rest && pl in [pl];
    OneSettled(s, pl, ok, strip);
    var s1 := SettleOne(s, pl, ok, strip);
    forall id | id in s1.acc ensures AddsUp(s1.acc[id], rest, id) {
      SettledAddsUp(s.acc[id], s1.acc[id], pl, rest, ok, strip, id);
    }
    assert forall c :: c in rest ==> c in [pl] + rest;
  }

  lemma {:induction false} SettleAllBalanced(s: State, labels: seq<PendingLabel>, rest: seq<PendingLabel>, ok: bool, strip: bool)
    requires Balanced(s, labels + rest) && !s.raised
    ensures var s1 := SettleAll(s, labels, ok, strip); Balanced(s1, rest) && OthersKeep(s, s1, labels)
    decreases |labels|
  {
    if labels == [] {
      assert labels + rest == rest;
    } else {
      hide Balanced, SettleOne, OthersKeep;
      var pl, left := labels[0], labels[1..];
      assert labels + rest == [pl] + (left + rest) && labels == [pl] + left;
      SettleOneBalanced(s, pl, left + rest, ok, strip);
      var s1 := SettleOne(s, pl, ok, strip);
      NotRaisedAfter(s, s1, [pl]);
      SettleAllBalanced(s1, left, rest, ok, strip);
      OthersKeepThen(s, s1, SettleAll(s1, left, ok, strip), [pl], left);
    }
  }

  lemma NotRaisedAfter(s: State, s1: State, labels: seq<PendingLabel>)
    requires OthersKeep(s, s1, labels)
    ensures !s1.raised
  {
  }

  lemma OthersKeepThen(s: State, s1: State, s2: State, a: seq<PendingLabel>, b: seq<PendingLabel>)
    requires OthersKeep(s, s1, a) && OthersKeep(s1, s2, b)
    ensures OthersKeep(s, s2, a + b)
  {
    assert forall c :: c in a || c in b ==> c in a + b;
  }

  // --- leaving the flight -----------------------------------------------------

  lemma FinalizeBalanced(s: State, out: seq<PendingLabel>, id: JobId)
    requires Balanced(s, out) && !s.raised && id in s.acc && Complete(s.acc[id])
    ensures var s1 := Finalize(s, id); Balanced(s1, out) && s1.acc == s.acc - {id} && s1.buffer == s.buffer && !s1.raised
  {
    hide Complete, ResultOf;
    CompleteIffNoneOut(s.acc[id], out, id);
  }

  /** The tallies left are as they were, and those that left were complete. */
  ghost predicate FewerOf(s: State, s1: State, ids: seq<JobId>) {
    && s1.buffer == s.buffer && !s1.raised
    && (forall id :: id in s1.acc ==> id in s.acc && s1.acc[id] == s.acc[id] && !(id in ids && Complete(s.acc[id])))
    && (forall id :: id in s.acc && id !in s1.acc ==> Complete(s.acc[id]))
  }

  lemma {:induction false} FinalizeEachBalanced(s: State, out: seq<PendingLabel>, ids: seq<JobId>)
    requires Balanced(s, out) && !s.raised
    ensures var s1 := FinalizeEach(s, ids); Balanced(s1, out) && FewerOf(s, s1, ids)
    decreases |ids|
  {
    hide Balanced, Complete;
    if ids != [] {
      if ids[0] in s.acc && Complete(s.acc[ids[0]]) {
        FinalizeBalanced(s, out, ids[0]);
      }
      FinalizeEachBalanced(MaybeFinalize(s, ids[0]), out, ids[1..]);
      assert ids == [ids[0]] + ids[1..];
    }
  }

  ghost predicate TalliesHold(s: State, out: seq<PendingLabel>) {
    forall id :: id in s.acc ==> AddsUp(s.acc[id], out, id) && IsPrinting(s.tables, id)
  }

  lemma {:induction false} StallEachBalanced(s: State, out: seq<PendingLabel>, ids: seq<JobId>, now: real)
    requires TalliesHold(s, out)
    ensures var s1 := StallEach(s, ids, now);
            && TalliesHold(s1, out) && Without(s.acc, s1.acc, ids) && s1.buffer == s.buffer && s1.raised == s.raised
    decreases |ids|
  {
    if ids != [] {
      var s1 := StallOne(s, ids[0], now);
      StallEachBalanced(s1, out, ids[1..], now);
      assert forall id :: id in ids <==> id == ids[0] || id in ids[1..];
    }
  }

  /** The jobs of an unsent strip leave, with all their copies if none is still to come. */
  lemma StallBalanced(s: State, labels: seq<PendingLabel>, rest: seq<PendingLabel>, now: real)
    requires Balanced(s, labels + rest) && Unsettled(s)
    ensures var s1 := StallEach(s, JobIds(labels), now);
            && Leaves(s, s1, labels) && s1.buffer == s.buffer && s1.raised == s.raised
            && ((forall c :: c in rest ==> c.job in s1.acc) ==> Balanced(s1, rest) && Unsettled(s1))
  {
    hide JobIds, StallEach, AddsUp, Complete;
    StallEachBalanced(s, labels + rest, JobIds(labels), now);
    var s1 := StallEach(s, JobIds(labels), now);
    WithoutMentioned(s.acc, s1.acc, labels);
    forall id | id in s1.acc ensures AddsUp(s1.acc[id], rest, id) {
      WithoutTheseCopies(s1.acc[id], labels, rest, id);
    }
  }

  lemma WithoutTheseCopies(a: JobAcc, labels: seq<PendingLabel>, rest: seq<PendingLabel>, id: JobId)
    requires AddsUp(a, labels + rest, id) && !Mentions(labels, id)
    ensures AddsUp(a, rest, id)
  {
    forall i: nat ensures Count(labels + rest, id, i) == Count(rest, id, i) {
      CountConcat(labels, rest, id, i);
      CountIsNone(labels, id, i);
    }
  }

  // --- printing ---------------------------------------------------------------

  lemma SettledStripBalanced(s: State, labels: seq<PendingLabel>, rest: seq<PendingLabel>, ok: bool)
    requires Balanced(s, labels + rest) && Unsettled(s) && !s.raised
    ensures var s1 := SettleAll(s, labels, ok, true); var s2 := FinalizeEach(s1, JobIds(labels));
            && !s1.raised && Balanced(s2, rest) && Unsettled(s2) && s2.buffer == s.buffer && !s2.raised
            && Leaves(s, s2, labels)
  {
    hide Balanced, SettleAll, FinalizeEach, Complete;
    SettleAllBalanced(s, labels, rest, ok, true);
    FinalizeEachBalanced(SettleAll(s, labels, ok, true), rest, JobIds(labels));
  }

  lemma PrintStripBalanced(env: Env, s: State, labels: seq<PendingLabel>, rest: seq<PendingLabel>)
    requires Balanced(s, labels + rest) && Unsettled(s) && !s.raised
    ensures var s1 := PrintStrip(env, s, labels);
            && Leaves(s, s1, labels) && s1.buffer == s.buffer && !s1.raised
            && ((forall c :: c in rest ==> c.job in s1.acc) ==> Balanced(s1, rest) && Unsettled(s1))
  {
    hide Send, SettleAll, FinalizeEach, StallEach, JobIds, AddsUp, Complete;
    SendAddsToJournal(env, s, labels, true);
    var r := Send(env, s, labels, true);
    if !r.1.ok && !r.1.wrote {
      StallBalanced(r.0, labels, rest, env.now);
    } else {
      SettledStripBalanced(r.0, labels, rest, r.1.ok);
    }
  }

  /** A flush keeps the accounts, unless it stalls a job that has copies still to come. */
  lemma FlushEven(env: Env, s: State, todo: seq<PendingLabel>)
    requires Even(s, todo)
    ensures var s1 := Flush(env, s);
            && Leaves(s, s1, s.buffer.pending) && !s1.raised && s1.buffer.pending == []
            && ((forall c :: c in todo ==> c.job in s1.acc) ==> Even(s1, todo))
  {
    hide PrintStrip, AddsUp, Complete;
    FlushEmpties(env, s);
    if s.buffer.pending != [] {
      PrintStripBalanced(env, s.(buffer := EMPTY_BUFFER), s.buffer.pending, todo);
      assert [] + todo == todo;
    }
  }

  lemma FlushOthersEven(env: Env, s: State, todo: seq<PendingLabel>)
    requires Even(s, todo) && forall c :: c in todo ==> !Mentions(s.buffer.pending, c.job)
    ensures var s1 := Flush(env, s); Even(s1, todo) && s1.buffer.pending == [] && Leaves(s, s1, s.buffer.pending)
  {
    hide AddsUp, Complete, Flush;
    FlushEven(env, s, todo);
    assert forall c :: c in todo ==> c in s.buffer.pending + todo;
  }

  lemma RebufferEven(s: State, b: Buffer, todo: seq<PendingLabel>, left: seq<PendingLabel>)
    requires Even(s, todo) && s.buffer.pending + todo == b.pending + left
    ensures Even(s.(buffer := b), left)
  {
  }

  lemma AddOneEven(env: Env, s: State, id: JobId, pl: PendingLabel, rest: seq<PendingLabel>)
    requires Even(s, [pl] + rest) && OfJob([pl] + rest, id) && Joinable(env, s, id)
    requires rest != [] ==> id in AddOne(env, s, pl).acc
    ensures var s1 := AddOne(env, s, pl); Even(s1, rest) && Joinable(env, s1, id)
  {
    hide Balanced, Flush, Complete;
    if !Accepts(s.buffer, env.cfg.tapeWidth) {
      FlushOthersEven(env, s, [pl] + rest);
    }
    var s1 := if Accepts(s.buffer, env.cfg.tapeWidth) then s else Flush(env, s);
    var b := AddTo(s1.buffer, pl, env.cfg.tapeWidth, env.now);
    assert s1.buffer.pending + ([pl] + rest) == b.pending + rest;
    RebufferEven(s1, b, [pl] + rest, rest);
    FlushEven(env, s1.(buffer := b), rest);
    assert forall c :: c in rest ==> c in [pl] + rest;
  }

  lemma EvenIsUnraised(s: State, todo: seq<PendingLabel>)
    requires Even(s, todo)
    ensures !s.raised
  {
  }

  lemma {:induction false} AddAllEven(env: Env, s: State, id: JobId, todo: seq<PendingLabel>)
    requires Even(s, todo) && OfJob(todo, id) && Joinable(env, s, id) && NoMidLoopStall(env, s, id, todo)
    ensures Even(AddAll(env, s, todo), [])
    decreases |todo|
  {
    hide Even, AddOne, Joinable;
    EvenIsUnraised(s, todo);
    if todo != [] {
      var pl, rest := todo[0], todo[1..];
      assert todo == [pl] + rest;
      AddOneEven(env, s, id, pl, rest);
      AddAllEven(env, AddOne(env, s, pl), id, rest);
    }
  }

  lemma BufferCopiesEven(env: Env, s: State, id: JobId, todo: seq<PendingLabel>, flush: bool)
    requires Even(s, todo) && OfJob(todo, id) && Joinable(env, s, id) && NoMidLoopStall(env, s, id, todo)
    ensures Even(BufferCopies(env, s, id, todo, flush), [])
  {
    hide Balanced, AddAll, Flush, Complete, Joinable, NoMidLoopStall;
    AddAllEven(env, s, id, todo);
    FlushEven(env, AddAll(env, s, todo), []);
  }

  /** The discrete loop, with nothing pending and these copies of one job to come. */
  lemma {:induction false} RunDiscreteEven(env: Env, s: State, id: JobId, todo: seq<PendingLabel>)
    requires Balanced(s, todo) && OfJob(todo, id) && s.buffer.pending == [] && !s.raised && id in s.acc
    requires forall k :: k in s.acc && k != id ==> !Complete(s.acc[k])
    ensures Even(RunDiscrete(env, s, id, todo), [])
    decreases |todo|
  {
    hide AddsUp, Complete, Send, SettleOne, StallEach, Finalize;
    if todo == [] {
      assert [] + todo == [];
      if Complete(s.acc[id]) {
        FinalizeBalanced(s, [], id);
      }
      assert s.buffer.pending + [] == [];
    } else {
      var pl, rest := todo[0], todo[1..];
      assert todo == [pl] + rest && pl.job == id;
      SendAddsToJournal(env, s, [pl], false);
      var r := Send(env, s, [pl], false);
      if !r.1.ok && !r.1.wrote {
        StalledAlone(r.0, id, todo, env.now);
      } else {
        SettleOneBalanced(r.0, pl, rest, r.1.ok, false);
        var s1 := SettleOne(r.0, pl, r.1.ok, false);
        forall k | k in s1.acc && k != id ensures !Complete(s1.acc[k]) {
          assert !Mentions([pl], k);
        }
        RunDiscreteEven(env, s1, id, rest);
      }
    }
  }

  lemma StalledAlone(s: State, id: JobId, todo: seq<PendingLabel>, now: real)
    requires Balanced(s, todo) && OfJob(todo, id) && s.buffer.pending == [] && !s.raised
    requires forall k :: k in s.acc && k != id ==> !Complete(s.acc[k])
    ensures Even(StallEach(s, [id], now), [])
  {
    hide AddsUp, Complete;
    assert [id][1..] == [];
    var s1 := StallOne(s, id, now);
    assert StallEach(s1, [], now) == s1;
    assert StallEach(s, [id], now) == s1;
    assert todo + [] == todo;
    forall k | k in s1.acc ensures AddsUp(s1.acc[k], [], k) {
      WithoutTheseCopies(s1.acc[k], todo, [], k);
    }
    assert s1.buffer.pending + [] == [];
  }

  // --- taking a job on --------------------------------------------------------

  lemma {:induction false} PlanKeepsRows(env: Env, s: State, job: PrintJob, already: set<nat>, n: nat)
    requires n <= |job.labels|
    ensures var s1 := PlanLabels(env, s, job, already, n).0;
            s1.tables.jobs == s.tables.jobs && s1.acc == s.acc && s1.buffer == s.buffer && s1.raised == s.raised
  {
    if n > 0 {
      PlanKeepsRows(env, s, job, already, n - 1);
    }
  }

  lemma PrepareRows(env: Env, s: State, id: JobId)
    requires id in s.tables.jobs
    ensures var r := Prepare(env, s, id);
            && r.0.tables.jobs == s.tables.jobs[id := s.tables.jobs[id].(state := Printing)]
            && r.0.acc == s.acc[id := FreshAcc(s.tables.jobs[id].job, r.1)]
            && r.0.buffer == s.buffer && r.0.raised == s.raised && |r.1| == |s.tables.jobs[id].job.labels|
  {
    hide FreshAcc;
    var s1 := Emit(s, Marked(id, Printing));
    PlanKeepsRows(env, s1, s.tables.jobs[id].job, PrintedLabels(s1.tables, id), |s.tables.jobs[id].job.labels|);
  }

  lemma FreshAddsUp(job: PrintJob, plan: seq<Decision>, before: seq<PendingLabel>, id: JobId)
    requires |plan| == |job.labels| && !Mentions(before, id)
    ensures AddsUp(FreshAcc(job, plan), before + Expand(id, plan), id)
  {
    var a := FreshAcc(job, plan);
    forall i: nat ensures Count(before + Expand(id, plan), id, i) == Expected(a, i) {
      CountConcat(before, Expand(id, plan), id, i);
      CountIsNone(before, id, i);
      ExpandCounts(id, plan, i);
    }
  }

  /** Planning a job that is not in flight leaves all its copies to come. */
  lemma PrepareBalanced(env: Env, s: State, id: JobId)
    requires Even(s, []) && id in s.tables.jobs && id !in s.acc
    ensures var r := Prepare(env, s, id);
            && Balanced(r.0, s.buffer.pending + Expand(id, r.1)) && OfJob(Expand(id, r.1), id) && !Mentions(s.buffer.pending, id)
            && r.0.acc == s.acc[id := FreshAcc(s.tables.jobs[id].job, r.1)] && r.0.buffer == s.buffer && !r.0.raised
            && |r.1| == |s.tables.jobs[id].job.labels|
  {
    hide Prepare, Complete, AddsUp, FreshAcc, Expand;
    PrepareRows(env, s, id);
    var r := Prepare(env, s, id);
    var pending, copies := s.buffer.pending, Expand(id, r.1);
    assert pending + [] == pending;
    ExpandCounts(id, r.1, 0);
    FreshAddsUp(s.tables.jobs[id].job, r.1, pending, id);
    forall k | k in s.acc ensures AddsUp(s.acc[k], pending + copies, k) {
      AddsOthers(s.acc[k], pending, copies, id, k);
    }
  }

  lemma AddsOthers(a: JobAcc, pending: seq<PendingLabel>, copies: seq<PendingLabel>, id: JobId, k: JobId)
    requires AddsUp(a, pending, k) && OfJob(copies, id) && k != id
    ensures AddsUp(a, pending + copies, k)
  {
    forall i: nat ensures Count(pending + copies, k, i) == Count(pending, k, i) {
      CountConcat(pending, copies, k, i);
      CountIsNone(copies, k, i);
    }
  }

  lemma NothingToPrintEven(s: State, s1: State, id: JobId, out: seq<PendingLabel>)
    requires Balanced(s, out) && !s.raised && id in s.acc && s1 == Finalize(s, id) && Complete(s.acc[id])
    requires forall k :: k in s.acc && k != id ==> !Complete(s.acc[k])
    requires s.buffer.pending <= out && OfJob(out[|s.buffer.pending|..], id)
    ensures Even(s1, [])
  {
    hide AddsUp, Complete;
    var rest := out[|s.buffer.pending|..];
    assert out == s.buffer.pending + rest;
    assert forall c :: c in rest ==> c in out;
    assert rest == [] || rest[0] in rest;
    FinalizeBalanced(s, out, id);
    assert out == s.buffer.pending + [];
  }

  /** `submit` of a job that is not in flight keeps the accounts, whatever its row says. */
  lemma SubmitEven(env: Env, s: State, id: JobId)
    requires Even(s, []) && id in s.tables.jobs && id !in s.acc && LinkHolds(env, s, id)
    ensures Even(Submit(env, s, id), [])
  {
    hide AddsUp, Complete, Prepare, RunDiscrete, BufferCopies, Flush, Finalize, NoMidLoopStall, Expand, Total;
    var job := s.tables.jobs[id].job;
    if !WrongModel(job) {
      PrepareBalanced(env, s, id);
      var r := Prepare(env, s, id);
      var todo := Expand(id, r.1);
      if Total(r.0.acc[id].expected, |job.labels|) == 0 {
        FreshIsComplete(job, r.1);
        assert (s.buffer.pending + todo)[|s.buffer.pending|..] == todo;
        NothingToPrintEven(r.0, Finalize(r.0, id), id, s.buffer.pending + todo);
      } else {
        FreshIsUnsettled(job, r.1);
        if IsDiscrete(env.cfg, job) {
          FlushOthersEven(env, r.0, todo);
          var s1 := Flush(env, r.0);
          assert [] + todo == todo;
          RunDiscreteEven(env, s1, id, todo);
        } else {
          BufferCopiesEven(env, r.0, id, todo, job.flush || AsStrip(env.cfg, job));
        }
      }
    }
  }

  lemma FreshIsComplete(job: PrintJob, plan: seq<Decision>)
    requires Total(FreshAcc(job, plan).expected, |job.labels|) == 0
    ensures Complete(FreshAcc(job, plan))
  {
  }

  // --- every call -------------------------------------------------------------

  /** May this job be submitted? It is not in flight, and if it is there at all no flush stalls
      it inside its own buffering loop. Its row may say anything. */
  ghost predicate Free(env: Env, s: State, id: JobId) {
    id !in s.acc && (id in s.tables.jobs ==> LinkHolds(env, s, id))
  }

  ghost predicate EachFree(env: Env, s: State, ids: seq<JobId>)
    decreases |ids|
  {
    ids != [] ==> Free(env, s, ids[0]) && EachFree(env, Submit(env, s, ids[0]).(raised := false), ids[1..])
  }

  ghost predicate EachRetryFree(env: Env, s: State, ids: seq<JobId>)
    decreases |ids|
  {
    ids != [] ==>
      if Due(env, s, ids[0]) then
        var s0 := s.(stalled := s.stalled[ids[0] := env.now]);
        Free(env, s0, ids[0]) && EachRetryFree(env, Submit(env, s0, ids[0]).(raised := false), ids[1..])
      else EachRetryFree(env, s, ids[1..])
  }

  /** Does this call submit free jobs only? */
  ghost predicate Orderly(env: Env, s: State, op: Op) {
    match op
    case SubmitOp(id) => Free(env, s, id)
    case TickOp =>
      var s1 := if IdleExpired(env.cfg, s.buffer, env.now) then Flush(env, s) else s;
      EachRetryFree(env, s1, QueuedIds(s1.tables))
    case RecoverOp => EachFree(env, s, QueuedIds(s.tables))
    case _ => true
  }

  lemma FreeSubmitEven(env: Env, s: State, id: JobId)
    requires Even(s, []) && Free(env, s, id)
    ensures Even(Submit(env, s, id).(raised := false), [])
  {
    hide Balanced, Submit, LinkHolds;
    if id in s.tables.jobs {
      SubmitEven(env, s, id);
      Lowered(Submit(env, s, id));
    } else {
      SubmitCases(env, s, id);
      Lowered(s);
    }
  }

  lemma Lowered(s: State)
    requires Even(s, [])
    ensures Even(s.(raised := false), [])
  {
  }

  lemma {:induction false} SubmitEachEven(env: Env, s: State, ids: seq<JobId>)
    requires Even(s, []) && EachFree(env, s, ids)
    ensures Even(SubmitEach(env, s, ids), [])
    decreases |ids|
  {
    if ids != [] {
      hide Even, Submit, Free;
      FreeSubmitEven(env, s, ids[0]);
      SubmitEachEven(env, Submit(env, s, ids[0]).(raised := false), ids[1..]);
    }
  }

  lemma StampedEven(s: State, stalled: map<JobId, real>)
    requires Even(s, [])
    ensures Even(s.(stalled := stalled), [])
  {
  }

  lemma {:induction false} RetryEachEven(env: Env, s: State, ids: seq<JobId>)
    requires Even(s, []) && EachRetryFree(env, s, ids)
    ensures Even(RetryEach(env, s, ids), [])
    decreases |ids|
  {
    if ids != [] {
      hide Even, Submit, Free;
      if Due(env, s, ids[0]) {
        var s0 := s.(stalled := s.stalled[ids[0] := env.now]);
        StampedEven(s, s0.stalled);
        FreeSubmitEven(env, s0, ids[0]);
        RetryEachEven(env, Submit(env, s0, ids[0]).(raised := false), ids[1..]);
      } else {
        RetryEachEven(env, s, ids[1..]);
      }
    }
  }

  lemma OnMessageEven(env: Env, s: State, d: Delivery, fault: IntakeFault)
    requires Even(s, [])
    ensures Even(OnMessage(env, s, d, fault), [])
  {
    hide FindKey, DuplicateReply, AddsUp, Complete;
  }

  lemma CallEven(env: Env, s: State, op: Op)
    requires Even(s, []) && Orderly(env, s, op)
    ensures Even(Do(env, s, op).(raised := false), [])
  {
    hide Balanced, Submit, Flush, SubmitEach, RetryEach, OnMessage, QueuedIn, EachFree, EachRetryFree, Free;
    match op
    case SubmitOp(id) => FreeSubmitEven(env, s, id);
    case FlushOp => FlushEven(env, s, []);
    case TickOp =>
      FlushEven(env, s, []);
      var s1 := if IdleExpired(env.cfg, s.buffer, env.now) then Flush(env, s) else s;
      RetryEachEven(env, s1, QueuedIds(s1.tables));
    case RecoverOp => SubmitEachEven(env, s, QueuedIds(s.tables));
    case MessageOp(d, fault) => OnMessageEven(env, s, d, fault);
  }

  /** The invariant of `PrintLoopInvariant` includes the accounts. */
  lemma InvIsEven(s: State)
    requires Inv(s, [])
    ensures Even(s, [])
  {
    hide SoundJournal, Replay, Tallied;
    forall id | id in s.acc ensures AddsUp(s.acc[id], s.buffer.pending + [], id) && IsPrinting(s.tables, id) {
      TalliedAddsUp(s.journal, s.tables, s.acc[id], s.buffer.pending + [], id);
    }
  }

  lemma TalliedAddsUp(h: seq<Event>, t: Tables, a: JobAcc, out: seq<PendingLabel>, id: JobId)
    requires Tallied(h, t, a, out, id)
    ensures AddsUp(a, out, id) && IsPrinting(t, id)
  {
  }

  // --- exactly when a strip job's copies are conserved ------------------------

  lemma NoTriggerIsEven(env: Env, s: State, id: JobId)
    requires Even(s, []) && id in s.tables.jobs && id !in s.acc && Accepts(s.buffer, env.cfg.tapeWidth)
    requires NoEarlyTrigger(env.cfg, s.buffer.pending, CopiesOf(env.cfg, env.now, s, id))
    ensures Even(Submit(env, s, id), [])
  {
    hide Balanced, Prepare, NoMidLoopStall, NoEarlyTrigger, Submit, Expand;
    if !WrongModel(s.tables.jobs[id].job) {
      PrepareIgnoresLink(env, Env(env.cfg, DeadLink, env.now), s, id);
      PrepareBalanced(env, s, id);
      NoTriggerNoStall(env, Prepare(env, s, id).0, id, CopiesOf(env.cfg, env.now, s, id));
    }
    SubmitEven(env, s, id);
  }

  lemma TriggerStrands(env: Env, s: State, id: JobId, k: nat)
    requires Even(s, []) && id in s.tables.jobs && id !in s.acc && Accepts(s.buffer, env.cfg.tapeWidth)
    requires !WrongModel(s.tables.jobs[id].job) && !IsDiscrete(env.cfg, s.tables.jobs[id].job) && env.cfg.maxAttempts > 0
    requires var copies := CopiesOf(env.cfg, env.now, s, id);
             && 0 < k < |copies| && IsFull(env.cfg, s.buffer.pending + copies[..k])
             && forall j :: 0 < j < k ==> !IsFull(env.cfg, s.buffer.pending + copies[..j])
    requires var at := |Prepare(env, s, id).0.journal|;
             env.link(at) == ConnectFailed(false) && forall n: nat :: n > at ==> env.link(n) == FramePrinted
    ensures !Even(Submit(env, s, id), [])
  {
    hide Balanced, Prepare, BufferCopies, Expand, AddsUp, Total;
    PrepareIgnoresLink(env, Env(env.cfg, DeadLink, env.now), s, id);
    PrepareBalanced(env, s, id);
    var r := Prepare(env, s, id);
    var job := s.tables.jobs[id].job;
    if Total(r.0.acc[id].expected, |job.labels|) == 0 {
      NothingAsked(id, job, r.1);
    }
    EarlyTriggerBreaks(env, r.0, id, Expand(id, r.1), job.flush || AsStrip(env.cfg, job), k);
    StrandedIsUneven(Submit(env, s, id));
  }

  lemma StrandedIsUneven(s: State)
    requires Stranded(s)
    ensures !Even(s, [])
  {
    assert s.buffer.pending + [] == s.buffer.pending;
  }

  /** For a strip job on the tape already in the buffer, whatever its row says, `submit`
      conserves copies whatever the link does if and only if no size trigger fires while
      copies are still to come. */
  lemma EvenForEveryLinkIff(cfg: Config, now: real, s: State, id: JobId)
    requires Even(s, []) && id in s.tables.jobs && id !in s.acc && cfg.maxAttempts > 0
    requires !WrongModel(s.tables.jobs[id].job) && !IsDiscrete(cfg, s.tables.jobs[id].job)
    requires Accepts(s.buffer, cfg.tapeWidth)
    ensures (forall link: nat -> Attempt :: Even(Submit(Env(cfg, link, now), s, id), []))
            <==> NoEarlyTrigger(cfg, s.buffer.pending, CopiesOf(cfg, now, s, id))
  {
    hide Even, Submit, Prepare;
    var copies := CopiesOf(cfg, now, s, id);
    if NoEarlyTrigger(cfg, s.buffer.pending, copies) {
      forall link: nat -> Attempt ensures Even(Submit(Env(cfg, link, now), s, id), []) {
        NoTriggerIsEven(Env(cfg, link, now), s, id);
      }
    } else {
      var n :| 0 < n < |copies| && IsFull(cfg, s.buffer.pending + copies[..n]);
      var k := FirstTrigger(cfg, s.buffer.pending, copies, n);
      var dead := Env(cfg, DeadLink, now);
      var at := |Prepare(dead, s, id).0.journal|;
      var link: nat -> Attempt := m => if m <= at then ConnectFailed(false) else FramePrinted;
      PrepareIgnoresLink(dead, Env(cfg, link, now), s, id);
      TriggerStrands(Env(cfg, link, now), s, id, k);
    }
  }

  // --- over every run ---------------------------------------------------------

  /** A run whose calls submit free jobs only. Nothing is asked of calls the process dies in. */
  ghost predicate OrderlyRun(states: seq<State>, steps: seq<Step>) {
    AnyRun(states, steps) && forall i :: 0 <= i < |steps| && steps[i].Call? ==> Orderly(steps[i].env, states[i], steps[i].op)
  }

  lemma RebootEven(h: seq<Event>)
    ensures Even(Reboot(h), [])
  {
  }

  lemma {:induction false} OrderlyRunEven(states: seq<State>, steps: seq<Step>, n: nat)
    requires OrderlyRun(states, steps) && n < |states|
    ensures Even(states[n], [])
  {
    hide Even, Orderly, Do, Reboot;
    if n == 0 {
      RebootEven([]);
    } else {
      OrderlyRunEven(states, steps, n - 1);
      var step := steps[n - 1];
      assert Leads(states[n - 1], step, states[n]);
      if step.Call? {
        CallEven(step.env, states[n - 1], step.op);
      } else {
        RebootEven(Do(step.env, states[n - 1], step.op).journal[..step.kept]);
      }
    }
  }

  /** In every state of every such run, stale retries of finished jobs included: each copy of
      each job in flight is done, failed or pending in the strip; the strip holds copies of
      jobs in flight only; every job in flight has a copy pending; and its row says so. */
  lemma CopiesConserved(states: seq<State>, steps: seq<Step>, n: nat)
    requires OrderlyRun(states, steps) && n < |states|
    ensures var s := states[n];
            && (forall id, i: nat :: id in s.acc ==>
                  Get(s.acc[id].done, i) + Get(s.acc[id].failed, i) + Count(s.buffer.pending, id, i)
                  == Get(s.acc[id].expected, i))
            && (forall c :: c in s.buffer.pending ==> c.job in s.acc && c.index < |s.acc[c.job].job.labels|)
            && (forall id :: id in s.acc <==> Mentions(s.buffer.pending, id))
            && (forall id :: id in s.acc ==> id in s.tables.jobs && s.tables.jobs[id].state == Printing)
  {
    hide OrderlyRun, Complete;
    OrderlyRunEven(states, steps, n);
    var s := states[n];
    assert s.buffer.pending + [] == s.buffer.pending;
    forall id | id in s.acc ensures Mentions(s.buffer.pending, id) {
      CompleteIffNoneOut(s.acc[id], s.buffer.pending, id);
    }
    forall c | c in s.buffer.pending ensures c.index < |s.acc[c.job].job.labels| {
      CopyIsExpected(s.acc[c.job], s.buffer.pending, c);
    }
  }

  // --- runs that keep to more -------------------------------------------------

  lemma {:induction false} RecoveryIsOrderly(env: Env, s: State, ids: seq<JobId>)
    requires Inv(s, []) && EachLinkHolds(env, s, ids)
    requires forall id :: id in ids ==> Submittable(s, id)
    requires forall i, k :: 0 <= i < k < |ids| ==> ids[i] != ids[k]
    ensures EachFree(env, s, ids)
    decreases |ids|
  {
    if ids != [] {
      hide Submit, LinkHolds, Conserved, Submittable;
      FreeIfSubmittable(env, s, ids[0]);
      SubmitKeeps(env, s, ids[0]);
      var s1 := Submit(env, s, ids[0]);
      NotRaised(s1);
      forall k | k in ids[1..] ensures Submittable(s1, k) {
        StillSubmittable(env, s, ids[0], k);
      }
      RecoveryIsOrderly(env, s1, ids[1..]);
    }
  }

  lemma FreeIfSubmittable(env: Env, s: State, id: JobId)
    requires Submittable(s, id) && (id in s.tables.jobs ==> LinkHolds(env, s, id))
    ensures Free(env, s, id)
  {
    hide LinkHolds;
  }

  lemma {:induction false} RetryIsOrderly(env: Env, s: State, ids: seq<JobId>)
    requires Inv(s, []) && EachRetryAllowed(env, s, ids)
    ensures EachRetryFree(env, s, ids)
    decreases |ids|
  {
    if ids != [] {
      hide Inv, Submit, LinkHolds, Submittable;
      if Due(env, s, ids[0]) {
        var s0 := s.(stalled := s.stalled[ids[0] := env.now]);
        StalledIsNoAccount(s, s0.stalled);
        FreeIfSubmittable(env, s0, ids[0]);
        SubmitKeeps(env, s0, ids[0]);
        NotRaised(Submit(env, s0, ids[0]));
        RetryIsOrderly(env, Submit(env, s0, ids[0]), ids[1..]);
      } else {
        RetryIsOrderly(env, s, ids[1..]);
      }
    }
  }

  /** Every run that keeps to the hypotheses of `PrintLoopRuns` is such a run. */
  lemma RunIsOrderly(states: seq<State>, steps: seq<Step>)
    requires Run(states, steps)
    ensures OrderlyRun(states, steps)
  {
    hide Inv, Allowed, Orderly, Leads, Reboot;
    RunIsAnyRun(states, steps);
    forall i | 0 <= i < |steps| ensures Orderly(steps[i].env, states[i], steps[i].op) {
      RunKeeps(states, steps, i);
      assert StepsTo(states[i], steps[i], states[i + 1]);
      AllowedIsOrderly(steps[i].env, states[i], steps[i].op);
    }
  }

  lemma AllowedIsOrderly(env: Env, s: State, op: Op)
    requires Inv(s, []) && Allowed(env, s, op)
    ensures Orderly(env, s, op)
  {
    hide Inv, Submit, Flush, LinkHolds, EachRetryAllowed, EachLinkHolds, Submittable, EachFree, EachRetryFree, Free, QueuedIn;
    match op
    case SubmitOp(id) => FreeIfSubmittable(env, s, id);
    case TickOp =>
      FlushAlone(env, s);
      var s1 := if IdleExpired(env.cfg, s.buffer, env.now) then Flush(env, s) else s;
      RetryIsOrderly(env, s1, QueuedIds(s1.tables));
    case RecoverOp =>
      QueuedTurns(s);
      RecoveryIsOrderly(env, s, QueuedIds(s.tables));
    case _ =>
  }
}
