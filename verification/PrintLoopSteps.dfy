/** The invariant over whole calls: discrete runs, submissions, retries, intake, crashes. */
module PrintLoopSteps {
  import opened Basics
  import opened Contract
  import opened Spool
  import opened PrintLoop
  import opened History
  import opened PrintLoopInvariant

  // --- the copies a plan asks for ---------------------------------------------

  function Asked(plan: seq<Decision>, i: nat): nat {
    if i < |plan| && plan[i].Print? then plan[i].copies else 0
  }

  lemma {:induction false} CountRepeat(pl: PendingLabel, n: nat, id: JobId, i: nat)
    ensures Count(Repeat(pl, n), id, i) == if pl.job == id && pl.index == i then n else 0
    decreases n
  {
    if n > 0 {
      CountRepeat(pl, n - 1, id, i);
      assert Repeat(pl, n)[1..] == Repeat(pl, n - 1);
    }
  }

  /** `Expand` asks for each label as often as it has copies, and for nothing else. */
  lemma {:induction false} ExpandCounts(id: JobId, plan: seq<Decision>, i: nat)
    ensures Count(Expand(id, plan), id, i) == Asked(plan, i)
    ensures forall c :: c in Expand(id, plan) ==> c.job == id && c.index < |plan|
    decreases |plan|
  {
    if plan != [] {
      var n := |plan| - 1;
      var first := Expand(id, plan[..n]);
      ExpandCounts(id, plan[..n], i);
      assert i < n ==> plan[..n][i] == plan[i];
      forall c | c in Expand(id, plan) ensures c.job == id && c.index < |plan| {
        assert c in first || c.index == n;
      }
      if plan[n].Print? {
        var last := Repeat(PendingLabel(id, n, plan[n].image), plan[n].copies);
        assert Expand(id, plan) == first + last;
        CountRepeat(PendingLabel(id, n, plan[n].image), plan[n].copies, id, i);
        CountConcat(first, last, id, i);
      } else {
        assert Expand(id, plan) == first;
      }
    }
  }

  /** Copies come label by label: never back to an earlier one. */
  lemma {:induction false} ExpandOrdered(id: JobId, plan: seq<Decision>)
    ensures var copies := Expand(id, plan);
            forall p, q :: 0 <= p < q < |copies| ==> copies[p].index <= copies[q].index < |plan|
    decreases |plan|
  {
    if plan != [] {
      ExpandOrdered(id, plan[..|plan| - 1]);
      ExpandCounts(id, plan[..|plan| - 1], 0);
    }
  }

  lemma NoneCounted(copies: seq<PendingLabel>, id: JobId, i: nat)
    requires forall c :: c in copies ==> c.index != i
    ensures Count(copies, id, i) == 0
  {
    if Count(copies, id, i) > 0 {
      var c := CountWitness(copies, id, i);
    }
  }

  // --- discrete runs ----------------------------------------------------------

  /** The invariant inside a discrete run, `todo` being what is left of the job. */
  ghost predicate Running(s: State, id: JobId, todo: seq<PendingLabel>) {
    && Conserved(s, todo)
    && id in s.acc
    && s.buffer.pending == []
    && forall k :: k in s.acc && k != id ==> !Complete(s.acc[k])
  }

  /** Of a label other than the next one, either nothing has been sent or nothing is left. */
  lemma SplitCounts(id: JobId, plan: seq<Decision>, k: nat, i: nat)
    requires k < |Expand(id, plan)| && i != Expand(id, plan)[k].index
    ensures Count(Expand(id, plan)[k..], id, i) == if i > Expand(id, plan)[k].index then Asked(plan, i) else 0
  {
    var copies := Expand(id, plan);
    ExpandOrdered(id, plan);
    ExpandCounts(id, plan, i);
    assert copies == copies[..k] + copies[k..];
    CountConcat(copies[..k], copies[k..], id, i);
    if i > copies[k].index {
      NoneCounted(copies[..k], id, i);
    } else {
      NoneCounted(copies[k..], id, i);
    }
  }

  lemma OtherAccounted(h: seq<Event>, t: Tables, a: JobAcc, id: JobId, k: nat, i: nat)
    requires k < |Expand(id, PlanOf(h, id))| && i != Expand(id, PlanOf(h, id))[k].index
    requires Tallied(h, t, a, Expand(id, PlanOf(h, id))[k..], id) && Good(h, id, i) > 0
    ensures (id, i) in t.printed || Lost(h, id, i) > 0
  {
    assert i in a.expected;
    SplitCounts(id, PlanOf(h, id), k, i);
  }

  /** At the start of a label's frame every other label with a copy on tape is accounted for. */
  lemma OthersAccounted(s: State, id: JobId, plan: seq<Decision>, k: nat)
    requires k < |Expand(id, plan)|
    requires Running(s, id, Expand(id, plan)[k..]) && PlanOf(s.journal, id) == plan
    ensures OthersCommitted(s.journal, id, Expand(id, plan)[k].index)
  {
    hide SoundJournal, Tallied, Expand;
    forall i: nat | i != Expand(id, plan)[k].index && Good(s.journal, id, i) > 0
      ensures (id, i) in s.tables.printed || Lost(s.journal, id, i) > 0
    {
      OtherAccounted(s.journal, s.tables, s.acc[id], id, k, i);
    }
  }

  lemma DiscreteIsSound(s: State, id: JobId, plan: seq<Decision>, k: nat)
    requires k < |Expand(id, plan)|
    requires Running(s, id, Expand(id, plan)[k..]) && PlanOf(s.journal, id) == plan
    ensures Sound(s.journal, Tried([Expand(id, plan)[k]], false, FramePrinted))
  {
    hide Tallied, SoundJournal, OthersCommitted;
    var pl := Expand(id, plan)[k];
    ExpandCounts(id, plan, 0);
    OthersAccounted(s, id, plan, k);
    OutIsPrintable(s, Expand(id, plan)[k..], pl);
  }

  /** One label's frame was begun and is settled; the run goes on. */
  lemma SettleLabel(s: State, s1: State, id: JobId, pl: PendingLabel, rest: seq<PendingLabel>, out: Sent)
    requires Running(s, id, [pl] + rest) && pl.job == id
    requires SendDone(s, [pl], false, s1, out) && out.wrote
    ensures Running(SettleOne(s1, pl, out.ok, false), id, rest)
    ensures PlanOf(SettleOne(s1, pl, out.ok, false).journal, id) == PlanOf(s.journal, id)
  {
    hide Tallied, SoundJournal, Replay;
    if out.ok {
      SentIsCreditable(s, s1, [pl], rest, false, out);
      assert [pl] + [] == [pl];
    }
    SettleOneEffect(s1, pl, [], out.ok, false);
    var s2 := SettleOne(s1, pl, out.ok, false);
    SettledKeeps(s, s1, s2, [pl], rest, false, out);
  }

  /** The printer is away before this label: the whole job goes back to the queue. */
  lemma StallLabel(s: State, s1: State, id: JobId, copies: seq<PendingLabel>, todo: seq<PendingLabel>, now: real)
    requires Running(s, id, todo) && OfJob(todo, id)
    requires SendDone(s, copies, false, s1, Sent(false, false))
    ensures Inv(StallEach(s1, [id], now), [])
  {
    hide Tallied, SoundJournal, Replay, SendDone;
    UnsentKeeps(s, s1, copies, false, todo);
    StallEachKeeps(s1, todo, [id], now);
    var s2 := StallEach(s1, [id], now);
    forall k | k in s2.acc ensures Tallied(s2.journal, s2.tables, s2.acc[k], [], k) {
      NotInvolved(s2.journal, s2.tables, s2.acc[k], todo, k);
    }
    assert s2.buffer.pending + [] == [];
  }

  lemma NotInvolved(h: seq<Event>, t: Tables, a: JobAcc, todo: seq<PendingLabel>, id: JobId)
    requires Tallied(h, t, a, todo, id) && !Mentions(todo, id)
    ensures Tallied(h, t, a, [], id)
  {
    NoneMentioned(todo, id);
    TalliedSame(h, t, a, todo, id, h, t, []);
  }

  lemma NoneMentioned(copies: seq<PendingLabel>, id: JobId)
    requires !Mentions(copies, id)
    ensures forall i: nat :: Count(copies, id, i) == 0
  {
    forall i: nat ensures Count(copies, id, i) == 0 {
      if Count(copies, id, i) > 0 {
        var c := CountWitness(copies, id, i);
      }
    }
  }

  lemma EndDiscrete(s: State, id: JobId)
    requires Running(s, id, [])
    ensures Inv(MaybeFinalize(s, id), [])
  {
    hide Conserved, Complete;
    if Complete(s.acc[id]) {
      FinalizeKeeps(s, [], id);
    }
    assert s.buffer.pending + [] == [];
  }

  lemma RunningIsReady(s: State, id: JobId, todo: seq<PendingLabel>)
    requires Running(s, id, todo)
    ensures s.tables == Replay(s.journal) && SoundJournal(s.journal) && AtRest(s.journal) && !s.raised
  {
  }

  lemma {:induction false} RunDiscreteKeeps(env: Env, s: State, id: JobId, plan: seq<Decision>, k: nat)
    requires k <= |Expand(id, plan)|
    requires Running(s, id, Expand(id, plan)[k..]) && PlanOf(s.journal, id) == plan
    ensures Inv(RunDiscrete(env, s, id, Expand(id, plan)[k..]), [])
    decreases |Expand(id, plan)| - k
  {
    hide Running, SendDone, Sound, Inv, Expand;
    var todo := Expand(id, plan)[k..];
    RunningIsReady(s, id, todo);
    if todo == [] {
      EndDiscrete(s, id);
    } else {
      var pl, rest := todo[0], todo[1..];
      assert todo == [pl] + rest && rest == Expand(id, plan)[k + 1..];
      ExpandCounts(id, plan, 0);
      DiscreteIsSound(s, id, plan, k);
      SendKeeps(env, s, [pl], false);
      var r := Send(env, s, [pl], false);
      if r.1.wrote {
        SettleLabel(s, r.0, id, pl, rest, r.1);
        RunDiscreteKeeps(env, SettleOne(r.0, pl, r.1.ok, false), id, plan, k + 1);
      } else {
        StallLabel(s, r.0, id, [pl], todo, env.now);
      }
    }
  }

  // --- taking a job on --------------------------------------------------------

  /** Planning only records dedupe keys; each decision fits its label. */
  ghost predicate PlanSoFar(s: State, s1: State, job: PrintJob, already: set<nat>, plan: seq<Decision>) {
    && s1 == s.(journal := s1.journal, tables := s1.tables)
    && s1.tables == s.tables.(dedupe := s1.tables.dedupe)
    && s1.tables == Replay(s1.journal) && SoundJournal(s1.journal) && AtRest(s1.journal)
    && Quiet(s.journal, s1.journal)
    && |plan| <= |job.labels|
    && forall i :: 0 <= i < |plan| ==>
         && (plan[i] == AlreadyPrinted <==> i in already)
         && (plan[i].Print? ==> plan[i].copies == job.labels[i].copies)
  }

  lemma DedupeEffect(s: State, key: string, id: JobId, now: real)
    requires s.tables == Replay(s.journal) && SoundJournal(s.journal)
    ensures var s1 := Emit(s, DedupeRecorded(key, id, now));
            && s1.tables == s.tables.(dedupe := s1.tables.dedupe)
            && s1.tables == Replay(s1.journal) && SoundJournal(s1.journal) && AtRest(s1.journal)
            && Quiet(s.journal, s1.journal)
  {
    Appended(s.journal, DedupeRecorded(key, id, now));
    SilentIsQuiet(s.journal, DedupeRecorded(key, id, now));
  }

  ghost predicate DecisionFits(s: State, s1: State, job: PrintJob, already: set<nat>, i: nat, d: Decision)
    requires i < |job.labels|
  {
    && s1 == s.(journal := s1.journal, tables := s1.tables)
    && s1.tables == s.tables.(dedupe := s1.tables.dedupe)
    && s1.tables == Replay(s1.journal) && SoundJournal(s1.journal) && AtRest(s1.journal)
    && Quiet(s.journal, s1.journal)
    && (d == AlreadyPrinted <==> i in already)
    && (d.Print? ==> d.copies == job.labels[i].copies)
  }

  lemma DecideEffect(env: Env, s: State, job: PrintJob, already: set<nat>, i: nat)
    requires i < |job.labels|
    requires s.tables == Replay(s.journal) && SoundJournal(s.journal) && AtRest(s.journal)
    ensures var r := Decide(env, s, job, already, i); DecisionFits(s, r.0, job, already, i, r.1)
  {
    hide SoundJournal, Replay, Live, PlanOf, Good, Lost, StripLost;
    var key := DedupeKey(env.cfg, job.labels[i]);
    if key.Some? {
      DedupeEffect(s, key.value, job.id, env.now);
    }
  }

  lemma PlanExtended(s: State, s1: State, s2: State, job: PrintJob, already: set<nat>, plan: seq<Decision>, d: Decision)
    requires PlanSoFar(s, s1, job, already, plan) && |plan| < |job.labels|
    requires DecisionFits(s1, s2, job, already, |plan|, d)
    ensures PlanSoFar(s, s2, job, already, plan + [d])
  {
    hide SoundJournal, Replay;
  }

  lemma {:induction false} PlanEffect(env: Env, s: State, job: PrintJob, already: set<nat>, n: nat)
    requires n <= |job.labels|
    requires s.tables == Replay(s.journal) && SoundJournal(s.journal) && AtRest(s.journal)
    ensures var r := PlanLabels(env, s, job, already, n); PlanSoFar(s, r.0, job, already, r.1)
    ensures var r := PlanLabels(env, s, job, already, n);
            r.0.tables == Replay(r.0.journal) && SoundJournal(r.0.journal) && AtRest(r.0.journal)
  {
    if n > 0 {
      hide SoundJournal, Replay, Decide, DecisionFits, PlanSoFar;
      PlanEffect(env, s, job, already, n - 1);
      var r := PlanLabels(env, s, job, already, n - 1);
      DecideEffect(env, r.0, job, already, n - 1);
      var d := Decide(env, r.0, job, already, n - 1);
      PlanExtended(s, r.0, d.0, job, already, r.1, d.1);
      PlanSound(s, d.0, job, already, r.1 + [d.1]);
    }
  }

  lemma PlanSound(s: State, s1: State, job: PrintJob, already: set<nat>, plan: seq<Decision>)
    requires PlanSoFar(s, s1, job, already, plan)
    ensures s1.tables == Replay(s1.journal) && SoundJournal(s1.journal) && AtRest(s1.journal)
  {
  }

  lemma MarkPrintingEffect(s: State, id: JobId)
    requires s.tables == Replay(s.journal) && SoundJournal(s.journal) && Unfinished(s.tables, id)
    ensures var s1 := Emit(s, Marked(id, Printing));
            && s1.tables == s.tables.(jobs := s.tables.jobs[id := s.tables.jobs[id].(state := Printing)])
            && s1.tables == Replay(s1.journal) && SoundJournal(s1.journal) && AtRest(s1.journal)
            && Quiet(s.journal, s1.journal)
  {
    Appended(s.journal, Marked(id, Printing));
    SilentIsQuiet(s.journal, Marked(id, Printing));
  }

  lemma PlannedEffect(s: State, id: JobId, plan: seq<Decision>)
    requires s.tables == Replay(s.journal) && SoundJournal(s.journal) && PlanFits(s.tables, id, plan)
    ensures var s1 := Emit(s, Planned(id, plan));
            && s1.tables == s.tables
            && s1.tables == Replay(s1.journal) && SoundJournal(s1.journal) && AtRest(s1.journal)
            && Live(s1.journal) == Live(s.journal) + {id}
            && PlanOf(s1.journal, id) == plan && !StripLost(s1.journal, id)
            && (forall i: nat :: Good(s1.journal, id, i) == 0 && Lost(s1.journal, id, i) == 0)
            && (forall k :: k != id ==> PlanOf(s1.journal, k) == PlanOf(s.journal, k))
            && (forall k, i: nat :: k != id ==> Good(s1.journal, k, i) == Good(s.journal, k, i))
            && (forall k, i: nat :: k != id ==> Lost(s1.journal, k, i) == Lost(s.journal, k, i))
            && (forall k :: k != id ==> (StripLost(s1.journal, k) <==> StripLost(s.journal, k)))
  {
    Appended(s.journal, Planned(id, plan));
  }

  /** The fresh tally of a job just planned: everything it asks for is still to come. */
  lemma FreshTally(h: seq<Event>, t: Tables, job: PrintJob, pending: seq<PendingLabel>, id: JobId, plan: seq<Decision>)
    requires PlanOf(h, id) == plan && PlanFits(t, id, plan) && !StripLost(h, id)
    requires forall i: nat :: Good(h, id, i) == 0 && Lost(h, id, i) == 0
    requires t.jobs[id].job == job && t.jobs[id].state == Printing && ValidJob(job)
    requires !Mentions(pending, id)
    ensures Tallied(h, t, FreshAcc(job, plan), pending + Expand(id, plan), id)
  {
    NoneMentioned(pending, id);
    forall i: nat
      ensures Count(pending + Expand(id, plan), id, i) == Expected(FreshAcc(job, plan), i)
    {
      CountConcat(pending, Expand(id, plan), id, i);
      ExpandCounts(id, plan, i);
    }
  }

  /** A queued job that is not in flight, on a sound state. */
  ghost predicate Submittable(s: State, id: JobId) {
    id in QueuedIds(s.tables) && id !in s.acc
  }

  /** `submit` up to its first print: the tables, the plan and the job's row. */
  lemma PreparedTables(env: Env, s: State, id: JobId)
    requires Explained(s) && Unfinished(s.tables, id)
    ensures var r := Prepare(env, s, id);
            && r.0 == s.(journal := r.0.journal, tables := r.0.tables, acc := r.0.acc)
            && r.0.acc == s.acc[id := FreshAcc(s.tables.jobs[id].job, r.1)]
            && r.0.tables.jobs == s.tables.jobs[id := s.tables.jobs[id].(state := Printing)]
            && r.0.tables.printed == s.tables.printed
            && r.0.tables == Replay(r.0.journal) && SoundJournal(r.0.journal) && AtRest(r.0.journal)
            && PlanFits(r.0.tables, id, r.1)
            && Restarted(s.journal, r.0.journal, id, r.1)
  {
    hide SoundJournal, Replay, PlanLabels;
    var job := s.tables.jobs[id].job;
    MarkPrintingEffect(s, id);
    var s1 := Emit(s, Marked(id, Printing));
    var already := PrintedLabels(s1.tables, id);
    PlanEffect(env, s1, job, already, |job.labels|);
    var r := PlanLabels(env, s1, job, already, |job.labels|);
    assert forall i: nat :: i in already <==> (id, i) in s.tables.printed;
    assert PlanFits(r.0.tables, id, r.1);
    PlannedEffect(r.0, id, r.1);
  }

  /** The journal g continues h by taking job id on afresh; other jobs are as before. */
  ghost predicate Restarted(h: seq<Event>, g: seq<Event>, id: JobId, plan: seq<Decision>) {
    && Live(g) == Live(h) + {id}
    && PlanOf(g, id) == plan && !StripLost(g, id)
    && (forall i: nat :: Good(g, id, i) == 0 && Lost(g, id, i) == 0)
    && (forall k :: k != id ==> PlanOf(g, k) == PlanOf(h, k))
    && (forall k, i: nat :: k != id ==> Good(g, k, i) == Good(h, k, i))
    && (forall k, i: nat :: k != id ==> Lost(g, k, i) == Lost(h, k, i))
    && (forall k :: k != id ==> (StripLost(g, k) <==> StripLost(h, k)))
  }

  lemma PreparedTally(s: State, s1: State, id: JobId, plan: seq<Decision>, k: JobId)
    requires Conserved(s, s.buffer.pending) && id !in s.acc && Unfinished(s.tables, id) && ValidJob(s.tables.jobs[id].job)
    requires s1.tables.jobs == s.tables.jobs[id := s.tables.jobs[id].(state := Printing)]
    requires s1.tables.printed == s.tables.printed && PlanFits(s1.tables, id, plan)
    requires Restarted(s.journal, s1.journal, id, plan)
    requires s1.acc == s.acc[id := FreshAcc(s.tables.jobs[id].job, plan)] && k in s1.acc
    ensures Tallied(s1.journal, s1.tables, s1.acc[k], s.buffer.pending + Expand(id, plan), k)
  {
    hide SoundJournal, Replay;
    var pending := s.buffer.pending;
    if k == id {
      FreshTally(s1.journal, s1.tables, s.tables.jobs[id].job, pending, id, plan);
    } else {
      ExpandCounts(id, plan, 0);
      NoneMentioned(Expand(id, plan), k);
      forall i: nat ensures Count(pending + Expand(id, plan), k, i) == Count(pending, k, i) {
        CountConcat(pending, Expand(id, plan), k, i);
      }
      TalliedSame(s.journal, s.tables, s.acc[k], pending, k, s1.journal, s1.tables, pending + Expand(id, plan));
    }
  }

  lemma SubmittableIsUnfinished(s: State, id: JobId)
    requires Explained(s) && Submittable(s, id)
    ensures Unfinished(s.tables, id) && ValidJob(s.tables.jobs[id].job) && s.tables.jobs[id].job.id == id
  {
    SoundTables(s.journal);
    assert RowOk(id, s.tables.jobs[id]);
  }

  /** Taking a job on: all its copies are now still to come. */
  lemma PrepareKeeps(env: Env, s: State, id: JobId)
    requires Inv(s, []) && Submittable(s, id)
    ensures var r := Prepare(env, s, id);
            && Conserved(r.0, s.buffer.pending + Expand(id, r.1))
            && r.0.buffer == s.buffer && r.0.acc == s.acc[id := r.0.acc[id]]
            && r.0.acc[id] == FreshAcc(s.tables.jobs[id].job, r.1)
            && PlanOf(r.0.journal, id) == r.1
            && !Mentions(s.buffer.pending, id)
  {
    hide Tallied, SoundJournal, Replay, Prepare;
    SubmittableIsUnfinished(s, id);
    PreparedTables(env, s, id);
    var r := Prepare(env, s, id);
    assert s.buffer.pending + [] == s.buffer.pending;
    forall k | k in r.0.acc ensures Tallied(r.0.journal, r.0.tables, r.0.acc[k], s.buffer.pending + Expand(id, r.1), k) {
      PreparedTally(s, r.0, id, r.1, k);
    }
    ExpandCounts(id, r.1, 0);
  }

  /** The hypothesis on the link under which `submit` keeps its accounts: no flush inside
      the buffering loop stalls the job while copies of it are still to come. */
  ghost predicate LinkHolds(env: Env, s: State, id: JobId)
    requires id in s.tables.jobs
  {
    var job := s.tables.jobs[id].job;
    var r := Prepare(env, s, id);
    WrongModel(job) || IsDiscrete(env.cfg, job) || NoMidLoopStall(env, r.0, id, Expand(id, r.1))
  }

  lemma RejectKeeps(s: State, id: JobId)
    requires Inv(s, []) && Submittable(s, id)
    ensures Inv(Conclude(s, id, Rejection(s.tables.jobs[id].job)), [])
  {
    hide SoundJournal, Replay, Conclude, Tallied;
    SubmittableIsUnfinished(s, id);
    var r := Rejection(s.tables.jobs[id].job);
    FinishedEffect(s, id, r);
    var s1 := Conclude(s, id, r);
    var out := s.buffer.pending + [];
    forall k | k in s1.acc ensures Tallied(s1.journal, s1.tables, s1.acc[k], out, k) {
      TalliedRow(s.journal, s.tables, s.acc[k], out, k);
      TalliedSame(s.journal, s.tables, s.acc[k], out, k, s1.journal, s1.tables, out);
    }
  }

  lemma TalliedRow(h: seq<Event>, t: Tables, a: JobAcc, out: seq<PendingLabel>, id: JobId)
    requires Tallied(h, t, a, out, id)
    ensures id in t.jobs
  {
  }

  // --- plans survive a flush --------------------------------------------------

  lemma EmitKeepsPlan(s: State, e: Event, id: JobId)
    requires !e.Planned?
    ensures PlanOf(Emit(s, e).journal, id) == PlanOf(s.journal, id)
  {
    Appended(s.journal, e);
  }

  lemma {:induction false} SendFromKeepsPlan(env: Env, s: State, copies: seq<PendingLabel>, strip: bool, attempt: nat,
                                             id: JobId)
    ensures PlanOf(SendFrom(env, s, copies, strip, attempt).0.journal, id) == PlanOf(s.journal, id)
    decreases env.cfg.maxAttempts - attempt
  {
    if attempt < env.cfg.maxAttempts {
      var o := env.link(|s.journal|);
      EmitKeepsPlan(s, Tried(copies, strip, o), id);
      if o != FramePrinted && o.retryable && attempt + 1 < env.cfg.maxAttempts && !(strip && o.PrintFailed?) {
        SendFromKeepsPlan(env, Emit(s, Tried(copies, strip, o)), copies, strip, attempt + 1, id);
      }
    }
  }

  lemma {:induction false} SettleAllKeepsPlan(s: State, labels: seq<PendingLabel>, ok: bool, strip: bool, id: JobId)
    ensures PlanOf(SettleAll(s, labels, ok, strip).journal, id) == PlanOf(s.journal, id)
    decreases |labels|
  {
    if labels != [] && !s.raised {
      Appended(s.journal, Committed(labels[0].job, labels[0].index));
      SettleAllKeepsPlan(SettleOne(s, labels[0], ok, strip), labels[1..], ok, strip, id);
    }
  }

  lemma {:induction false} FinalizeEachKeepsPlan(s: State, ids: seq<JobId>, id: JobId)
    ensures PlanOf(FinalizeEach(s, ids).journal, id) == PlanOf(s.journal, id)
    decreases |ids|
  {
    if ids != [] {
      if ids[0] in s.acc {
        var r := ResultOf(s.acc[ids[0]]);
        EmitKeepsPlan(s, Finished(ids[0], r), id);
        EmitKeepsPlan(Emit(s, Finished(ids[0], r)), Published(r), id);
      }
      FinalizeEachKeepsPlan(MaybeFinalize(s, ids[0]), ids[1..], id);
    }
  }

  lemma {:induction false} StallEachKeepsPlan(s: State, ids: seq<JobId>, now: real, id: JobId)
    ensures PlanOf(StallEach(s, ids, now).journal, id) == PlanOf(s.journal, id)
    decreases |ids|
  {
    if ids != [] {
      EmitKeepsPlan(s, Marked(ids[0], Queued), id);
      StallEachKeepsPlan(StallOne(s, ids[0], now), ids[1..], now, id);
    }
  }

  lemma FlushKeepsPlan(env: Env, s: State, id: JobId)
    ensures PlanOf(Flush(env, s).journal, id) == PlanOf(s.journal, id)
  {
    if s.buffer.pending != [] {
      var labels := s.buffer.pending;
      var s0 := s.(buffer := EMPTY_BUFFER);
      SendFromKeepsPlan(env, s0, labels, true, 0, id);
      var r := SendFrom(env, s0, labels, true, 0);
      EmitKeepsPlan(r.0, Settled(labels, true, r.1.ok, r.1.wrote), id);
      var s1 := Send(env, s0, labels, true).0;
      StallEachKeepsPlan(s1, JobIds(labels), env.now, id);
      SettleAllKeepsPlan(s1, labels, r.1.ok, true, id);
      FinalizeEachKeepsPlan(SettleAll(s1, labels, r.1.ok, true), JobIds(labels), id);
    }
  }

  // --- submit -----------------------------------------------------------------

  /** Nothing to print: the job is finalised on the spot. */
  lemma NothingToPrint(env: Env, s: State, id: JobId)
    requires Inv(s, []) && Submittable(s, id)
    requires var r := Prepare(env, s, id); Total(r.0.acc[id].expected, |s.tables.jobs[id].job.labels|) == 0
    ensures Inv(Finalize(Prepare(env, s, id).0, id), [])
  {
    hide Tallied, SoundJournal, Replay, Prepare, AllTallied;
    PrepareKeeps(env, s, id);
    var r := Prepare(env, s, id);
    var out := s.buffer.pending + Expand(id, r.1);
    NoCopies(r.0, out, id);
    ExpandCounts(id, r.1, 0);
    assert forall c :: c in Expand(id, r.1) ==> c in out && c.job == id;
    assert Expand(id, r.1) == [];
    FinalizeKeeps(r.0, out, id);
    assert out == s.buffer.pending + [];
  }

  lemma NoCopies(s: State, out: seq<PendingLabel>, id: JobId)
    requires Conserved(s, out) && id in s.acc && Complete(s.acc[id])
    ensures !Mentions(out, id)
  {
    CompleteWhenNoneOut(s.journal, s.tables, s.acc[id], out, id);
  }

  lemma FreshIsUnsettled(job: PrintJob, plan: seq<Decision>)
    requires Total(FreshAcc(job, plan).expected, |job.labels|) != 0
    ensures !Complete(FreshAcc(job, plan))
  {
    TotalOfZeros(map[], |job.labels|);
  }

  lemma SubmitDiscrete(env: Env, s: State, id: JobId, plan: seq<Decision>)
    requires Inv(s, Expand(id, plan)) && id in s.acc && PlanOf(s.journal, id) == plan
    requires !Mentions(s.buffer.pending, id)
    ensures Inv(RunDiscrete(env, Flush(env, s), id, Expand(id, plan)), [])
  {
    hide Conserved, Flush, RunDiscrete, Expand;
    ExpandCounts(id, plan, 0);
    FlushOthers(env, s, Expand(id, plan));
    FlushKeepsPlan(env, s, id);
    var s1 := Flush(env, s);
    assert [] + Expand(id, plan) == Expand(id, plan) == Expand(id, plan)[0..];
    RunDiscreteKeeps(env, s1, id, plan, 0);
  }

  /** `submit` keeps the invariant, whatever the link does apart from the hypothesis. */
  lemma SubmitKeeps(env: Env, s: State, id: JobId)
    requires Inv(s, []) && Submittable(s, id) && LinkHolds(env, s, id)
    ensures Inv(Submit(env, s, id), [])
  {
    hide Conserved, Complete, Prepare, RunDiscrete, BufferCopies, Flush, Conclude, Finalize, NoMidLoopStall;
    var job := s.tables.jobs[id].job;
    if WrongModel(job) {
      RejectKeeps(s, id);
    } else {
      PrepareKeeps(env, s, id);
      var r := Prepare(env, s, id);
      var todo := Expand(id, r.1);
      if Total(r.0.acc[id].expected, |job.labels|) == 0 {
        NothingToPrint(env, s, id);
      } else {
        FreshIsUnsettled(job, r.1);
        assert Inv(r.0, todo);
        if IsDiscrete(env.cfg, job) {
          SubmitDiscrete(env, r.0, id, r.1);
        } else {
          ExpandCounts(id, r.1, 0);
          BufferCopiesKeeps(env, r.0, id, todo, job.flush || AsStrip(env.cfg, job));
        }
      }
    }
  }

  // --- jobs that take no part -------------------------------------------------

  /** Job k is neither in flight nor buffered, before or after, and its row is untouched. */
  ghost predicate Bystander(s: State, s1: State, k: JobId) {
    && k !in s.acc && k !in s1.acc
    && !Mentions(s.buffer.pending, k) && !Mentions(s1.buffer.pending, k)
    && s1.tables.order == s.tables.order
    && (k in s1.tables.jobs <==> k in s.tables.jobs)
    && (k in s.tables.jobs ==> s1.tables.jobs[k] == s.tables.jobs[k])
  }

  lemma {:induction false} SendBystander(env: Env, s: State, copies: seq<PendingLabel>, strip: bool, attempt: nat, k: JobId)
    requires Bystander(s, s, k)
    ensures Bystander(s, SendFrom(env, s, copies, strip, attempt).0, k)
    decreases env.cfg.maxAttempts - attempt
  {
    if attempt < env.cfg.maxAttempts {
      var s1 := Emit(s, Tried(copies, strip, env.link(|s.journal|)));
      SendBystander(env, s1, copies, strip, attempt + 1, k);
    }
  }

  lemma {:induction false} SettleBystander(s: State, labels: seq<PendingLabel>, ok: bool, strip: bool, k: JobId)
    requires Bystander(s, s, k)
    ensures Bystander(s, SettleAll(s, labels, ok, strip), k)
    decreases |labels|
  {
    if labels != [] && !s.raised {
      SettleBystander(SettleOne(s, labels[0], ok, strip), labels[1..], ok, strip, k);
    }
  }

  lemma {:induction false} FinalizeBystander(s: State, ids: seq<JobId>, k: JobId)
    requires Bystander(s, s, k)
    ensures Bystander(s, FinalizeEach(s, ids), k)
    decreases |ids|
  {
    if ids != [] {
      FinalizeBystander(MaybeFinalize(s, ids[0]), ids[1..], k);
    }
  }

  lemma {:induction false} StallBystander(s: State, ids: seq<JobId>, now: real, k: JobId)
    requires Bystander(s, s, k) && k !in ids
    ensures Bystander(s, StallEach(s, ids, now), k)
    decreases |ids|
  {
    if ids != [] {
      StallBystander(StallOne(s, ids[0], now), ids[1..], now, k);
    }
  }

  lemma FlushBystander(env: Env, s: State, k: JobId)
    requires Bystander(s, s, k)
    ensures Bystander(s, Flush(env, s), k)
  {
    if s.buffer.pending != [] {
      var labels := s.buffer.pending;
      SendBystander(env, s.(buffer := EMPTY_BUFFER), labels, true, 0, k);
      var r := Send(env, s.(buffer := EMPTY_BUFFER), labels, true);
      StallBystander(r.0, JobIds(labels), env.now, k);
      SettleBystander(r.0, labels, r.1.ok, true, k);
      FinalizeBystander(SettleAll(r.0, labels, r.1.ok, true), JobIds(labels), k);
    }
  }

  lemma AddOneBystander(env: Env, s: State, pl: PendingLabel, k: JobId)
    requires Bystander(s, s, k) && pl.job != k
    ensures Bystander(s, AddOne(env, s, pl), k)
  {
    hide Flush;
    FlushBystander(env, s, k);
    var s1 := if Accepts(s.buffer, env.cfg.tapeWidth) then s else Flush(env, s);
    FlushBystander(env, s1.(buffer := AddTo(s1.buffer, pl, env.cfg.tapeWidth, env.now)), k);
  }

  lemma {:induction false} AddAllBystander(env: Env, s: State, todo: seq<PendingLabel>, k: JobId)
    requires Bystander(s, s, k) && !Mentions(todo, k)
    ensures Bystander(s, AddAll(env, s, todo), k)
    decreases |todo|
  {
    if todo != [] && !s.raised {
      AddOneBystander(env, s, todo[0], k);
      AddAllBystander(env, AddOne(env, s, todo[0]), todo[1..], k);
    }
  }

  lemma FrameBystander(env: Env, s: State, id: JobId, pl: PendingLabel, k: JobId)
    requires Bystander(s, s, k) && id != k
    ensures var r := Send(env, s, [pl], false);
            && Bystander(s, StallEach(r.0, [id], env.now), k)
            && Bystander(s, SettleOne(r.0, pl, r.1.ok, false), k)
  {
    SendBystander(env, s, [pl], false, 0, k);
    var r := Send(env, s, [pl], false);
    StallBystander(r.0, [id], env.now, k);
  }

  lemma {:induction false} DiscreteBystander(env: Env, s: State, id: JobId, todo: seq<PendingLabel>, k: JobId)
    requires Bystander(s, s, k) && id != k
    ensures Bystander(s, RunDiscrete(env, s, id, todo), k)
    decreases |todo|
  {
    hide Complete, ResultOf, Send, SettleOne, StallEach;
    if todo != [] && !s.raised {
      FrameBystander(env, s, id, todo[0], k);
      var r := Send(env, s, [todo[0]], false);
      DiscreteBystander(env, SettleOne(r.0, todo[0], r.1.ok, false), id, todo[1..], k);
    }
  }

  lemma {:induction false} PlanBystander(env: Env, s: State, job: PrintJob, already: set<nat>, n: nat, k: JobId)
    requires n <= |job.labels| && Bystander(s, s, k)
    ensures Bystander(s, PlanLabels(env, s, job, already, n).0, k)
  {
    if n > 0 {
      PlanBystander(env, s, job, already, n - 1, k);
    }
  }

  lemma PrepareBystander(env: Env, s: State, id: JobId, k: JobId)
    requires Bystander(s, s, k) && id != k && id in s.tables.jobs
    ensures Bystander(s, Prepare(env, s, id).0, k)
  {
    var job := s.tables.jobs[id].job;
    var s1 := Emit(s, Marked(id, Printing));
    PlanBystander(env, s1, job, PrintedLabels(s1.tables, id), |job.labels|, k);
  }

  lemma BufferBystander(env: Env, s: State, id: JobId, todo: seq<PendingLabel>, flush: bool, k: JobId)
    requires Bystander(s, s, k) && id != k && !Mentions(todo, k)
    ensures Bystander(s, BufferCopies(env, s, id, todo, flush), k)
  {
    hide Flush, AddAll, Complete, ResultOf;
    AddAllBystander(env, s, todo, k);
    FlushBystander(env, AddAll(env, s, todo), k);
  }

  /** Submitting one job leaves every job that is not in flight as it was. */
  lemma SubmitBystander(env: Env, s: State, id: JobId, k: JobId)
    requires Bystander(s, s, k) && id != k && id in s.tables.jobs
    ensures Bystander(s, Submit(env, s, id), k)
  {
    hide Flush, RunDiscrete, BufferCopies, Prepare, ResultOf;
    var job := s.tables.jobs[id].job;
    if !WrongModel(job) {
      PrepareBystander(env, s, id, k);
      var r := Prepare(env, s, id);
      var todo := Expand(id, r.1);
      ExpandCounts(id, r.1, 0);
      FlushBystander(env, r.0, k);
      DiscreteBystander(env, Flush(env, r.0), id, todo, k);
      BufferBystander(env, r.0, id, todo, job.flush || AsStrip(env.cfg, job), k);
    }
  }

  // --- runs of submissions ----------------------------------------------------

  /** The link hypothesis for each submission of a list, where its turn comes. */
  ghost predicate EachLinkHolds(env: Env, s: State, ids: seq<JobId>)
    decreases |ids|
  {
    ids != [] ==>
      && (ids[0] in s.tables.jobs ==> LinkHolds(env, s, ids[0]))
      && EachLinkHolds(env, Submit(env, s, ids[0]), ids[1..])
  }

  lemma StillSubmittable(env: Env, s: State, id: JobId, k: JobId)
    requires Inv(s, []) && Submittable(s, id) && Submittable(s, k) && id != k
    ensures Submittable(Submit(env, s, id), k)
  {
    hide Tallied, Submit;
    assert s.buffer.pending + [] == s.buffer.pending;
    SubmitBystander(env, s, id, k);
  }

  /** Submitting queued jobs one after the other: the jobs still to come stay submittable. */
  lemma {:induction false} SubmitEachKeeps(env: Env, s: State, ids: seq<JobId>)
    requires Inv(s, []) && EachLinkHolds(env, s, ids)
    requires forall id :: id in ids ==> Submittable(s, id)
    requires forall i, k :: 0 <= i < k < |ids| ==> ids[i] != ids[k]
    ensures Inv(SubmitEach(env, s, ids), [])
    decreases |ids|
  {
    if ids != [] {
      hide Submit, LinkHolds, AllTallied;
      SubmitKeeps(env, s, ids[0]);
      var s1 := Submit(env, s, ids[0]);
      NotRaised(s1);
      forall k | k in ids[1..] ensures Submittable(s1, k) {
        StillSubmittable(env, s, ids[0], k);
      }
      SubmitEachKeeps(env, s1, ids[1..]);
    }
  }

  lemma NotRaised(s: State)
    requires Inv(s, [])
    ensures s.(raised := false) == s
  {
  }

  lemma {:induction false} QueuedDistinct(t: Tables, order: seq<JobId>)
    requires forall i, k :: 0 <= i < k < |order| ==> order[i] != order[k]
    ensures forall i, k :: 0 <= i < k < |QueuedIn(t, order)| ==> QueuedIn(t, order)[i] != QueuedIn(t, order)[k]
  {
    if order != [] {
      var n := |order| - 1;
      var rest := QueuedIn(t, order[..n]);
      QueuedDistinct(t, order[..n]);
      assert order[n] !in order[..n];
      forall i, k | 0 <= i < k < |QueuedIn(t, order)| ensures QueuedIn(t, order)[i] != QueuedIn(t, order)[k] {
        if k < |rest| {
          assert rest[i] != rest[k];
        } else {
          assert rest[i] in rest;
        }
      }
    }
  }

  lemma InvTables(s: State)
    requires Inv(s, [])
    ensures s.tables == Replay(s.journal) && TablesOk(s.tables)
  {
    SoundTables(s.journal);
  }

  lemma QueuedTurns(s: State)
    requires Inv(s, []) && s.acc == map[]
    ensures var ids := QueuedIds(s.tables); forall i, k :: 0 <= i < k < |ids| ==> ids[i] != ids[k]
    ensures forall id :: id in QueuedIds(s.tables) ==> Submittable(s, id)
  {
    hide Inv;
    InvTables(s);
    QueuedDistinct(s.tables, s.tables.order);
  }

  /** On boot nothing is in flight, so everything `recover` submits is submittable. */
  lemma RecoverKeeps(env: Env, s: State)
    requires Inv(s, []) && s.acc == map[]
    requires EachLinkHolds(env, s, QueuedIds(s.tables))
    ensures Inv(Recover(env, s), [])
  {
    hide Inv, SubmitEach, EachLinkHolds;
    QueuedTurns(s);
    SubmitEachKeeps(env, s, QueuedIds(s.tables));
  }

  /** Each submission of `retry_queued`, where its turn comes, is of a job still queued,
      and the link hypothesis holds for it. */
  ghost predicate EachRetryAllowed(env: Env, s: State, ids: seq<JobId>)
    decreases |ids|
  {
    ids != [] ==>
      if Due(env, s, ids[0]) then
        var s0 := s.(stalled := s.stalled[ids[0] := env.now]);
        && Submittable(s0, ids[0]) && LinkHolds(env, s0, ids[0])
        && EachRetryAllowed(env, Submit(env, s0, ids[0]), ids[1..])
      else EachRetryAllowed(env, s, ids[1..])
  }

  lemma StalledIsNoAccount(s: State, stalled: map<JobId, real>)
    requires Inv(s, [])
    ensures Inv(s.(stalled := stalled), [])
  {
  }

  lemma {:induction false} RetryEachKeeps(env: Env, s: State, ids: seq<JobId>)
    requires Inv(s, []) && EachRetryAllowed(env, s, ids)
    ensures Inv(RetryEach(env, s, ids), [])
    decreases |ids|
  {
    if ids != [] {
      hide Inv, Submit, LinkHolds, Submittable;
      if Due(env, s, ids[0]) {
        var s0 := s.(stalled := s.stalled[ids[0] := env.now]);
        StalledIsNoAccount(s, s0.stalled);
        SubmitKeeps(env, s0, ids[0]);
        NotRaised(Submit(env, s0, ids[0]));
        RetryEachKeeps(env, Submit(env, s0, ids[0]), ids[1..]);
      } else {
        RetryEachKeeps(env, s, ids[1..]);
      }
    }
  }

  lemma FlushAlone(env: Env, s: State)
    requires Inv(s, [])
    ensures Inv(Flush(env, s), [])
  {
    hide Flush;
    FlushKeeps(env, s, []);
  }

  lemma TickKeeps(env: Env, s: State)
    requires Inv(s, [])
    requires var s1 := if IdleExpired(env.cfg, s.buffer, env.now) then Flush(env, s) else s;
             EachRetryAllowed(env, s1, QueuedIds(s1.tables))
    ensures Inv(Tick(env, s), [])
  {
    hide Flush, Inv, RetryEach, EachRetryAllowed;
    FlushAlone(env, s);
    var s1 := if IdleExpired(env.cfg, s.buffer, env.now) then Flush(env, s) else s;
    RetryEachKeeps(env, s1, QueuedIds(s1.tables));
  }

  // --- intake -----------------------------------------------------------------

  /** Effects of the intake: they add rows and acknowledge, and touch no job in flight. */
  lemma IntakeEvent(s: State, e: Event)
    requires Inv(s, []) && Sound(s.journal, e)
    requires e.Inserted? || e.DedupePurged? || e.Acked? || e.Published?
    ensures Inv(Emit(s, e), [])
  {
    Appended(s.journal, e);
    SilentIsQuiet(s.journal, e);
    var s1 := Emit(s, e);
    var out := s.buffer.pending + [];
    forall k | k in s1.acc ensures Tallied(s1.journal, s1.tables, s1.acc[k], out, k) {
      TalliedSame(s.journal, s.tables, s.acc[k], out, k, s1.journal, s1.tables, out);
    }
  }

  lemma AckRow(s: State, d: Delivery, id: JobId)
    requires Inv(s, []) && d.job.Some? && id in s.tables.jobs && s.tables.jobs[id].job.key == d.job.value.key
    ensures Inv(Emit(s, Acked(d)), [])
  {
    InvTables(s);
    IntakeEvent(s, Acked(d));
  }

  lemma TakeIn(s: State, d: Delivery)
    requires Inv(s, []) && d.job.Some? && ValidJob(d.job.value) && d.job.value.id !in s.tables.jobs
    requires FindKey(s.tables, s.tables.order, d.job.value.key).None?
    ensures Inv(Emit(Emit(s, Inserted(d.job.value)), Acked(d)), [])
  {
    hide Inv, FindKey;
    InvTables(s);
    IntakeEvent(s, Inserted(d.job.value));
    AckRow(Emit(s, Inserted(d.job.value)), d, d.job.value.id);
  }

  lemma ReplyAndAck(s: State, d: Delivery, id: JobId)
    requires Inv(s, []) && d.job.Some? && id in s.tables.jobs && s.tables.jobs[id].job.key == d.job.value.key
    ensures Inv(Emit(Emit(s, Published(DuplicateReply(s.tables, id, d.job.value))), Acked(d)), [])
  {
    hide Inv;
    var e := Published(DuplicateReply(s.tables, id, d.job.value));
    IntakeEvent(s, e);
    AckRow(Emit(s, e), d, id);
  }

  lemma OnMessageKeeps(env: Env, s: State, d: Delivery, fault: IntakeFault)
    requires Inv(s, []) && (d.job.Some? ==> ValidJob(d.job.value))
    ensures Inv(OnMessage(env, s, d, fault), [])
  {
    hide Inv, FindKey, Apply;
    if d.job.None? {
      IntakeEvent(s, Published(MALFORMED));
      IntakeEvent(Emit(s, Published(MALFORMED)), Acked(d));
    } else if fault != PurgeFails {
      var job := d.job.value;
      var purged := DedupePurged(env.now - env.cfg.dedupeTtl);
      IntakeEvent(s, purged);
      var s1 := Emit(s, purged);
      var row := FindKey(s1.tables, s1.tables.order, job.key);
      if fault == NoFault && row.Some? {
        ReplyAndAck(s1, d, row.value);
      } else if fault == NoFault && job.id !in s1.tables.jobs {
        TakeIn(s1, d);
      }
    }
  }

  // --- crashes ----------------------------------------------------------------

  /** A crash keeps a prefix of the journal, and of the state only what that prefix explains. */
  function Reboot(journal: seq<Event>): State {
    State(Replay(journal + [Booted]), journal + [Booted], map[], map[], EMPTY_BUFFER, false)
  }

  lemma RebootKeeps(h: seq<Event>)
    requires SoundJournal(h)
    ensures Inv(Reboot(h), [])
  {
    Appended(h, Booted);
  }
}
