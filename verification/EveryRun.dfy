/** What holds over every run of calls and crashes, however the agent is called and whatever
    its calls leave behind: after errors, stalls at a bad moment and submissions out of turn. */
module EveryRun {
  import opened Basics
  import opened Contract
  import opened Spool
  import opened PrintLoop
  import opened History
  import opened PrintLoopSteps

  /** The calls the run loop makes. */
  datatype Op =
    | SubmitOp(id: JobId)
    | FlushOp
    | TickOp
    | RecoverOp
    | MessageOp(delivery: Delivery, fault: IntakeFault)

  function Do(env: Env, s: State, op: Op): State {
    match op
    case SubmitOp(id) => Submit(env, s, id)
    case FlushOp => Flush(env, s)
    case TickOp => Tick(env, s)
    case RecoverOp => Recover(env, s)
    case MessageOp(d, fault) => OnMessage(env, s, d, fault)
  }

  /** A call that returns, or one the process dies in: then the first `kept` effects of the
      journal survive, and nothing else. Every step brings its own surroundings. */
  datatype Step = Call(env: Env, op: Op) | Crash(env: Env, op: Op, kept: nat)

  /** A call may fail; its caller goes on with whatever state it left. */
  ghost predicate Leads(s: State, step: Step, s1: State) {
    var done := Do(step.env, s, step.op);
    match step
    case Call(_, _) => s1 == done.(raised := false)
    case Crash(_, _, kept) => |s.journal| <= kept <= |done.journal| && s1 == Reboot(done.journal[..kept])
  }

  ghost predicate AnyRun(states: seq<State>, steps: seq<Step>) {
    && |states| == |steps| + 1
    && states[0] == Reboot([])
    && forall i :: 0 <= i < |steps| ==> Leads(states[i], steps[i], states[i + 1])
  }

  // --- what every effect keeps to ---------------------------------------------

  /** Is this a picture the renderer makes under this configuration? */
  ghost predicate Rendered(cfg: Config, image: Image) {
    exists spec :: cfg.render(spec) == Some(image)
  }

  ghost predicate AllRendered(cfg: Config, copies: seq<PendingLabel>) {
    forall c :: c in copies ==> Rendered(cfg, c.image)
  }

  /** A strip that is not full, or full only since its last label. */
  predicate NotOverfull(cfg: Config, copies: seq<PendingLabel>) {
    copies != [] && (!IsFull(cfg, copies) || |copies| == 1 || !IsFull(cfg, copies[..|copies| - 1]))
  }

  /** A strip as a flush may find it. */
  ghost predicate Printable(cfg: Config, copies: seq<PendingLabel>) {
    AllRendered(cfg, copies) && NotOverfull(cfg, copies)
  }

  /** A strip between two steps of the worker: of rendered labels, and empty or not full. */
  ghost predicate Resting(cfg: Config, pending: seq<PendingLabel>) {
    AllRendered(cfg, pending) && (pending == [] || !IsFull(cfg, pending))
  }

  /** What an effect keeps to whatever went before it. Where a run has one configuration,
      `lim` names it and strips keep its limits. */
  ghost predicate Fine(lim: Option<Config>, h: seq<Event>, e: Event) {
    var t := Replay(h);
    match e
    case Inserted(job) => job.id !in t.jobs && forall id :: id in t.jobs ==> t.jobs[id].job.key != job.key
    case Marked(_, state) => !state.Terminal?
    case Acked(d) => d.job.Some? ==> exists id :: id in t.jobs && t.jobs[id].job.key == d.job.value.key
    case Tried(copies, strip, _) =>
      && SendOf(h, copies, strip) && PrintedInSend(h) == 0 && (strip ==> BegunInSend(h) == 0)
      && (strip && lim.Some? ==> Printable(lim.value, copies))
    case Settled(copies, strip, ok, wrote) =>
      && SendOf(h, copies, strip)
      && PrintedInSend(h) == (if ok then 1 else 0)
      && (ok ==> wrote)
      && (wrote ==> BegunInSend(h) > 0)
      && (strip ==> BegunInSend(h) == if wrote then 1 else 0)
    case _ => true
  }

  ghost predicate FineJournal(lim: Option<Config>, h: seq<Event>) {
    h == [] || (FineJournal(lim, Prev(h)) && Fine(lim, Prev(h), Last(h)))
  }

  /** The journal explains the tables, every effect was fine, and no send is under way. */
  ghost predicate Steady(lim: Option<Config>, s: State) {
    && s.tables == Replay(s.journal) && FineJournal(lim, s.journal)
    && (s.journal != [] ==> !Last(s.journal).Tried?)
  }

  ghost predicate Bounded(lim: Option<Config>, s: State) {
    Steady(lim, s) && (lim.Some? ==> Resting(lim.value, s.buffer.pending))
  }

  /** From s to s1 only fine effects were added, and the pending strip is as it was. */
  ghost predicate Extends(lim: Option<Config>, s: State, s1: State) {
    s.journal <= s1.journal && s1.buffer == s.buffer && (Steady(lim, s) ==> Steady(lim, s1))
  }

  /** From s to s1 only fine effects were added, and the pending strip kept its limits. */
  ghost predicate Advances(lim: Option<Config>, s: State, s1: State) {
    s.journal <= s1.journal && (Bounded(lim, s) ==> Bounded(lim, s1))
  }

  lemma ExtendsItself(lim: Option<Config>, s: State)
    ensures Extends(lim, s, s) && Advances(lim, s, s)
  {
  }

  lemma ExtendsThen(lim: Option<Config>, s: State, s1: State, s2: State)
    requires Extends(lim, s, s1) && Extends(lim, s1, s2)
    ensures Extends(lim, s, s2)
  {
    hide Steady;
  }

  lemma AdvancesThen(lim: Option<Config>, s: State, s1: State, s2: State)
    requires Advances(lim, s, s1) && Advances(lim, s1, s2)
    ensures Advances(lim, s, s2)
  {
    hide Bounded;
  }

  lemma ExtendsAdvances(lim: Option<Config>, s: State, s1: State)
    requires Extends(lim, s, s1)
    ensures Advances(lim, s, s1)
  {
    hide Steady, Resting;
  }

  // --- effects ----------------------------------------------------------------

  lemma FineAppended(lim: Option<Config>, h: seq<Event>, e: Event)
    requires FineJournal(lim, h) && Fine(lim, h, e)
    ensures FineJournal(lim, h + [e]) && Replay(h + [e]) == Apply(Replay(h), e)
  {
    hide Fine, Apply;
    Appended(h, e);
  }

  lemma EmitExtends(lim: Option<Config>, s: State, e: Event)
    requires Steady(lim, s) ==> Fine(lim, s.journal, e)
    requires !e.Tried?
    ensures Extends(lim, s, Emit(s, e))
  {
    hide Fine, Apply, FineJournal, Replay;
    if Steady(lim, s) {
      FineAppended(lim, s.journal, e);
    }
  }

  /** Effects nothing is asked of. */
  lemma PlainExtends(lim: Option<Config>, s: State, e: Event)
    requires !e.Inserted? && !e.Acked? && !e.Tried? && !e.Settled? && (e.Marked? ==> !e.state.Terminal?)
    ensures Extends(lim, s, Emit(s, e))
  {
    hide Extends;
    EmitExtends(lim, s, e);
  }

  /** In the middle of a send of these copies, with nothing printed yet. */
  ghost predicate MidSend(lim: Option<Config>, s: State, copies: seq<PendingLabel>, strip: bool) {
    && s.tables == Replay(s.journal) && FineJournal(lim, s.journal)
    && SendOf(s.journal, copies, strip) && PrintedInSend(s.journal) == 0 && (strip ==> BegunInSend(s.journal) == 0)
  }

  /** The attempts of a send are over. */
  ghost predicate SendOver(lim: Option<Config>, s: State, copies: seq<PendingLabel>, strip: bool, out: Sent) {
    && s.tables == Replay(s.journal) && FineJournal(lim, s.journal)
    && Fine(lim, s.journal, Settled(copies, strip, out.ok, out.wrote))
  }

  lemma NothingTried(lim: Option<Config>, s: State, copies: seq<PendingLabel>, strip: bool)
    requires MidSend(lim, s, copies, strip)
    ensures SendOver(lim, s, copies, strip, Sent(false, false))
  {
  }

  lemma AfterAttempt(h: seq<Event>, copies: seq<PendingLabel>, strip: bool, o: Attempt)
    requires SendOf(h, copies, strip) && PrintedInSend(h) == 0 && (strip ==> BegunInSend(h) == 0)
    ensures var g := h + [Tried(copies, strip, o)];
            && SendOf(g, copies, strip) && PrintedInSend(g) == (if o.FramePrinted? then 1 else 0)
            && (!o.ConnectFailed? ==> BegunInSend(g) > 0)
            && (strip ==> BegunInSend(g) == if o.ConnectFailed? then 0 else 1)
  {
    Appended(h, Tried(copies, strip, o));
  }

  lemma OneAttempt(lim: Option<Config>, s: State, copies: seq<PendingLabel>, strip: bool, o: Attempt)
    requires MidSend(lim, s, copies, strip) && (strip && lim.Some? ==> Printable(lim.value, copies))
    ensures var s1 := Emit(s, Tried(copies, strip, o));
            && (o.FramePrinted? ==> SendOver(lim, s1, copies, strip, Sent(true, true)))
            && (o.PrintFailed? ==> SendOver(lim, s1, copies, strip, Sent(false, true)))
            && (o.ConnectFailed? ==> SendOver(lim, s1, copies, strip, Sent(false, false)))
            && (o.ConnectFailed? || (o.PrintFailed? && !strip) ==> MidSend(lim, s1, copies, strip))
  {
    hide Printable, FineJournal, Replay, SendOf, PrintedInSend, BegunInSend;
    FineAppended(lim, s.journal, Tried(copies, strip, o));
    AfterAttempt(s.journal, copies, strip, o);
  }

  lemma {:induction false} AttemptsEnd(env: Env, lim: Option<Config>, s: State, copies: seq<PendingLabel>,
                                       strip: bool, attempt: nat)
    requires strip && lim.Some? ==> Printable(lim.value, copies)
    ensures var r := SendFrom(env, s, copies, strip, attempt);
            && s.journal <= r.0.journal && r.0 == s.(journal := r.0.journal, tables := r.0.tables)
            && (MidSend(lim, s, copies, strip) ==> SendOver(lim, r.0, copies, strip, r.1))
    decreases env.cfg.maxAttempts - attempt
  {
    hide Printable, MidSend, SendOver;
    if attempt < env.cfg.maxAttempts {
      var o := env.link(|s.journal|);
      var s1 := Emit(s, Tried(copies, strip, o));
      if MidSend(lim, s, copies, strip) {
        OneAttempt(lim, s, copies, strip, o);
      }
      if o != FramePrinted && o.retryable && attempt + 1 < env.cfg.maxAttempts && !(strip && o.PrintFailed?) {
        AttemptsEnd(env, lim, s1, copies, strip, attempt + 1);
      }
    } else if MidSend(lim, s, copies, strip) {
      NothingTried(lim, s, copies, strip);
    }
  }

  lemma SteadyIsMidSend(lim: Option<Config>, s: State, copies: seq<PendingLabel>, strip: bool)
    requires Steady(lim, s)
    ensures MidSend(lim, s, copies, strip)
  {
  }

  lemma SendExtends(env: Env, lim: Option<Config>, s: State, copies: seq<PendingLabel>, strip: bool)
    requires strip && lim.Some? ==> Printable(lim.value, copies)
    ensures var r := Send(env, s, copies, strip);
            Extends(lim, s, r.0) && r.0 == s.(journal := r.0.journal, tables := r.0.tables)
  {
    hide Printable, MidSend, FineJournal, Fine, Apply, Replay, SendFrom;
    var r := SendFrom(env, s, copies, strip, 0);
    AttemptsEnd(env, lim, s, copies, strip, 0);
    if Steady(lim, s) {
      SteadyIsMidSend(lim, s, copies, strip);
      FineAppended(lim, r.0.journal, Settled(copies, strip, r.1.ok, r.1.wrote));
    }
  }

  // --- settling, finalising, stalling -----------------------------------------

  lemma SettleOneExtends(lim: Option<Config>, s: State, pl: PendingLabel, ok: bool, strip: bool)
    ensures Extends(lim, s, SettleOne(s, pl, ok, strip))
  {
    hide FineJournal, Replay;
    if pl.job in s.acc && ok {
      var a := s.acc[pl.job].(done := Bump(s.acc[pl.job].done, pl.index));
      PlainExtends(lim, s.(acc := s.acc[pl.job := a]), Committed(pl.job, pl.index));
    }
  }

  lemma {:induction false} SettleAllExtends(lim: Option<Config>, s: State, labels: seq<PendingLabel>, ok: bool, strip: bool)
    ensures Extends(lim, s, SettleAll(s, labels, ok, strip))
    decreases |labels|
  {
    hide Extends, SettleOne;
    ExtendsItself(lim, s);
    if labels != [] && !s.raised {
      var s1 := SettleOne(s, labels[0], ok, strip);
      SettleOneExtends(lim, s, labels[0], ok, strip);
      SettleAllExtends(lim, s1, labels[1..], ok, strip);
      ExtendsThen(lim, s, s1, SettleAll(s1, labels[1..], ok, strip));
    }
  }

  lemma ConcludeExtends(lim: Option<Config>, s: State, id: JobId, r: JobResult)
    ensures Extends(lim, s, Conclude(s, id, r))
  {
    hide Extends;
    PlainExtends(lim, s, Finished(id, r));
    PlainExtends(lim, Emit(s, Finished(id, r)), Published(r));
    ExtendsThen(lim, s, Emit(s, Finished(id, r)), Conclude(s, id, r));
  }

  lemma FinalizeExtends(lim: Option<Config>, s: State, id: JobId)
    ensures Extends(lim, s, Finalize(s, id)) && Extends(lim, s, MaybeFinalize(s, id))
  {
    hide Conclude, Complete, ResultOf, FineJournal, Replay;
    if id in s.acc {
      ConcludeExtends(lim, s.(acc := s.acc - {id}), id, ResultOf(s.acc[id]));
    }
  }

  lemma {:induction false} FinalizeEachExtends(lim: Option<Config>, s: State, ids: seq<JobId>)
    ensures Extends(lim, s, FinalizeEach(s, ids))
    decreases |ids|
  {
    hide Extends, MaybeFinalize;
    ExtendsItself(lim, s);
    if ids != [] {
      var s1 := MaybeFinalize(s, ids[0]);
      FinalizeExtends(lim, s, ids[0]);
      FinalizeEachExtends(lim, s1, ids[1..]);
      ExtendsThen(lim, s, s1, FinalizeEach(s1, ids[1..]));
    }
  }

  lemma StallOneExtends(lim: Option<Config>, s: State, id: JobId, now: real)
    ensures Extends(lim, s, StallOne(s, id, now))
  {
    hide FineJournal, Replay;
    PlainExtends(lim, s, Marked(id, Queued));
  }

  lemma {:induction false} StallEachExtends(lim: Option<Config>, s: State, ids: seq<JobId>, now: real)
    ensures Extends(lim, s, StallEach(s, ids, now))
    decreases |ids|
  {
    hide Extends, StallOne;
    ExtendsItself(lim, s);
    if ids != [] {
      var s1 := StallOne(s, ids[0], now);
      StallOneExtends(lim, s, ids[0], now);
      StallEachExtends(lim, s1, ids[1..], now);
      ExtendsThen(lim, s, s1, StallEach(s1, ids[1..], now));
    }
  }

  // --- printing and buffering -------------------------------------------------

  lemma PrintStripExtends(env: Env, lim: Option<Config>, s: State, labels: seq<PendingLabel>)
    requires lim.Some? ==> Printable(lim.value, labels)
    ensures Extends(lim, s, PrintStrip(env, s, labels))
  {
    hide Extends, Printable, Send, StallEach, SettleAll, FinalizeEach;
    SendExtends(env, lim, s, labels, true);
    var r := Send(env, s, labels, true);
    StallEachExtends(lim, r.0, JobIds(labels), env.now);
    ExtendsThen(lim, s, r.0, StallEach(r.0, JobIds(labels), env.now));
    var s2 := SettleAll(r.0, labels, r.1.ok, true);
    SettleAllExtends(lim, r.0, labels, r.1.ok, true);
    ExtendsThen(lim, s, r.0, s2);
    FinalizeEachExtends(lim, s2, JobIds(labels));
    ExtendsThen(lim, s, s2, FinalizeEach(s2, JobIds(labels)));
  }

  /** A flush of a printable strip, which need not be at rest. */
  lemma FlushPrints(env: Env, lim: Option<Config>, s: State)
    requires lim.Some? && s.buffer.pending != [] ==> Printable(lim.value, s.buffer.pending)
    ensures s.journal <= Flush(env, s).journal && (Steady(lim, s) ==> Bounded(lim, Flush(env, s)))
  {
    hide PrintStrip, Printable, FineJournal, Replay;
    if s.buffer.pending != [] {
      PrintStripExtends(env, lim, s.(buffer := EMPTY_BUFFER), s.buffer.pending);
    }
  }

  lemma RestIsPrintable(cfg: Config, pending: seq<PendingLabel>, pl: PendingLabel)
    requires Resting(cfg, pending)
    ensures pending != [] ==> Printable(cfg, pending)
    ensures Rendered(cfg, pl.image) ==> Printable(cfg, pending + [pl])
  {
    hide IsFull, Rendered;
    assert (pending + [pl])[..|pending + [pl]| - 1] == pending;
  }

  lemma FlushJournal(env: Env, s: State)
    ensures s.journal <= Flush(env, s).journal
  {
    FlushPrints(env, None, s);
  }

  lemma FlushAdvances(env: Env, lim: Option<Config>, s: State)
    ensures Advances(lim, s, Flush(env, s))
  {
    hide Flush, Printable, IsFull, Steady;
    FlushJournal(env, s);
    if Bounded(lim, s) {
      if lim.Some? && s.buffer.pending != [] {
        RestIsPrintable(lim.value, s.buffer.pending, s.buffer.pending[0]);
      }
      FlushPrints(env, lim, s);
    }
  }

  lemma JoinedIsPrintable(lim: Option<Config>, s: State, pl: PendingLabel)
    requires Bounded(lim, s) && (lim.Some? ==> Rendered(lim.value, pl.image))
    ensures lim.Some? ==> Printable(lim.value, s.buffer.pending + [pl])
  {
    hide Steady, Printable, Resting;
    if lim.Some? {
      RestIsPrintable(lim.value, s.buffer.pending, pl);
    }
  }

  /** One copy joins the strip, which is flushed as soon as it is full. */
  lemma JoinAdvances(env: Env, lim: Option<Config>, s: State, pl: PendingLabel)
    requires lim.Some? ==> env.cfg == lim.value && Rendered(env.cfg, pl.image)
    ensures var s1 := s.(buffer := AddTo(s.buffer, pl, env.cfg.tapeWidth, env.now));
            Advances(lim, s, if IsFull(env.cfg, s1.buffer.pending) then Flush(env, s1) else s1)
  {
    hide Flush, IsFull, FineJournal, Replay, Rendered;
    var s1 := s.(buffer := AddTo(s.buffer, pl, env.cfg.tapeWidth, env.now));
    FlushJournal(env, s1);
    if Bounded(lim, s) {
      JoinedIsPrintable(lim, s, pl);
      FlushPrints(env, lim, s1);
    }
  }

  lemma AddOneAdvances(env: Env, lim: Option<Config>, s: State, pl: PendingLabel)
    requires lim.Some? ==> env.cfg == lim.value && Rendered(env.cfg, pl.image)
    ensures Advances(lim, s, AddOne(env, s, pl))
  {
    hide Flush, IsFull, Advances, Rendered;
    ExtendsItself(lim, s);
    FlushAdvances(env, lim, s);
    var s1 := if Accepts(s.buffer, env.cfg.tapeWidth) then s else Flush(env, s);
    if !s1.raised {
      JoinAdvances(env, lim, s1, pl);
      AdvancesThen(lim, s, s1, AddOne(env, s, pl));
    }
  }

  lemma {:induction false} AddAllAdvances(env: Env, lim: Option<Config>, s: State, todo: seq<PendingLabel>)
    requires lim.Some? ==> env.cfg == lim.value && AllRendered(env.cfg, todo)
    ensures Advances(lim, s, AddAll(env, s, todo))
    decreases |todo|
  {
    hide AddOne, Advances, Rendered;
    ExtendsItself(lim, s);
    if todo != [] && !s.raised {
      var s1 := AddOne(env, s, todo[0]);
      AddOneAdvances(env, lim, s, todo[0]);
      AddAllAdvances(env, lim, s1, todo[1..]);
      AdvancesThen(lim, s, s1, AddAll(env, s1, todo[1..]));
    }
  }

  lemma BufferCopiesAdvances(env: Env, lim: Option<Config>, s: State, id: JobId, todo: seq<PendingLabel>, flush: bool)
    requires lim.Some? ==> env.cfg == lim.value && AllRendered(env.cfg, todo)
    ensures Advances(lim, s, BufferCopies(env, s, id, todo, flush))
  {
    hide AddAll, Flush, MaybeFinalize, Advances, Extends, AllRendered;
    var s1 := AddAll(env, s, todo);
    AddAllAdvances(env, lim, s, todo);
    FlushAdvances(env, lim, s1);
    AdvancesThen(lim, s, s1, Flush(env, s1));
    var s2 := if flush && !s1.raised then Flush(env, s1) else s1;
    FinalizeExtends(lim, s2, id);
    ExtendsAdvances(lim, s2, MaybeFinalize(s2, id));
    AdvancesThen(lim, s, s2, MaybeFinalize(s2, id));
  }

  lemma {:induction false} RunDiscreteExtends(env: Env, lim: Option<Config>, s: State, id: JobId, todo: seq<PendingLabel>)
    ensures Extends(lim, s, RunDiscrete(env, s, id, todo))
    decreases |todo|
  {
    hide Extends, Send, StallEach, SettleOne, MaybeFinalize;
    ExtendsItself(lim, s);
    FinalizeExtends(lim, s, id);
    if !s.raised && todo != [] {
      SendExtends(env, lim, s, [todo[0]], false);
      var r := Send(env, s, [todo[0]], false);
      StallEachExtends(lim, r.0, [id], env.now);
      ExtendsThen(lim, s, r.0, StallEach(r.0, [id], env.now));
      var s1 := SettleOne(r.0, todo[0], r.1.ok, false);
      SettleOneExtends(lim, r.0, todo[0], r.1.ok, false);
      ExtendsThen(lim, s, r.0, s1);
      RunDiscreteExtends(env, lim, s1, id, todo[1..]);
      ExtendsThen(lim, s, s1, RunDiscrete(env, s1, id, todo[1..]));
    }
  }

  // --- taking a job on --------------------------------------------------------

  lemma DecideExtends(env: Env, lim: Option<Config>, s: State, job: PrintJob, already: set<nat>, i: nat)
    requires i < |job.labels|
    ensures Extends(lim, s, Decide(env, s, job, already, i).0)
  {
    hide Extends;
    ExtendsItself(lim, s);
    var key := DedupeKey(env.cfg, job.labels[i]);
    if key.Some? {
      PlainExtends(lim, s, DedupeRecorded(key.value, job.id, env.now));
    }
  }

  /** Planning prints nothing, and what it asks for is rendered. */
  lemma {:induction false} PlanExtends(env: Env, lim: Option<Config>, s: State, job: PrintJob, already: set<nat>, n: nat)
    requires n <= |job.labels|
    ensures var r := PlanLabels(env, s, job, already, n);
            Extends(lim, s, r.0) && forall i :: 0 <= i < n && r.1[i].Print? ==> Rendered(env.cfg, r.1[i].image)
  {
    hide Extends;
    ExtendsItself(lim, s);
    if n > 0 {
      PlanExtends(env, lim, s, job, already, n - 1);
      var r := PlanLabels(env, s, job, already, n - 1);
      DecideExtends(env, lim, r.0, job, already, n - 1);
      ExtendsThen(lim, s, r.0, PlanLabels(env, s, job, already, n).0);
    }
  }

  lemma {:induction false} ExpandRendered(cfg: Config, id: JobId, plan: seq<Decision>)
    requires forall i :: 0 <= i < |plan| && plan[i].Print? ==> Rendered(cfg, plan[i].image)
    ensures AllRendered(cfg, Expand(id, plan))
  {
    hide Rendered;
    if plan != [] {
      ExpandRendered(cfg, id, plan[..|plan| - 1]);
    }
  }

  lemma PrepareExtends(env: Env, lim: Option<Config>, s: State, id: JobId)
    requires id in s.tables.jobs
    ensures var r := Prepare(env, s, id);
            && Extends(lim, s, r.0) && AllRendered(env.cfg, Expand(id, r.1)) && id in r.0.acc
            && s.journal < r.0.journal && r.0.journal[|r.0.journal| - 1] == Planned(id, r.1)
  {
    hide PlanLabels, FineJournal, Replay, AllRendered, Expand;
    var job := s.tables.jobs[id].job;
    var s1 := Emit(s, Marked(id, Printing));
    PlainExtends(lim, s, Marked(id, Printing));
    var r := PlanLabels(env, s1, job, PrintedLabels(s1.tables, id), |job.labels|);
    PlanExtends(env, lim, s1, job, PrintedLabels(s1.tables, id), |job.labels|);
    PlainExtends(lim, r.0, Planned(id, r.1));
    ExpandRendered(env.cfg, id, r.1);
  }

  lemma PreparedAdvances(env: Env, lim: Option<Config>, s: State, id: JobId, todo: seq<PendingLabel>, flush: bool)
    requires lim.Some? ==> env.cfg == lim.value && AllRendered(env.cfg, todo)
    ensures Advances(lim, s, Finalize(s, id))
    ensures Advances(lim, s, RunDiscrete(env, Flush(env, s), id, todo))
    ensures Advances(lim, s, BufferCopies(env, s, id, todo, flush))
  {
    hide Finalize, RunDiscrete, Flush, BufferCopies, Extends, Advances, AllRendered;
    FinalizeExtends(lim, s, id);
    ExtendsAdvances(lim, s, Finalize(s, id));
    FlushAdvances(env, lim, s);
    RunDiscreteExtends(env, lim, Flush(env, s), id, todo);
    ExtendsAdvances(lim, Flush(env, s), RunDiscrete(env, Flush(env, s), id, todo));
    AdvancesThen(lim, s, Flush(env, s), RunDiscrete(env, Flush(env, s), id, todo));
    BufferCopiesAdvances(env, lim, s, id, todo, flush);
  }

  /** `submit` takes the job on, or refuses it, and adds only fine effects. */
  lemma SubmitAdvances(env: Env, lim: Option<Config>, s: State, id: JobId)
    requires lim.Some? ==> env.cfg == lim.value
    ensures Advances(lim, s, Submit(env, s, id))
    ensures id in s.tables.jobs ==> TakenUp(Submit(env, s, id).journal, |s.journal|, id)
  {
    hide Prepare, Finalize, RunDiscrete, Flush, BufferCopies, Steady, Resting, Expand, Total, AllRendered;
    if id in s.tables.jobs {
      var job := s.tables.jobs[id].job;
      if WrongModel(job) {
        ConcludeExtends(lim, s, id, Rejection(job));
        ExtendsAdvances(lim, s, Conclude(s, id, Rejection(job)));
        assert Conclude(s, id, Rejection(job)).journal[|s.journal|] == Finished(id, Rejection(job));
      } else {
        var r := Prepare(env, s, id);
        PrepareExtends(env, lim, s, id);
        ExtendsAdvances(lim, s, r.0);
        PreparedAdvances(env, lim, r.0, id, Expand(id, r.1), job.flush || AsStrip(env.cfg, job));
        assert Submit(env, s, id).journal[|r.0.journal| - 1] == Planned(id, r.1);
      }
    } else {
      RaisedAdvances(lim, s);
    }
  }

  lemma RaisedAdvances(lim: Option<Config>, s: State)
    ensures Advances(lim, s, s.(raised := true))
  {
    hide FineJournal, Replay;
  }

  /** Since position `from`, was job id taken on, or refused? */
  ghost predicate TakenUp(h: seq<Event>, from: nat, id: JobId) {
    exists q :: from <= q < |h| && ((h[q].Planned? && h[q].id == id) || (h[q].Finished? && h[q].id == id))
  }

  lemma TakenUpStays(h: seq<Event>, g: seq<Event>, from: nat, to: nat, id: JobId)
    requires h <= g && to <= from && TakenUp(h, from, id)
    ensures TakenUp(g, to, id)
  {
    var q :| from <= q < |h| && ((h[q].Planned? && h[q].id == id) || (h[q].Finished? && h[q].id == id));
    assert g[q] == h[q];
  }

  lemma LoweredAdvances(lim: Option<Config>, s: State, s1: State)
    requires Advances(lim, s, s1)
    ensures Advances(lim, s, s1.(raised := false))
  {
    hide FineJournal, Replay;
  }

  lemma {:induction false} SubmitEachAdvances(env: Env, lim: Option<Config>, s: State, ids: seq<JobId>)
    requires lim.Some? ==> env.cfg == lim.value
    ensures Advances(lim, s, SubmitEach(env, s, ids))
    decreases |ids|
  {
    hide Submit, Advances;
    ExtendsItself(lim, s);
    if ids != [] {
      var s1 := Submit(env, s, ids[0]).(raised := false);
      SubmitAdvances(env, lim, s, ids[0]);
      LoweredAdvances(lim, s, Submit(env, s, ids[0]));
      SubmitEachAdvances(env, lim, s1, ids[1..]);
      AdvancesThen(lim, s, s1, SubmitEach(env, s1, ids[1..]));
    }
  }

  lemma StampedAdvances(lim: Option<Config>, s: State, stalled: map<JobId, real>, s1: State)
    requires Advances(lim, s.(stalled := stalled), s1)
    ensures Advances(lim, s, s1)
  {
    hide FineJournal, Replay;
  }

  lemma {:induction false} RetryEachAdvances(env: Env, lim: Option<Config>, s: State, ids: seq<JobId>)
    requires lim.Some? ==> env.cfg == lim.value
    ensures Advances(lim, s, RetryEach(env, s, ids))
    decreases |ids|
  {
    hide Submit, Advances;
    ExtendsItself(lim, s);
    if ids != [] {
      var id := ids[0];
      var s0 := s.(stalled := s.stalled[id := env.now]);
      SubmitAdvances(env, lim, s0, id);
      LoweredAdvances(lim, s0, Submit(env, s0, id));
      StampedAdvances(lim, s, s0.stalled, Submit(env, s0, id).(raised := false));
      var s1 := if Due(env, s, id) then Submit(env, s0, id).(raised := false) else s;
      RetryEachAdvances(env, lim, s1, ids[1..]);
      AdvancesThen(lim, s, s1, RetryEach(env, s1, ids[1..]));
    }
  }

  // --- intake -----------------------------------------------------------------

  /** Every row is listed under its own id, and a row without a result is not terminal. */
  ghost predicate RowsListed(t: Tables) {
    forall id :: id in t.jobs ==>
      id in t.order && t.jobs[id].job.id == id && (t.jobs[id].result.None? ==> !t.jobs[id].state.Terminal?)
  }

  lemma RowsListedAfter(lim: Option<Config>, h: seq<Event>, e: Event)
    requires RowsListed(Replay(h)) && Fine(lim, h, e)
    ensures RowsListed(Apply(Replay(h), e))
  {
    hide Replay, SendOf, PrintedInSend, BegunInSend, Printable;
    var t := Replay(h);
    var u := Apply(t, e);
    forall id | id in u.jobs ensures id in u.order && u.jobs[id].job.id == id && (u.jobs[id].result.None? ==> !u.jobs[id].state.Terminal?) {
      assert id in t.jobs || e.Inserted?;
    }
  }

  lemma {:induction false} FineTables(lim: Option<Config>, h: seq<Event>)
    requires FineJournal(lim, h)
    ensures RowsListed(Replay(h))
  {
    hide Fine, Apply;
    if h != [] {
      FineTables(lim, Prev(h));
      RowsListedAfter(lim, Prev(h), Last(h));
    }
  }

  lemma KnownKeyExtends(lim: Option<Config>, s: State, d: Delivery, id: JobId, reply: JobResult)
    requires id in s.tables.jobs && (d.job.Some? ==> s.tables.jobs[id].job.key == d.job.value.key)
    ensures Extends(lim, s, Emit(Emit(s, Published(reply)), Acked(d)))
  {
    hide Extends, FineJournal;
    PlainExtends(lim, s, Published(reply));
    EmitExtends(lim, Emit(s, Published(reply)), Acked(d));
    ExtendsThen(lim, s, Emit(s, Published(reply)), Emit(Emit(s, Published(reply)), Acked(d)));
  }

  lemma FreshRow(lim: Option<Config>, s: State, job: PrintJob)
    requires Steady(lim, s) && job.id !in s.tables.jobs && FindKey(s.tables, s.tables.order, job.key).None?
    ensures Fine(lim, s.journal, Inserted(job))
  {
    hide FindKey, Replay, FineJournal;
    FineTables(lim, s.journal);
  }

  lemma RowAcked(lim: Option<Config>, s: State, d: Delivery, id: JobId)
    requires Steady(lim, s) && d.job.Some? && id in s.tables.jobs && s.tables.jobs[id].job.key == d.job.value.key
    ensures Fine(lim, s.journal, Acked(d))
  {
    hide Replay, FineJournal;
  }

  lemma NewRowExtends(lim: Option<Config>, s: State, d: Delivery)
    requires d.job.Some? && d.job.value.id !in s.tables.jobs && FindKey(s.tables, s.tables.order, d.job.value.key).None?
    ensures Extends(lim, s, Emit(Emit(s, Inserted(d.job.value)), Acked(d)))
  {
    hide Extends, FindKey, Fine, FineJournal, Replay;
    var job := d.job.value;
    if Steady(lim, s) {
      FreshRow(lim, s, job);
    }
    EmitExtends(lim, s, Inserted(job));
    var s1 := Emit(s, Inserted(job));
    if Steady(lim, s1) {
      RowAcked(lim, s1, d, job.id);
    }
    EmitExtends(lim, s1, Acked(d));
    ExtendsThen(lim, s, s1, Emit(s1, Acked(d)));
  }

  /** Malformed: nothing to look up. */
  lemma MalformedExtends(lim: Option<Config>, s: State, d: Delivery)
    requires d.job.None?
    ensures Extends(lim, s, Emit(Emit(s, Published(MALFORMED)), Acked(d)))
  {
    hide Extends, FineJournal;
    PlainExtends(lim, s, Published(MALFORMED));
    EmitExtends(lim, Emit(s, Published(MALFORMED)), Acked(d));
    ExtendsThen(lim, s, Emit(s, Published(MALFORMED)), Emit(Emit(s, Published(MALFORMED)), Acked(d)));
  }

  lemma OnMessageExtends(env: Env, lim: Option<Config>, s: State, d: Delivery, fault: IntakeFault)
    ensures Extends(lim, s, OnMessage(env, s, d, fault))
  {
    hide Extends, FindKey, Apply, DuplicateReply;
    ExtendsItself(lim, s);
    if d.job.None? {
      MalformedExtends(lim, s, d);
    } else if fault != PurgeFails {
      var job := d.job.value;
      var s1 := Emit(s, DedupePurged(env.now - env.cfg.dedupeTtl));
      PlainExtends(lim, s, DedupePurged(env.now - env.cfg.dedupeTtl));
      var row := FindKey(s1.tables, s1.tables.order, job.key);
      if fault == NoFault && row.Some? {
        KnownKeyExtends(lim, s1, d, row.value, DuplicateReply(s1.tables, row.value, job));
        ExtendsThen(lim, s, s1, OnMessage(env, s, d, fault));
      } else if fault == NoFault && job.id !in s1.tables.jobs {
        NewRowExtends(lim, s1, d);
        ExtendsThen(lim, s, s1, OnMessage(env, s, d, fault));
      }
    }
  }

  // --- runs -------------------------------------------------------------------

  lemma TickAdvances(env: Env, lim: Option<Config>, s: State)
    requires lim.Some? ==> env.cfg == lim.value
    ensures Advances(lim, s, Tick(env, s))
  {
    hide Flush, RetryEach, Advances, IdleExpired;
    ExtendsItself(lim, s);
    FlushAdvances(env, lim, s);
    var s1 := if IdleExpired(env.cfg, s.buffer, env.now) then Flush(env, s) else s;
    RetryEachAdvances(env, lim, s1, QueuedIds(s1.tables));
    AdvancesThen(lim, s, s1, RetryQueued(env, s1));
  }

  /** Every call adds only fine effects, whatever state it finds. */
  lemma CallAdvances(env: Env, lim: Option<Config>, s: State, op: Op)
    requires lim.Some? ==> env.cfg == lim.value
    ensures Advances(lim, s, Do(env, s, op))
  {
    hide Advances, Extends, Submit, Flush, Tick, SubmitEach, OnMessage;
    match op
    case SubmitOp(id) => SubmitAdvances(env, lim, s, id);
    case FlushOp => FlushAdvances(env, lim, s);
    case TickOp => TickAdvances(env, lim, s);
    case RecoverOp => SubmitEachAdvances(env, lim, s, QueuedIds(s.tables));
    case MessageOp(d, fault) =>
      OnMessageExtends(env, lim, s, d, fault);
      ExtendsAdvances(lim, s, OnMessage(env, s, d, fault));
  }

  lemma {:induction false} FinePrefix(lim: Option<Config>, h: seq<Event>, k: nat)
    requires FineJournal(lim, h) && k <= |h|
    ensures FineJournal(lim, h[..k])
  {
    hide Fine;
    if k < |h| {
      FinePrefix(lim, Prev(h), k);
      assert Prev(h)[..k] == h[..k];
    } else {
      assert h[..k] == h;
    }
  }

  lemma FineAt(lim: Option<Config>, h: seq<Event>, q: nat)
    requires FineJournal(lim, h) && q < |h|
    ensures Fine(lim, h[..q], h[q])
  {
    hide Fine;
    FinePrefix(lim, h, q + 1);
    assert Prev(h[..q + 1]) == h[..q];
  }

  lemma RebootBounded(lim: Option<Config>, h: seq<Event>)
    requires FineJournal(lim, h)
    ensures Bounded(lim, Reboot(h))
  {
    FineAppended(lim, h, Booted);
  }

  lemma StepBounded(lim: Option<Config>, s: State, step: Step, s1: State)
    requires Bounded(lim, s) && Leads(s, step, s1) && (lim.Some? ==> step.env.cfg == lim.value)
    ensures Bounded(lim, s1) && s.journal <= s1.journal
  {
    hide Do, FineJournal, Replay, Reboot;
    var done := Do(step.env, s, step.op);
    CallAdvances(step.env, lim, s, step.op);
    if step.Crash? {
      FinePrefix(lim, done.journal, step.kept);
      RebootBounded(lim, done.journal[..step.kept]);
      RebootJournal(done.journal[..step.kept]);
    }
  }

  lemma RebootJournal(h: seq<Event>)
    ensures h <= Reboot(h).journal
  {
  }

  ghost predicate UnderOne(lim: Option<Config>, steps: seq<Step>) {
    lim.Some? ==> forall i :: 0 <= i < |steps| ==> steps[i].env.cfg == lim.value
  }

  lemma {:induction false} AnyRunBounded(lim: Option<Config>, states: seq<State>, steps: seq<Step>, n: nat)
    requires AnyRun(states, steps) && n < |states| && UnderOne(lim, steps)
    ensures Bounded(lim, states[n])
  {
    hide Leads, Bounded, Reboot;
    if n == 0 {
      RebootBounded(lim, []);
    } else {
      AnyRunBounded(lim, states, steps, n - 1);
      StepBounded(lim, states[n - 1], steps[n - 1], states[n]);
    }
  }

  /** Nothing the journal says is ever taken back. */
  lemma {:induction false} JournalOnlyGrows(states: seq<State>, steps: seq<Step>, m: nat, n: nat)
    requires AnyRun(states, steps) && m <= n < |states|
    ensures states[m].journal <= states[n].journal
    decreases n
  {
    hide Leads, Bounded, Reboot;
    if m < n {
      JournalOnlyGrows(states, steps, m, n - 1);
      AnyRunBounded(None, states, steps, n - 1);
      StepBounded(None, states[n - 1], steps[n - 1], states[n]);
    }
  }

  /** A strip send begins at most one frame, whatever the link does, and reports that nothing
      was written only if it began none; a send reports success exactly when its frame went
      out; and every attempt of a send is for the same copies. */
  lemma StripsAreTriedOnce(states: seq<State>, steps: seq<Step>, n: nat, p: nat)
    requires AnyRun(states, steps) && n < |states|
    requires p < |states[n].journal| && states[n].journal[p].Settled?
    ensures var e := states[n].journal[p]; var h := states[n].journal[..p];
            && SendOf(h, e.copies, e.strip)
            && (e.strip ==> BegunInSend(h) == if e.wrote then 1 else 0)
            && (e.wrote ==> BegunInSend(h) > 0)
            && PrintedInSend(h) == if e.ok then 1 else 0
  {
    hide AnyRun;
    AnyRunBounded(None, states, steps, n);
    FineAt(None, states[n].journal, p);
  }

  // --- no acknowledged job is lost --------------------------------------------

  /** Rows are never dropped, and a row's job never changes. */
  lemma {:induction false} RowsRemain(h: seq<Event>, p: nat, id: JobId)
    requires FineJournal(None, h) && p <= |h| && id in Replay(h[..p]).jobs
    ensures id in Replay(h).jobs && Replay(h).jobs[id].job == Replay(h[..p]).jobs[id].job
    decreases |h|
  {
    if p < |h| {
      assert Prev(h)[..p] == h[..p];
      RowsRemain(Prev(h), p, id);
    } else {
      assert h[..p] == h;
    }
  }

  lemma InsertedRemains(h: seq<Event>, p: nat)
    requires FineJournal(None, h) && p < |h| && h[p].Inserted?
    ensures h[p].job.id in Replay(h).jobs && Replay(h).jobs[h[p].job.id].job == h[p].job
  {
    hide Fine, FineJournal, Replay;
    assert h[..p + 1] == h[..p] + [h[p]];
    FinePrefix(None, h, p);
    FineAt(None, h, p);
    FineAppended(None, h[..p], h[p]);
    RowsRemain(h, p + 1, h[p].job.id);
  }

  /** Over every interleaving of deliveries, failures, crashes and calls: an acknowledged
      well-formed delivery has a durable row under its key, and that row has its stored
      result or its place in the queue `recover` submits. */
  lemma AcknowledgedIsDurable(states: seq<State>, steps: seq<Step>, n: nat, p: nat) returns (id: JobId)
    requires AnyRun(states, steps) && n < |states|
    requires p < |states[n].journal| && states[n].journal[p].Acked? && states[n].journal[p].delivery.job.Some?
    ensures var t := states[n].tables;
            && id in t.jobs && t.jobs[id].job.key == states[n].journal[p].delivery.job.value.key
            && (t.jobs[id].result.Some? || id in QueuedIds(t))
  {
    hide AnyRun, QueuedIn;
    AnyRunBounded(None, states, steps, n);
    var h := states[n].journal;
    FineAt(None, h, p);
    id :| id in Replay(h[..p]).jobs && Replay(h[..p]).jobs[id].job.key == h[p].delivery.job.value.key;
    RowsRemain(h, p, id);
    FineTables(None, h);
  }

  /** Each key, and each job id, is taken in as new at most once ever. */
  lemma NewAtMostOnce(states: seq<State>, steps: seq<Step>, n: nat, p: nat, q: nat)
    requires AnyRun(states, steps) && n < |states|
    requires p < q < |states[n].journal| && states[n].journal[p].Inserted? && states[n].journal[q].Inserted?
    ensures states[n].journal[p].job.key != states[n].journal[q].job.key
    ensures states[n].journal[p].job.id != states[n].journal[q].job.id
  {
    hide AnyRun;
    AnyRunBounded(None, states, steps, n);
    var h := states[n].journal;
    FineAt(None, h, q);
    FinePrefix(None, h, q);
    assert h[..q][p] == h[p];
    InsertedRemains(h[..q], p);
  }

  lemma {:induction false} SubmitEachTakesUp(env: Env, s: State, ids: seq<JobId>, id: JobId)
    requires Bounded(None, s) && id in ids && id in s.tables.jobs
    ensures TakenUp(SubmitEach(env, s, ids).journal, |s.journal|, id)
    decreases |ids|
  {
    hide Submit, TakenUp, FineJournal, Replay;
    var s1 := Submit(env, s, ids[0]).(raised := false);
    SubmitAdvances(env, None, s, ids[0]);
    LoweredAdvances(None, s, Submit(env, s, ids[0]));
    SubmitEachAdvances(env, None, s1, ids[1..]);
    var last := SubmitEach(env, s1, ids[1..]);
    if id == ids[0] {
      TakenUpStays(s1.journal, last.journal, |s.journal|, |s.journal|, id);
    } else {
      assert s1.journal[..|s.journal|] == s.journal;
      RowsRemain(s1.journal, |s.journal|, id);
      SubmitEachTakesUp(env, s1, ids[1..], id);
      TakenUpStays(last.journal, last.journal, |s1.journal|, |s.journal|, id);
    }
  }

  /** `recover` takes up every job that has no stored result, whatever becomes of the others. */
  lemma RecoverTakesUpEveryUnfinishedJob(env: Env, s: State, id: JobId)
    requires Bounded(None, s) && id in s.tables.jobs && s.tables.jobs[id].result == None
    ensures TakenUp(Recover(env, s).journal, |s.journal|, id)
  {
    hide SubmitEach, TakenUp, QueuedIn;
    FineTables(None, s.journal);
    SubmitEachTakesUp(env, s, QueuedIds(s.tables), id);
  }

  // --- strips keep their limits -----------------------------------------------

  /** In a run under one configuration the pending strip is never left full, and every strip
      ever tried is of rendered labels, was not full before its last, and holds at most
      `max_labels`. */
  lemma StripsStayBounded(cfg: Config, states: seq<State>, steps: seq<Step>, n: nat)
    requires AnyRun(states, steps) && n < |states| && UnderOne(Some(cfg), steps)
    ensures Resting(cfg, states[n].buffer.pending)
    ensures forall p :: 0 <= p < |states[n].journal| && states[n].journal[p].Tried? && states[n].journal[p].strip ==>
      && Printable(cfg, states[n].journal[p].copies)
      && (cfg.maxLabels >= 1 ==> |states[n].journal[p].copies| <= cfg.maxLabels)
  {
    hide AnyRun, Printable, FineJournal, Replay, Resting;
    AnyRunBounded(Some(cfg), states, steps, n);
    var h := states[n].journal;
    forall p | 0 <= p < |h| && h[p].Tried? && h[p].strip
      ensures Printable(cfg, h[p].copies) && (cfg.maxLabels >= 1 ==> |h[p].copies| <= cfg.maxLabels)
    {
      FineAt(Some(cfg), h, p);
      FewLabels(cfg, h[p].copies);
    }
  }

  lemma FewLabels(cfg: Config, copies: seq<PendingLabel>)
    requires Printable(cfg, copies)
    ensures cfg.maxLabels >= 1 ==> |copies| <= cfg.maxLabels
  {
  }
}
