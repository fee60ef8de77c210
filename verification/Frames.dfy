/** Which frames are tried, how often and by which route, and which jobs are refused: over every
    run under one configuration. */
module Frames {
  import opened Basics
  import opened Contract
  import opened Spool
  import opened PrintLoop
  import opened History
  import opened PrintLoopInvariant
  import opened PrintLoopSteps
  import opened PrintLoopJournal
  import opened EveryRun

  // --- one send ---------------------------------------------------------------

  /** Is another attempt safe and promising after this one? A connect that failed never touched
      tape; a single label may be printed again; a strip may not. */
  predicate Retriable(strip: bool, o: Attempt) {
    o == ConnectFailed(true) || (!strip && o == PrintFailed(true))
  }

  /** What the first n attempts of a send leave in the journal. */
  function Tries(env: Env, s: State, copies: seq<PendingLabel>, strip: bool, n: nat): (r: seq<Event>)
    ensures |r| == n
  {
    seq(n, j requires 0 <= j < n => Tried(copies, strip, env.link(|s.journal| + j)))
  }

  /** Of the attempts left, starting with attempt number `at` on the link, n are made and end
      like this: each but the last could be retried, and the last could not, or was the last
      one left. */
  ghost predicate EndsAfter(env: Env, at: nat, strip: bool, left: nat, n: nat, out: Sent) {
    && n <= left
    && (forall j: nat :: at <= j < at + n - 1 ==> Retriable(strip, env.link(j)))
    && (n < left ==> n > 0 && !Retriable(strip, env.link(at + n - 1)))
    && (out.ok <==> n > 0 && env.link(at + n - 1) == FramePrinted)
    && (out.wrote <==> n > 0 && !env.link(at + n - 1).ConnectFailed?)
  }

  lemma OneMoreAttempt(env: Env, at: nat, strip: bool, left: nat, n: nat, out: Sent)
    requires EndsAfter(env, at + 1, strip, left, n, out) && left > 0 && Retriable(strip, env.link(at))
    ensures EndsAfter(env, at, strip, left + 1, n + 1, out)
  {
  }

  lemma GoesOn(env: Env, s: State, copies: seq<PendingLabel>, strip: bool, attempt: nat)
    requires attempt + 1 < env.cfg.maxAttempts && Retriable(strip, env.link(|s.journal|))
    ensures SendFrom(env, s, copies, strip, attempt)
            == SendFrom(env, Emit(s, Tried(copies, strip, env.link(|s.journal|))), copies, strip, attempt + 1)
  {
  }

  lemma EndsHere(env: Env, s: State, copies: seq<PendingLabel>, strip: bool, attempt: nat)
    requires attempt < env.cfg.maxAttempts
    requires attempt + 1 == env.cfg.maxAttempts || !Retriable(strip, env.link(|s.journal|))
    ensures var r := SendFrom(env, s, copies, strip, attempt);
            && r.0 == Emit(s, Tried(copies, strip, env.link(|s.journal|)))
            && EndsAfter(env, |s.journal|, strip, env.cfg.maxAttempts - attempt, 1, r.1)
  {
  }

  lemma {:induction false} AttemptsMade(env: Env, s: State, copies: seq<PendingLabel>, strip: bool, attempt: nat)
    returns (n: nat)
    requires attempt <= env.cfg.maxAttempts
    ensures var r := SendFrom(env, s, copies, strip, attempt);
            && r.0 == s.(journal := s.journal + Tries(env, s, copies, strip, n))
            && EndsAfter(env, |s.journal|, strip, env.cfg.maxAttempts - attempt, n, r.1)
    decreases env.cfg.maxAttempts - attempt
  {
    n := 0;
    if attempt == env.cfg.maxAttempts {
      assert s.journal + Tries(env, s, copies, strip, 0) == s.journal;
    } else {
      hide EndsAfter, SendFrom;
      var o := env.link(|s.journal|);
      var s1 := Emit(s, Tried(copies, strip, o));
      if Retriable(strip, o) && attempt + 1 < env.cfg.maxAttempts {
        GoesOn(env, s, copies, strip, attempt);
        n := AttemptsMade(env, s1, copies, strip, attempt + 1);
        OneMoreAttempt(env, |s.journal|, strip, env.cfg.maxAttempts - attempt - 1, n,
                       SendFrom(env, s1, copies, strip, attempt + 1).1);
        OneMoreTry(env, s, s1, copies, strip, n);
        n := n + 1;
      } else {
        EndsHere(env, s, copies, strip, attempt);
        n := 1;
        assert Tries(env, s, copies, strip, 1) == [Tried(copies, strip, o)];
      }
    }
  }

  lemma OneMoreTry(env: Env, s: State, s1: State, copies: seq<PendingLabel>, strip: bool, n: nat)
    requires s1.journal == s.journal + [Tried(copies, strip, env.link(|s.journal|))]
    ensures s1.journal + Tries(env, s1, copies, strip, n) == s.journal + Tries(env, s, copies, strip, n + 1)
  {
  }

  /** A send goes on exactly as long as the attempt before was retriable and attempts are left:
      it ends with the first that is not, and reports what that one came to. */
  lemma SendTriesExactly(env: Env, s: State, copies: seq<PendingLabel>, strip: bool) returns (n: nat)
    ensures var r := Send(env, s, copies, strip);
            && r.0 == s.(journal := s.journal + Tries(env, s, copies, strip, n) + [Settled(copies, strip, r.1.ok, r.1.wrote)])
            && EndsAfter(env, |s.journal|, strip, env.cfg.maxAttempts, n, r.1)
  {
    hide SendFrom, EndsAfter;
    n := AttemptsMade(env, s, copies, strip, 0);
  }

  /** A printer that wakes up in time is printed to: if the first k attempts can be retried and
      the next one would print, and it is among those allowed, the send makes it and succeeds. */
  lemma SendRetriesUntilPrinted(env: Env, s: State, copies: seq<PendingLabel>, strip: bool, k: nat)
    requires var at := |s.journal|;
             && k < env.cfg.maxAttempts && env.link(at + k) == FramePrinted
             && forall j: nat :: at <= j < at + k ==>
                  env.link(j) == ConnectFailed(true) || (!strip && env.link(j) == PrintFailed(true))
    ensures var r := Send(env, s, copies, strip);
            && r.1 == Sent(true, true)
            && r.0.journal == s.journal + Tries(env, s, copies, strip, k + 1) + [Settled(copies, strip, true, true)]
  {
    hide Send;
    var n := SendTriesExactly(env, s, copies, strip);
    var at := |s.journal|;
    assert forall j: nat :: at <= j < at + k ==> Retriable(strip, env.link(j));
    assert !Retriable(strip, env.link(at + k));
    assert n == k + 1;
  }

  // --- what an effect says of frames and refusals -----------------------------

  /** Does this job get a frame for every copy? On die-cut tape every job does, as a frame
      across gaps would print on them; on continuous tape a discrete job does that is not
      printed as a strip of its own. */
  predicate Separately(cfg: Config, job: PrintJob) {
    cfg.tapeKind == Gap || (job.batchMode == Discrete && !cfg.discreteAsStrip)
  }

  /** Does this job ask for another printer? */
  predicate Refused(job: PrintJob) {
    job.requireModel.Some? && job.requireModel.value != "" && job.requireModel.value != "phomemo-d30"
  }

  ghost predicate Welcome(t: Tables, id: JobId) {
    id in t.jobs && !Refused(t.jobs[id].job)
  }

  /** These copies are of welcome jobs, printed separately or in strips as said. */
  ghost predicate OnRoute(cfg: Config, t: Tables, copies: seq<PendingLabel>, strip: bool) {
    forall c :: c in copies ==> Welcome(t, c.job) && (strip <==> !Separately(cfg, t.jobs[c.job].job))
  }

  /** Attempts of the send the journal ends in. */
  ghost function TriesInSend(h: seq<Event>): nat {
    if h == [] || !Last(h).Tried? then 0 else TriesInSend(Prev(h)) + 1
  }

  /** That send made n attempts, each but the last retriable; if it failed, the last was not
      retriable or was the last allowed. */
  ghost predicate Persisted(cfg: Config, h: seq<Event>, strip: bool, ok: bool) {
    var n := TriesInSend(h);
    && n <= cfg.maxAttempts && n <= |h|
    && (forall j :: |h| - n <= j < |h| - 1 ==> h[j].Tried? && Retriable(strip, h[j].outcome))
    && (!ok ==> n == cfg.maxAttempts || (n > 0 && Last(h).Tried? && !Retriable(strip, Last(h).outcome)))
    && (ok ==> n > 0 && Last(h).Tried? && Last(h).outcome == FramePrinted)
  }

  ghost predicate Framed(cfg: Config, h: seq<Event>, e: Event) {
    var t := Replay(h);
    match e
    case Tried(copies, strip, _) => copies != [] && OnRoute(cfg, t, copies, strip) && (!strip ==> |copies| == 1)
    case Settled(_, strip, ok, _) => Persisted(cfg, h, strip, ok)
    case Planned(id, _) => Welcome(t, id)
    case Finished(id, r) => id in t.jobs && (r.state == Rejected <==> Refused(t.jobs[id].job))
    case Inserted(job) => job.id !in t.jobs
    case _ => true
  }

  ghost predicate AllFramed(cfg: Config, h: seq<Event>) {
    h == [] || (AllFramed(cfg, Prev(h)) && Framed(cfg, Prev(h), Last(h)))
  }

  /** Every effect was as it should be, jobs in flight are welcome, and the pending strip holds
      copies of strip jobs only. */
  ghost predicate Fit(cfg: Config, s: State) {
    && s.tables == Replay(s.journal) && AllFramed(cfg, s.journal)
    && (s.journal != [] ==> !Last(s.journal).Tried?)
    && (forall id :: id in s.acc ==> Welcome(s.tables, id))
    && OnRoute(cfg, s.tables, s.buffer.pending, true)
  }

  /** Rows stay, with their jobs. */
  ghost predicate SameJobs(t: Tables, u: Tables) {
    forall id :: id in t.jobs ==> id in u.jobs && u.jobs[id].job == t.jobs[id].job
  }

  /** From s to s1 all that is kept. */
  ghost predicate Goes(cfg: Config, s: State, s1: State) {
    Fit(cfg, s1) && SameJobs(s.tables, s1.tables)
  }

  lemma GoesThen(cfg: Config, s: State, s1: State, s2: State)
    requires Goes(cfg, s, s1) && Goes(cfg, s1, s2)
    ensures Goes(cfg, s, s2)
  {
  }

  lemma StillOnRoute(cfg: Config, t: Tables, u: Tables, copies: seq<PendingLabel>, strip: bool)
    requires SameJobs(t, u) && OnRoute(cfg, t, copies, strip)
    ensures OnRoute(cfg, u, copies, strip)
  {
  }

  lemma EmitFit(cfg: Config, s: State, e: Event)
    requires Fit(cfg, s) && !e.Tried? && Framed(cfg, s.journal, e)
    ensures Goes(cfg, s, Emit(s, e))
  {
    hide Framed, OnRoute, Welcome;
    Appended(s.journal, e);
    ApplyKeepsJobs(cfg, s.tables, e, s.journal);
    var s1 := Emit(s, e);
    StillOnRoute(cfg, s.tables, s1.tables, s.buffer.pending, true);
    forall id | id in s1.acc ensures Welcome(s1.tables, id) {
      StillWelcome(s.tables, s1.tables, id);
    }
  }

  lemma StillWelcome(t: Tables, u: Tables, id: JobId)
    requires SameJobs(t, u) && Welcome(t, id)
    ensures Welcome(u, id)
  {
  }

  lemma ApplyKeepsJobs(cfg: Config, t: Tables, e: Event, h: seq<Event>)
    requires t == Replay(h) && Framed(cfg, h, e)
    ensures SameJobs(t, Apply(t, e))
  {
  }

  /** A change of tallies, stamps or flags; the pending strip may only lose copies. */
  lemma Reshaped(cfg: Config, s: State, s1: State)
    requires Fit(cfg, s) && s1.journal == s.journal && s1.tables == s.tables
    requires (forall id :: id in s1.acc ==> id in s.acc) && (s1.buffer == s.buffer || s1.buffer.pending == [])
    ensures Goes(cfg, s, s1)
  {
  }

  // --- sends ------------------------------------------------------------------

  lemma TriesGrow(h: seq<Event>, env: Env, s: State, copies: seq<PendingLabel>, strip: bool, n: nat)
    ensures h + Tries(env, s, copies, strip, n + 1)
            == h + Tries(env, s, copies, strip, n) + [Tried(copies, strip, env.link(|s.journal| + n))]
  {
  }

  lemma OneTryFramed(cfg: Config, h: seq<Event>, e: Event)
    requires AllFramed(cfg, h) && e.Tried? && Framed(cfg, h, e)
    ensures var g := h + [e];
            AllFramed(cfg, g) && Replay(g) == Replay(h) && TriesInSend(g) == TriesInSend(h) + 1 && g != [] && Last(g) == e
  {
    hide Framed;
    Appended(h, e);
  }

  lemma {:induction false} TriesFramed(cfg: Config, h: seq<Event>, env: Env, s: State, copies: seq<PendingLabel>, strip: bool,
                                       n: nat)
    requires AllFramed(cfg, h) && (h != [] ==> !Last(h).Tried?)
    requires copies != [] && OnRoute(cfg, Replay(h), copies, strip) && (!strip ==> |copies| == 1)
    ensures var g := h + Tries(env, s, copies, strip, n);
            AllFramed(cfg, g) && Replay(g) == Replay(h) && TriesInSend(g) == n
    decreases n
  {
    hide OnRoute, Tries, AllFramed, Replay;
    if n == 0 {
      assert h + Tries(env, s, copies, strip, 0) == h;
    } else {
      var g := h + Tries(env, s, copies, strip, n - 1);
      TriesFramed(cfg, h, env, s, copies, strip, n - 1);
      TriesGrow(h, env, s, copies, strip, n - 1);
      OneTryFramed(cfg, g, Tried(copies, strip, env.link(|s.journal| + n - 1)));
    }
  }

  lemma SendPersists(env: Env, s: State, copies: seq<PendingLabel>, strip: bool, n: nat, out: Sent)
    requires EndsAfter(env, |s.journal|, strip, env.cfg.maxAttempts, n, out)
    requires TriesInSend(s.journal + Tries(env, s, copies, strip, n)) == n
    ensures Persisted(env.cfg, s.journal + Tries(env, s, copies, strip, n), strip, out.ok)
  {
    var g := s.journal + Tries(env, s, copies, strip, n);
    forall j | |g| - n <= j < |g| - 1 ensures g[j].Tried? && Retriable(strip, g[j].outcome) {
      assert g[j] == Tried(copies, strip, env.link(j));
    }
    if n > 0 {
      assert Last(g) == Tried(copies, strip, env.link(|g| - 1));
    }
  }

  lemma SendGoes(env: Env, s: State, copies: seq<PendingLabel>, strip: bool)
    requires Fit(env.cfg, s) && copies != [] && OnRoute(env.cfg, s.tables, copies, strip) && (!strip ==> |copies| == 1)
    ensures var s1 := Send(env, s, copies, strip).0; Goes(env.cfg, s, s1) && s1 == s.(journal := s1.journal)
  {
    hide Send, OnRoute, EndsAfter, Tries, Persisted, Welcome, TriesInSend;
    var n := SendTriesExactly(env, s, copies, strip);
    var r := Send(env, s, copies, strip);
    TriesFramed(env.cfg, s.journal, env, s, copies, strip, n);
    SendPersists(env, s, copies, strip, n, r.1);
    Appended(s.journal + Tries(env, s, copies, strip, n), Settled(copies, strip, r.1.ok, r.1.wrote));
  }

  lemma SettleOneGoes(cfg: Config, s: State, pl: PendingLabel, ok: bool, strip: bool)
    requires Fit(cfg, s)
    ensures Goes(cfg, s, SettleOne(s, pl, ok, strip)) && SettleOne(s, pl, ok, strip).buffer == s.buffer
  {
    hide Fit;
    if pl.job !in s.acc {
      Reshaped(cfg, s, s.(raised := true));
    } else if ok {
      var a := s.acc[pl.job].(done := Bump(s.acc[pl.job].done, pl.index));
      var s1 := s.(acc := s.acc[pl.job := a]);
      Reshaped(cfg, s, s1);
      EmitFit(cfg, s1, Committed(pl.job, pl.index));
    } else {
      Reshaped(cfg, s, Fail(s, pl, strip));
    }
  }

  lemma Stays(cfg: Config, s: State)
    requires Fit(cfg, s)
    ensures Goes(cfg, s, s)
  {
  }

  lemma {:induction false} SettleAllGoes(cfg: Config, s: State, labels: seq<PendingLabel>, ok: bool, strip: bool)
    requires Fit(cfg, s)
    ensures Goes(cfg, s, SettleAll(s, labels, ok, strip))
    decreases |labels|
  {
    hide Fit, SettleOne;
    Stays(cfg, s);
    if labels != [] && !s.raised {
      var s1 := SettleOne(s, labels[0], ok, strip);
      SettleOneGoes(cfg, s, labels[0], ok, strip);
      SettleAllGoes(cfg, s1, labels[1..], ok, strip);
      GoesThen(cfg, s, s1, SettleAll(s1, labels[1..], ok, strip));
    }
  }

  lemma FinishedFits(cfg: Config, s: State, id: JobId, r: JobResult)
    requires Fit(cfg, s) && id in s.tables.jobs && (r.state == Rejected <==> Refused(s.tables.jobs[id].job))
    ensures Goes(cfg, s, Conclude(s, id, r))
  {
    hide Fit;
    assert Framed(cfg, s.journal, Finished(id, r)) by {
      TablesAreReplayed(cfg, s);
    }
    EmitFit(cfg, s, Finished(id, r));
    EmitFit(cfg, Emit(s, Finished(id, r)), Published(r));
    GoesThen(cfg, s, Emit(s, Finished(id, r)), Conclude(s, id, r));
  }

  lemma TablesAreReplayed(cfg: Config, s: State)
    requires Fit(cfg, s)
    ensures s.tables == Replay(s.journal)
  {
  }

  lemma FinalizeGoes(cfg: Config, s: State, id: JobId)
    requires Fit(cfg, s)
    ensures Goes(cfg, s, Finalize(s, id))
  {
    hide ResultOf, Conclude;
    if id in s.acc {
      NeverRejects(s.acc[id]);
      var s0 := s.(acc := s.acc - {id});
      Reshaped(cfg, s, s0);
      assert Welcome(s.tables, id);
      FinishedFits(cfg, s0, id, ResultOf(s.acc[id]));
    } else {
      Reshaped(cfg, s, s.(raised := true));
    }
  }

  lemma NeverRejects(a: JobAcc)
    ensures ResultOf(a).state != Rejected
  {
  }

  lemma {:induction false} FinalizeEachGoes(cfg: Config, s: State, ids: seq<JobId>)
    requires Fit(cfg, s)
    ensures Goes(cfg, s, FinalizeEach(s, ids))
    decreases |ids|
  {
    hide Fit, Finalize, Complete;
    Stays(cfg, s);
    if ids != [] {
      FinalizeGoes(cfg, s, ids[0]);
      FinalizeEachGoes(cfg, MaybeFinalize(s, ids[0]), ids[1..]);
      GoesThen(cfg, s, MaybeFinalize(s, ids[0]), FinalizeEach(s, ids));
    }
  }

  lemma {:induction false} StallEachGoes(cfg: Config, s: State, ids: seq<JobId>, now: real)
    requires Fit(cfg, s)
    ensures Goes(cfg, s, StallEach(s, ids, now))
    decreases |ids|
  {
    hide Fit;
    Stays(cfg, s);
    if ids != [] {
      var s1 := Emit(s, Marked(ids[0], Queued));
      EmitFit(cfg, s, Marked(ids[0], Queued));
      Reshaped(cfg, s1, StallOne(s, ids[0], now));
      GoesThen(cfg, s, s1, StallOne(s, ids[0], now));
      StallEachGoes(cfg, StallOne(s, ids[0], now), ids[1..], now);
      GoesThen(cfg, s, StallOne(s, ids[0], now), StallEach(s, ids, now));
    }
  }

  // --- printing ---------------------------------------------------------------

  lemma PrintStripGoes(env: Env, s: State, labels: seq<PendingLabel>)
    requires Fit(env.cfg, s) && labels != [] && OnRoute(env.cfg, s.tables, labels, true)
    ensures Goes(env.cfg, s, PrintStrip(env, s, labels))
  {
    hide Fit, Send, SettleAll, FinalizeEach, StallEach, JobIds, OnRoute;
    SendGoes(env, s, labels, true);
    var r := Send(env, s, labels, true);
    if !r.1.ok && !r.1.wrote {
      StallEachGoes(env.cfg, r.0, JobIds(labels), env.now);
      GoesThen(env.cfg, s, r.0, StallEach(r.0, JobIds(labels), env.now));
    } else {
      var s2 := SettleAll(r.0, labels, r.1.ok, true);
      SettleAllGoes(env.cfg, r.0, labels, r.1.ok, true);
      FinalizeEachGoes(env.cfg, s2, JobIds(labels));
      GoesThen(env.cfg, s, r.0, s2);
      GoesThen(env.cfg, s, s2, FinalizeEach(s2, JobIds(labels)));
    }
  }

  lemma FlushGoes(env: Env, s: State)
    requires Fit(env.cfg, s)
    ensures Goes(env.cfg, s, Flush(env, s))
  {
    hide PrintStrip, OnRoute;
    Stays(env.cfg, s);
    if s.buffer.pending != [] {
      var s0 := s.(buffer := EMPTY_BUFFER);
      Reshaped(env.cfg, s, s0);
      PrintStripGoes(env, s0, s.buffer.pending);
      GoesThen(env.cfg, s, s0, PrintStrip(env, s0, s.buffer.pending));
    }
  }

  lemma {:induction false} RunDiscreteGoes(env: Env, s: State, id: JobId, todo: seq<PendingLabel>)
    requires Fit(env.cfg, s) && OnRoute(env.cfg, s.tables, todo, false)
    ensures Goes(env.cfg, s, RunDiscrete(env, s, id, todo))
    decreases |todo|
  {
    hide Fit, Send, SettleOne, StallEach, Finalize, Complete, OnRoute;
    Stays(env.cfg, s);
    if !s.raised {
      if todo == [] {
        FinalizeGoes(env.cfg, s, id);
      } else {
        RouteOfFirst(env.cfg, s.tables, todo, false);
        SendGoes(env, s, [todo[0]], false);
        var r := Send(env, s, [todo[0]], false);
        if !r.1.ok && !r.1.wrote {
          StallEachGoes(env.cfg, r.0, [id], env.now);
          GoesThen(env.cfg, s, r.0, StallEach(r.0, [id], env.now));
        } else {
          var s1 := SettleOne(r.0, todo[0], r.1.ok, false);
          SettleOneGoes(env.cfg, r.0, todo[0], r.1.ok, false);
          GoesThen(env.cfg, s, r.0, s1);
          StillOnRoute(env.cfg, s.tables, s1.tables, todo[1..], false);
          RunDiscreteGoes(env, s1, id, todo[1..]);
          GoesThen(env.cfg, s, s1, RunDiscrete(env, s1, id, todo[1..]));
        }
      }
    }
  }

  lemma RouteOfFirst(cfg: Config, t: Tables, copies: seq<PendingLabel>, strip: bool)
    requires OnRoute(cfg, t, copies, strip) && copies != []
    ensures OnRoute(cfg, t, [copies[0]], strip) && OnRoute(cfg, t, copies[1..], strip)
  {
  }

  lemma JoinGoes(cfg: Config, s: State, pl: PendingLabel, width: real, now: real)
    requires Fit(cfg, s) && OnRoute(cfg, s.tables, [pl], true)
    ensures Goes(cfg, s, s.(buffer := AddTo(s.buffer, pl, width, now)))
  {
    assert pl in [pl];
  }

  lemma AddOneGoes(env: Env, s: State, pl: PendingLabel)
    requires Fit(env.cfg, s) && OnRoute(env.cfg, s.tables, [pl], true)
    ensures Goes(env.cfg, s, AddOne(env, s, pl))
  {
    hide Fit, Flush, IsFull, OnRoute;
    Stays(env.cfg, s);
    FlushGoes(env, s);
    var s1 := if Accepts(s.buffer, env.cfg.tapeWidth) then s else Flush(env, s);
    if !s1.raised {
      var s2 := s1.(buffer := AddTo(s1.buffer, pl, env.cfg.tapeWidth, env.now));
      StillOnRoute(env.cfg, s.tables, s1.tables, [pl], true);
      JoinGoes(env.cfg, s1, pl, env.cfg.tapeWidth, env.now);
      GoesThen(env.cfg, s, s1, s2);
      FlushGoes(env, s2);
      GoesThen(env.cfg, s, s2, Flush(env, s2));
    }
  }

  lemma {:induction false} AddAllGoes(env: Env, s: State, todo: seq<PendingLabel>)
    requires Fit(env.cfg, s) && OnRoute(env.cfg, s.tables, todo, true)
    ensures Goes(env.cfg, s, AddAll(env, s, todo))
    decreases |todo|
  {
    hide Fit, AddOne, OnRoute;
    Stays(env.cfg, s);
    if todo != [] && !s.raised {
      var s1 := AddOne(env, s, todo[0]);
      RouteOfFirst(env.cfg, s.tables, todo, true);
      AddOneGoes(env, s, todo[0]);
      StillOnRoute(env.cfg, s.tables, s1.tables, todo[1..], true);
      AddAllGoes(env, s1, todo[1..]);
      GoesThen(env.cfg, s, s1, AddAll(env, s1, todo[1..]));
    }
  }

  lemma BufferCopiesGoes(env: Env, s: State, id: JobId, todo: seq<PendingLabel>, flush: bool)
    requires Fit(env.cfg, s) && OnRoute(env.cfg, s.tables, todo, true)
    ensures Goes(env.cfg, s, BufferCopies(env, s, id, todo, flush))
  {
    hide Fit, Flush, AddAll, Finalize, Complete, OnRoute;
    AddAllGoes(env, s, todo);
    var s1 := AddAll(env, s, todo);
    FlushGoes(env, s1);
    var s2 := if flush && !s1.raised then Flush(env, s1) else s1;
    if flush && !s1.raised {
      GoesThen(env.cfg, s, s1, s2);
    }
    FinalizeGoes(env.cfg, s2, id);
    if !s2.raised && id in s2.acc && Complete(s2.acc[id]) {
      GoesThen(env.cfg, s, s2, Finalize(s2, id));
    }
  }

  // --- taking jobs on ---------------------------------------------------------

  lemma {:induction false} PlanGoes(cfg: Config, env: Env, s: State, job: PrintJob, already: set<nat>, n: nat)
    requires Fit(cfg, s) && n <= |job.labels|
    ensures Goes(cfg, s, PlanLabels(env, s, job, already, n).0)
  {
    hide Fit;
    Stays(cfg, s);
    if n > 0 {
      PlanGoes(cfg, env, s, job, already, n - 1);
      var s1 := PlanLabels(env, s, job, already, n - 1).0;
      var key := DedupeKey(env.cfg, job.labels[n - 1]);
      if key.Some? {
        EmitFit(cfg, s1, DedupeRecorded(key.value, job.id, env.now));
        GoesThen(cfg, s, s1, Emit(s1, DedupeRecorded(key.value, job.id, env.now)));
      }
    }
  }

  lemma PlannedGoes(cfg: Config, s: State, id: JobId, plan: seq<Decision>, a: JobAcc)
    requires Fit(cfg, s) && Welcome(s.tables, id)
    ensures Goes(cfg, s, Emit(s, Planned(id, plan)).(acc := s.acc[id := a]))
  {
    EmitFit(cfg, s, Planned(id, plan));
    Appended(s.journal, Planned(id, plan));
  }

  lemma PrepareGoes(env: Env, s: State, id: JobId)
    requires Fit(env.cfg, s) && Welcome(s.tables, id)
    ensures Goes(env.cfg, s, Prepare(env, s, id).0) && Welcome(Prepare(env, s, id).0.tables, id)
  {
    hide Fit, PlanLabels, FreshAcc;
    var job := s.tables.jobs[id].job;
    var s1 := Emit(s, Marked(id, Printing));
    EmitFit(env.cfg, s, Marked(id, Printing));
    PlanGoes(env.cfg, env, s1, job, PrintedLabels(s1.tables, id), |job.labels|);
    var r := PlanLabels(env, s1, job, PrintedLabels(s1.tables, id), |job.labels|);
    GoesThen(env.cfg, s, s1, r.0);
    StillWelcome(s.tables, r.0.tables, id);
    PlannedGoes(env.cfg, r.0, id, r.1, FreshAcc(job, r.1));
    GoesThen(env.cfg, s, r.0, Prepare(env, s, id).0);
  }

  lemma PlanOnRoute(cfg: Config, t: Tables, id: JobId, plan: seq<Decision>, strip: bool)
    requires Welcome(t, id) && (strip <==> !Separately(cfg, t.jobs[id].job))
    ensures OnRoute(cfg, t, Expand(id, plan), strip)
  {
    ExpandCounts(id, plan, 0);
  }

  lemma SubmitGoes(env: Env, s: State, id: JobId)
    requires Fit(env.cfg, s)
    ensures Goes(env.cfg, s, Submit(env, s, id))
  {
    hide Fit, Prepare, Conclude, Finalize, Flush, RunDiscrete, BufferCopies, Expand, Total, OnRoute;
    if id !in s.tables.jobs {
      Reshaped(env.cfg, s, s.(raised := true));
    } else {
      var job := s.tables.jobs[id].job;
      if WrongModel(job) {
        FinishedFits(env.cfg, s, id, Rejection(job));
      } else {
        PrepareGoes(env, s, id);
        var r := Prepare(env, s, id);
        var todo := Expand(id, r.1);
        FinalizeGoes(env.cfg, r.0, id);
        GoesThen(env.cfg, s, r.0, Finalize(r.0, id));
        if IsDiscrete(env.cfg, job) {
          FlushGoes(env, r.0);
          var s1 := Flush(env, r.0);
          GoesThen(env.cfg, s, r.0, s1);
          StillWelcome(r.0.tables, s1.tables, id);
          PlanOnRoute(env.cfg, s1.tables, id, r.1, false);
          RunDiscreteGoes(env, s1, id, todo);
          GoesThen(env.cfg, s, s1, RunDiscrete(env, s1, id, todo));
        } else {
          PlanOnRoute(env.cfg, r.0.tables, id, r.1, true);
          BufferCopiesGoes(env, r.0, id, todo, job.flush || AsStrip(env.cfg, job));
          GoesThen(env.cfg, s, r.0, BufferCopies(env, r.0, id, todo, job.flush || AsStrip(env.cfg, job)));
        }
      }
    }
  }

  lemma LoweredGoes(cfg: Config, s: State, s1: State)
    requires Goes(cfg, s, s1)
    ensures Goes(cfg, s, s1.(raised := false))
  {
  }

  lemma {:induction false} SubmitEachGoes(env: Env, s: State, ids: seq<JobId>)
    requires Fit(env.cfg, s)
    ensures Goes(env.cfg, s, SubmitEach(env, s, ids))
    decreases |ids|
  {
    hide Fit, Submit;
    Stays(env.cfg, s);
    if ids != [] {
      var s1 := Submit(env, s, ids[0]).(raised := false);
      SubmitGoes(env, s, ids[0]);
      LoweredGoes(env.cfg, s, Submit(env, s, ids[0]));
      SubmitEachGoes(env, s1, ids[1..]);
      GoesThen(env.cfg, s, s1, SubmitEach(env, s1, ids[1..]));
    }
  }

  lemma StampedGoes(cfg: Config, s: State, stalled: map<JobId, real>)
    requires Fit(cfg, s)
    ensures Goes(cfg, s, s.(stalled := stalled))
  {
  }

  lemma {:induction false} RetryEachGoes(env: Env, s: State, ids: seq<JobId>)
    requires Fit(env.cfg, s)
    ensures Goes(env.cfg, s, RetryEach(env, s, ids))
    decreases |ids|
  {
    hide Fit, Submit;
    Stays(env.cfg, s);
    if ids != [] {
      if Due(env, s, ids[0]) {
        var s0 := s.(stalled := s.stalled[ids[0] := env.now]);
        StampedGoes(env.cfg, s, s0.stalled);
        SubmitGoes(env, s0, ids[0]);
        var s1 := Submit(env, s0, ids[0]).(raised := false);
        LoweredGoes(env.cfg, s0, Submit(env, s0, ids[0]));
        GoesThen(env.cfg, s, s0, s1);
        RetryEachGoes(env, s1, ids[1..]);
        GoesThen(env.cfg, s, s1, RetryEach(env, s1, ids[1..]));
      } else {
        RetryEachGoes(env, s, ids[1..]);
      }
    }
  }

  /** One effect, and the acknowledgement. */
  lemma AnsweredGoes(cfg: Config, s: State, e: Event, d: Delivery)
    requires Fit(cfg, s) && Framed(cfg, s.journal, e) && !e.Tried?
    ensures Goes(cfg, s, Emit(Emit(s, e), Acked(d)))
  {
    hide Fit, Apply, Replay, OnRoute;
    EmitFit(cfg, s, e);
    var s1 := Emit(s, e);
    EmitFit(cfg, s1, Acked(d));
    GoesThen(cfg, s, s1, Emit(s1, Acked(d)));
  }

  /** What is answered to a well-formed delivery, once old records are purged. */
  lemma AnswerGoes(cfg: Config, s: State, job: PrintJob, d: Delivery, row: Option<JobId>)
    requires Fit(cfg, s)
    requires row.Some? ==> row.value in s.tables.jobs
    ensures row.Some? ==> Goes(cfg, s, Emit(Emit(s, Published(DuplicateReply(s.tables, row.value, job))), Acked(d)))
    ensures job.id !in s.tables.jobs ==> Goes(cfg, s, Emit(Emit(s, Inserted(job)), Acked(d)))
  {
    hide DuplicateReply, Fit, OnRoute, Persisted, Goes, Apply;
    TablesAreReplayed(cfg, s);
    if row.Some? {
      AnsweredGoes(cfg, s, Published(DuplicateReply(s.tables, row.value, job)), d);
    }
    if job.id !in s.tables.jobs {
      AnsweredGoes(cfg, s, Inserted(job), d);
    }
  }

  lemma OnMessageGoes(env: Env, s: State, d: Delivery, fault: IntakeFault)
    requires Fit(env.cfg, s)
    ensures Goes(env.cfg, s, OnMessage(env, s, d, fault))
  {
    hide FindKey, DuplicateReply, Fit, SameJobs, OnRoute, Persisted, Apply, Replay;
    Stays(env.cfg, s);
    if d.job.None? {
      AnsweredGoes(env.cfg, s, Published(MALFORMED), d);
    } else if fault != PurgeFails {
      var job, purged := d.job.value, DedupePurged(env.now - env.cfg.dedupeTtl);
      EmitFit(env.cfg, s, purged);
      var s1 := Emit(s, purged);
      var row := FindKey(s1.tables, s1.tables.order, job.key);
      AnswerGoes(env.cfg, s1, job, d, row);
      var t := OnMessage(env, s, d, fault);
      if t != s1 {
        GoesThen(env.cfg, s, s1, t);
      }
    }
  }

  lemma CallGoes(env: Env, s: State, op: Op)
    requires Fit(env.cfg, s)
    ensures Fit(env.cfg, Do(env, s, op))
  {
    hide Fit, Submit, Flush, SubmitEach, RetryEach, OnMessage, QueuedIn;
    match op
    case SubmitOp(id) => SubmitGoes(env, s, id);
    case FlushOp => FlushGoes(env, s);
    case TickOp =>
      FlushGoes(env, s);
      var s1 := if IdleExpired(env.cfg, s.buffer, env.now) then Flush(env, s) else s;
      RetryEachGoes(env, s1, QueuedIds(s1.tables));
    case RecoverOp => SubmitEachGoes(env, s, QueuedIds(s.tables));
    case MessageOp(d, fault) => OnMessageGoes(env, s, d, fault);
  }

  // --- over every run ---------------------------------------------------------

  lemma {:induction false} FramedAt(cfg: Config, h: seq<Event>, k: nat)
    requires AllFramed(cfg, h) && k <= |h|
    ensures AllFramed(cfg, h[..k]) && (k < |h| ==> Framed(cfg, h[..k], h[k]))
  {
    hide Framed;
    if k < |h| {
      assert Prev(h)[..k] == h[..k];
      if k < |h| - 1 {
        FramedAt(cfg, Prev(h), k);
      }
    } else {
      assert h[..k] == h;
    }
  }

  lemma RebootFit(cfg: Config, h: seq<Event>)
    requires AllFramed(cfg, h)
    ensures Fit(cfg, Reboot(h))
  {
    Appended(h, Booted);
  }

  lemma StepFit(cfg: Config, s: State, step: Step, s1: State)
    requires Fit(cfg, s) && Leads(s, step, s1) && step.env.cfg == cfg
    ensures Fit(cfg, s1)
  {
    hide Do, Reboot, Welcome, OnRoute;
    var done := Do(step.env, s, step.op);
    CallGoes(step.env, s, step.op);
    if step.Crash? {
      FramedAt(cfg, done.journal, step.kept);
      RebootFit(cfg, done.journal[..step.kept]);
    }
  }

  lemma {:induction false} AnyRunFit(cfg: Config, states: seq<State>, steps: seq<Step>, n: nat)
    requires AnyRun(states, steps) && n < |states| && UnderOne(Some(cfg), steps)
    ensures Fit(cfg, states[n])
  {
    hide Fit, Leads, Reboot;
    if n == 0 {
      RebootFit(cfg, []);
    } else {
      AnyRunFit(cfg, states, steps, n - 1);
      StepFit(cfg, states[n - 1], steps[n - 1], states[n]);
    }
  }

  /** Over every run under one configuration: a frame of a job printed separately is of a single
      copy, every other is a strip, and a strip holds no copy of a job printed separately. */
  lemma FramesTakeTheirRoute(cfg: Config, states: seq<State>, steps: seq<Step>, n: nat, p: nat, c: PendingLabel)
    requires AnyRun(states, steps) && n < |states| && UnderOne(Some(cfg), steps)
    requires p < |states[n].journal| && states[n].journal[p].Tried? && c in states[n].journal[p].copies
    ensures var e := states[n].journal[p];
            && c.job in states[n].tables.jobs
            && (e.strip <==> !Separately(cfg, states[n].tables.jobs[c.job].job))
            && (!e.strip ==> e.copies == [c])
  {
    hide AnyRun, Replay;
    AnyRunFit(cfg, states, steps, n);
    AnyRunBounded(None, states, steps, n);
    var h := states[n].journal;
    FramedAt(cfg, h, p);
    RowsRemain(h, p, c.job);
  }

  /** So on die-cut tape every frame is of one copy, none is a strip, and the pending strip is
      empty in every state: nothing is ever printed across a gap. */
  lemma NoStripOnGapTape(cfg: Config, states: seq<State>, steps: seq<Step>, n: nat)
    requires AnyRun(states, steps) && n < |states| && UnderOne(Some(cfg), steps) && cfg.tapeKind == Gap
    ensures states[n].buffer.pending == []
    ensures forall p :: 0 <= p < |states[n].journal| && states[n].journal[p].Tried? ==>
              !states[n].journal[p].strip && |states[n].journal[p].copies| == 1
  {
    hide AnyRun, Replay;
    var h, pending := states[n].journal, states[n].buffer.pending;
    assert pending == [] || pending[0] in pending;
    AnyRunFit(cfg, states, steps, n);
    forall p | 0 <= p < |h| && h[p].Tried? ensures !h[p].strip && |h[p].copies| == 1 {
      FramedAt(cfg, h, p);
      assert h[p].copies[0] in h[p].copies;
    }
  }

  /** No send gives up early, and none goes on after it should not: of a settled send all
      attempts but the last could be retried, there were at most `max_attempts`, and one that
      failed had made them all or ended in an attempt that could not be. */
  lemma SendsPersist(cfg: Config, states: seq<State>, steps: seq<Step>, n: nat, p: nat)
    requires AnyRun(states, steps) && n < |states| && UnderOne(Some(cfg), steps)
    requires p < |states[n].journal| && states[n].journal[p].Settled?
    ensures var e := states[n].journal[p]; Persisted(cfg, states[n].journal[..p], e.strip, e.ok)
  {
    hide AnyRun, Persisted, Replay;
    AnyRunFit(cfg, states, steps, n);
    FramedAt(cfg, states[n].journal, p);
  }

  /** A job is refused exactly if it asks for another printer: then it is never planned, and its
      result says so; any other job is never refused. */
  lemma RefusedExactlyForAnotherModel(cfg: Config, states: seq<State>, steps: seq<Step>, n: nat, p: nat)
    requires AnyRun(states, steps) && n < |states| && UnderOne(Some(cfg), steps)
    requires p < |states[n].journal| && (states[n].journal[p].Finished? || states[n].journal[p].Planned?)
    ensures var e, t := states[n].journal[p], states[n].tables;
            && e.id in t.jobs
            && (e.Planned? ==> !Refused(t.jobs[e.id].job))
            && (e.Finished? ==> (e.result.state == Rejected <==> Refused(t.jobs[e.id].job)))
  {
    hide AnyRun, Replay;
    AnyRunFit(cfg, states, steps, n);
    AnyRunBounded(None, states, steps, n);
    var h := states[n].journal;
    FramedAt(cfg, h, p);
    RowsRemain(h, p, h[p].id);
  }

  // --- jobs that do not wait --------------------------------------------------

  lemma {:induction false} RunDiscreteKeepsBuffer(env: Env, s: State, id: JobId, todo: seq<PendingLabel>)
    ensures RunDiscrete(env, s, id, todo).buffer == s.buffer
    decreases |todo|
  {
    hide SendFrom, Complete, ResultOf;
    if !s.raised && todo != [] {
      SendKeepsBuffer(env, s, [todo[0]], false, 0);
      var r := Send(env, s, [todo[0]], false);
      StallEachKeepsBuffer(r.0, [id], env.now);
      RunDiscreteKeepsBuffer(env, SettleOne(r.0, todo[0], r.1.ok, false), id, todo[1..]);
    }
  }

  /** A job that asks to be flushed, every discrete job, printed separately or as a strip of its
      own, and every job on die-cut tape has nothing waiting in the strip when its submission
      returns, and nor has any job before it. */
  lemma NothingWaitsBehindIt(env: Env, s: State, id: JobId)
    requires id in s.tables.jobs && !Refused(s.tables.jobs[id].job) && !Submit(env, s, id).raised
    requires Expand(id, Prepare(env, s, id).1) != []
    requires var job := s.tables.jobs[id].job; job.flush || job.batchMode == Discrete || env.cfg.tapeKind == Gap
    ensures Submit(env, s, id).buffer.pending == []
  {
    hide Prepare, Flush, RunDiscrete, AddAll, Expand, Complete, ResultOf, Total, FreshAcc;
    var job := s.tables.jobs[id].job;
    var r := Prepare(env, s, id);
    PreparedAcc(env, s, id);
    if Total(r.0.acc[id].expected, |job.labels|) == 0 {
      NothingAsked(id, job, r.1);
    }
    FlushEmpties(env, r.0);
    RunDiscreteKeepsBuffer(env, Flush(env, r.0), id, Expand(id, r.1));
    FlushEmpties(env, AddAll(env, r.0, Expand(id, r.1)));
  }

  /** A strip keeps to one tape width: a label joins the labels that wait only if they are for the
      same width, and otherwise starts a strip of its own. */
  lemma StripsKeepToOneWidth(env: Env, s: State, pl: PendingLabel)
    requires !s.raised && AddOne(env, s, pl).buffer.pending != []
    ensures var b, width := AddOne(env, s, pl).buffer, Some(env.cfg.tapeWidth);
            && b.width == width
            && (b.pending == [pl]
                || (b.pending == s.buffer.pending + [pl] && (s.buffer.width == None || s.buffer.width == width)))
  {
    hide Flush, IsFull;
    FlushEmpties(env, s);
    var s1 := if Accepts(s.buffer, env.cfg.tapeWidth) then s else Flush(env, s);
    FlushEmpties(env, s1.(buffer := AddTo(s1.buffer, pl, env.cfg.tapeWidth, env.now)));
  }
}
