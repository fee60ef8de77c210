/** What every step of the print loop keeps. */
module PrintLoopInvariant {
  import opened Basics
  import opened Contract
  import opened Spool
  import opened PrintLoop
  import opened History

  /** The journal is not in the middle of a send. */
  ghost predicate AtRest(h: seq<Event>) {
    h != [] ==> !Last(h).Tried?
  }

  /** The tally of job id against the journal, the tables and the copies still out. */
  ghost predicate Tallied(h: seq<Event>, t: Tables, a: JobAcc, out: seq<PendingLabel>, id: JobId) {
    var plan := PlanOf(h, id);
    && Unfinished(t, id) && t.jobs[id].state == Printing && t.jobs[id].job == a.job
    && PlanFitsCopies(a.job, plan)
    && a.expected == FreshAcc(a.job, plan).expected
    && a.renderStates == FreshAcc(a.job, plan).renderStates
    && (forall i :: i in a.done || i in a.failed ==> i < |plan|)
    && (forall i: nat :: Get(a.done, i) == Good(h, id, i))
    && (forall i: nat :: Get(a.failed, i) == Lost(h, id, i))
    && (forall i: nat :: Good(h, id, i) + Lost(h, id, i) + Count(out, id, i) == Expected(a, i))
    && (a.partialTape <==> StripLost(h, id))
    && (forall i :: 0 <= i < |plan| ==> ((id, i) in t.printed <==> Committable(plan[i], Good(h, id, i))))
  }

  ghost predicate PlanFitsCopies(job: PrintJob, plan: seq<Decision>) {
    |plan| == |job.labels| && forall i :: 0 <= i < |plan| && plan[i].Print? ==> plan[i].copies == job.labels[i].copies
  }

  /** Is a label with this decision and this many good copies committed? */
  predicate Committable(d: Decision, good: nat) {
    d == AlreadyPrinted || (d.Print? && good >= d.copies)
  }

  /** The journal explains the tables and the set of jobs in flight. */
  ghost predicate Explained(s: State) {
    && !s.raised
    && s.tables == Replay(s.journal)
    && SoundJournal(s.journal)
    && AtRest(s.journal)
    && s.acc.Keys == Live(s.journal)
  }

  ghost predicate AllTallied(s: State, out: seq<PendingLabel>) {
    Explained(s) && forall id :: id in s.acc ==> Tallied(s.journal, s.tables, s.acc[id], out, id)
  }

  /** Every tally is exact, and every copy still out belongs to a job in flight. */
  ghost predicate Conserved(s: State, out: seq<PendingLabel>) {
    AllTallied(s, out) && forall c :: c in out ==> c.job in s.acc
  }

  /** No job in flight is settled: a settled job has been finalised. */
  ghost predicate Unsettled(s: State) {
    forall id :: id in s.acc ==> !Complete(s.acc[id])
  }

  /** The invariant, with `todo` copies of the job being submitted still to come. */
  ghost predicate Inv(s: State, todo: seq<PendingLabel>) {
    Conserved(s, s.buffer.pending + todo) && Unsettled(s)
  }

  /** Two journals that tell the same story about every job. */
  ghost predicate Quiet(h: seq<Event>, g: seq<Event>) {
    && Live(h) == Live(g)
    && (forall id :: PlanOf(h, id) == PlanOf(g, id))
    && (forall id, i: nat :: Good(h, id, i) == Good(g, id, i))
    && (forall id, i: nat :: Lost(h, id, i) == Lost(g, id, i))
    && (forall id :: StripLost(h, id) <==> StripLost(g, id))
  }

  predicate Silent(e: Event) {
    match e
    case Marked(_, state) => state != Queued
    case Finished(_, _) => false
    case Tried(_, _, outcome) => outcome != FramePrinted
    case Settled(_, _, ok, wrote) => ok || !wrote
    case Planned(_, _) => false
    case Booted => false
    case _ => true
  }

  lemma SilentIsQuiet(h: seq<Event>, e: Event)
    requires Silent(e)
    ensures Quiet(h, h + [e])
  {
    Appended(h, e);
  }

  // --- sending ----------------------------------------------------------------

  /** What a send leaves behind, whatever the link did. */
  ghost predicate SendEffect(s: State, copies: seq<PendingLabel>, strip: bool, s1: State, out: Sent) {
    && s1 == s.(journal := s1.journal)
    && s1.tables == Replay(s1.journal)
    && SoundJournal(s1.journal)
    && SendOf(s1.journal, copies, strip)
    && (out.ok ==> out.wrote)
    && PrintedInSend(s1.journal) == (if out.ok then 1 else 0)
    && (out.wrote ==> BegunInSend(s1.journal) > 0)
    && (strip ==> BegunInSend(s1.journal) == if out.wrote then 1 else 0)
    && Live(s1.journal) == Live(s.journal)
    && (forall id :: PlanOf(s1.journal, id) == PlanOf(s.journal, id))
    && (forall id, i: nat ::
          Good(s1.journal, id, i) == Good(s.journal, id, i) + if out.ok then Count(copies, id, i) else 0)
    && (forall id, i: nat :: Lost(s1.journal, id, i) == Lost(s.journal, id, i))
    && (forall id :: StripLost(s1.journal, id) <==> StripLost(s.journal, id))
  }

  /** A failed attempt changes nothing but the journal, and the next attempt is as sound. */
  lemma FailedAttempt(s: State, copies: seq<PendingLabel>, strip: bool, o: Attempt)
    requires s.tables == Replay(s.journal) && SoundJournal(s.journal)
    requires Sound(s.journal, Tried(copies, strip, FramePrinted)) && o != FramePrinted
    ensures var s1 := Emit(s, Tried(copies, strip, o));
            && s1 == s.(journal := s1.journal)
            && s1.tables == Replay(s1.journal) && SoundJournal(s1.journal)
            && Quiet(s.journal, s1.journal)
            && Sound(s1.journal, Tried(copies, strip, FramePrinted))
  {
    var e := Tried(copies, strip, o);
    Appended(s.journal, e);
    SilentIsQuiet(s.journal, e);
    assert Replay(s.journal + [e]) == Replay(s.journal);
    assert Sound(s.journal, e);
  }

  lemma PrintedFrame(s: State, copies: seq<PendingLabel>, strip: bool)
    requires s.tables == Replay(s.journal) && SoundJournal(s.journal)
    requires Sound(s.journal, Tried(copies, strip, FramePrinted))
    requires SendOf(s.journal, copies, strip) && PrintedInSend(s.journal) == 0
    requires strip ==> BegunInSend(s.journal) == 0
    ensures SendEffect(s, copies, strip, Emit(s, Tried(copies, strip, FramePrinted)), Sent(true, true))
  {
    var e := Tried(copies, strip, FramePrinted);
    Appended(s.journal, e);
    assert Replay(s.journal + [e]) == Replay(s.journal);
  }

  /** The last attempt of a send that failed. */
  lemma LastAttempt(s: State, copies: seq<PendingLabel>, strip: bool, o: Attempt)
    requires s.tables == Replay(s.journal) && SoundJournal(s.journal)
    requires Sound(s.journal, Tried(copies, strip, FramePrinted)) && o != FramePrinted
    requires SendOf(s.journal, copies, strip) && PrintedInSend(s.journal) == 0
    requires strip ==> BegunInSend(s.journal) == 0
    ensures SendEffect(s, copies, strip, Emit(s, Tried(copies, strip, o)), Sent(false, o.PrintFailed?))
  {
    FailedAttempt(s, copies, strip, o);
    Appended(s.journal, Tried(copies, strip, o));
  }

  lemma QuietThenSend(s: State, s1: State, copies: seq<PendingLabel>, strip: bool, s2: State, out: Sent)
    requires s1 == s.(journal := s1.journal) && Quiet(s.journal, s1.journal)
    requires SendEffect(s1, copies, strip, s2, out)
    ensures SendEffect(s, copies, strip, s2, out)
  {
  }

  lemma StillNothingPrinted(s: State, copies: seq<PendingLabel>, strip: bool, o: Attempt)
    requires SendOf(s.journal, copies, strip) && PrintedInSend(s.journal) == 0 && o != FramePrinted
    requires strip ==> BegunInSend(s.journal) == 0
    ensures var h := Emit(s, Tried(copies, strip, o)).journal;
            SendOf(h, copies, strip) && PrintedInSend(h) == 0 && (strip && o.ConnectFailed? ==> BegunInSend(h) == 0)
  {
    Appended(s.journal, Tried(copies, strip, o));
  }

  /** Nothing was begun and the attempts are used up. */
  lemma NothingSent(s: State, copies: seq<PendingLabel>, strip: bool)
    requires s.tables == Replay(s.journal) && SoundJournal(s.journal)
    requires SendOf(s.journal, copies, strip) && PrintedInSend(s.journal) == 0
    requires strip ==> BegunInSend(s.journal) == 0
    ensures SendEffect(s, copies, strip, s, Sent(false, false))
  {
  }

  lemma {:induction false} SendFromEffect(env: Env, s: State, copies: seq<PendingLabel>, strip: bool, attempt: nat)
    requires s.tables == Replay(s.journal) && SoundJournal(s.journal)
    requires Sound(s.journal, Tried(copies, strip, FramePrinted))
    requires SendOf(s.journal, copies, strip) && PrintedInSend(s.journal) == 0
    requires strip ==> BegunInSend(s.journal) == 0
    ensures var r := SendFrom(env, s, copies, strip, attempt); SendEffect(s, copies, strip, r.0, r.1)
    decreases env.cfg.maxAttempts - attempt
  {
    hide SendEffect, Quiet, Sound, SoundJournal, SendOf, PrintedInSend, BegunInSend, Emit;
    if attempt < env.cfg.maxAttempts {
      var o := env.link(|s.journal|);
      if o == FramePrinted {
        PrintedFrame(s, copies, strip);
      } else if o.retryable && attempt + 1 < env.cfg.maxAttempts && !(strip && o.PrintFailed?) {
        var s1 := Emit(s, Tried(copies, strip, o));
        FailedAttempt(s, copies, strip, o);
        StillNothingPrinted(s, copies, strip, o);
        SendFromEffect(env, s1, copies, strip, attempt + 1);
        var r := SendFrom(env, s1, copies, strip, attempt + 1);
        QuietThenSend(s, s1, copies, strip, r.0, r.1);
      } else {
        LastAttempt(s, copies, strip, o);
      }
    } else {
      NothingSent(s, copies, strip);
    }
  }

  /** What `Send` as a whole leaves behind. */
  ghost predicate SendDone(s: State, copies: seq<PendingLabel>, strip: bool, s1: State, out: Sent) {
    && s1 == s.(journal := s1.journal)
    && s1.tables == Replay(s1.journal) && SoundJournal(s1.journal) && AtRest(s1.journal)
    && (out.ok ==> out.wrote)
    && Live(s1.journal) == Live(s.journal)
    && (forall id :: PlanOf(s1.journal, id) == PlanOf(s.journal, id))
    && (forall id, i: nat ::
          Good(s1.journal, id, i) == Good(s.journal, id, i) + if out.ok then Count(copies, id, i) else 0)
    && (forall id, i: nat ::
          Lost(s1.journal, id, i) == Lost(s.journal, id, i) + if out.wrote && !out.ok then Count(copies, id, i) else 0)
    && (forall id :: StripLost(s1.journal, id) <==>
          StripLost(s.journal, id) || (strip && out.wrote && !out.ok && Mentions(copies, id)))
  }

  lemma RestStartsSend(h: seq<Event>, copies: seq<PendingLabel>, strip: bool)
    requires AtRest(h)
    ensures SendOf(h, copies, strip) && PrintedInSend(h) == 0 && BegunInSend(h) == 0
  {
  }

  lemma SettledEvent(s: State, copies: seq<PendingLabel>, strip: bool, s1: State, out: Sent)
    requires SendEffect(s, copies, strip, s1, out)
    ensures SendDone(s, copies, strip, Emit(s1, Settled(copies, strip, out.ok, out.wrote)), out)
    ensures out.ok ==> out.wrote
  {
    var e := Settled(copies, strip, out.ok, out.wrote);
    Appended(s1.journal, e);
    assert Sound(s1.journal, e);
  }

  lemma SendKeeps(env: Env, s: State, copies: seq<PendingLabel>, strip: bool)
    requires s.tables == Replay(s.journal) && SoundJournal(s.journal) && AtRest(s.journal)
    requires Sound(s.journal, Tried(copies, strip, FramePrinted))
    ensures var r := Send(env, s, copies, strip); SendDone(s, copies, strip, r.0, r.1) && (r.1.ok ==> r.1.wrote)
  {
    hide SendEffect, SendDone, Sound;
    RestStartsSend(s.journal, copies, strip);
    SendFromEffect(env, s, copies, strip, 0);
    var r := SendFrom(env, s, copies, strip, 0);
    SettledEvent(s, copies, strip, r.0, r.1);
  }

  // --- settling copies --------------------------------------------------------

  /** The tally of one job after `labels` were credited or failed. */
  ghost predicate AccSettled(a: JobAcc, b: JobAcc, labels: seq<PendingLabel>, ok: bool, strip: bool, id: JobId) {
    && b == a.(done := b.done, failed := b.failed, partialTape := b.partialTape)
    && (forall i: nat :: Get(b.done, i) == Get(a.done, i) + if ok then Count(labels, id, i) else 0)
    && (forall i: nat :: Get(b.failed, i) == Get(a.failed, i) + if ok then 0 else Count(labels, id, i))
    && (b.partialTape <==> a.partialTape || (!ok && strip && Mentions(labels, id)))
    && (forall i :: i in b.done || i in b.failed ==> i in a.done || i in a.failed || Count(labels, id, i) > 0)
  }

  /** Are these copies ready to be credited: counted as good, none beyond what is asked? */
  ghost predicate Creditable(s: State, labels: seq<PendingLabel>) {
    forall id, i: nat :: id in s.acc && Count(labels, id, i) > 0 ==>
      var plan := PlanOf(s.journal, id);
      && i < |plan| && plan[i].Print? && Expected(s.acc[id], i) == plan[i].copies
      && Good(s.journal, id, i) == Get(s.acc[id].done, i) + Count(labels, id, i)
      && Good(s.journal, id, i) <= plan[i].copies
  }

  ghost predicate SettleEffect(s: State, labels: seq<PendingLabel>, ok: bool, strip: bool, s1: State) {
    && s1 == s.(journal := s1.journal, tables := s1.tables, acc := s1.acc)
    && s1.tables == s.tables.(printed := s1.tables.printed)
    && s1.tables == Replay(s1.journal) && SoundJournal(s1.journal) && AtRest(s1.journal)
    && Quiet(s.journal, s1.journal)
    && s1.acc.Keys == s.acc.Keys
    && (forall id :: id in s.acc ==> AccSettled(s.acc[id], s1.acc[id], labels, ok, strip, id))
    && (forall id, i: nat :: (id, i) in s1.tables.printed <==>
          || (id, i) in s.tables.printed
          || (ok && id in s.acc && Count(labels, id, i) > 0 && Get(s1.acc[id].done, i) >= Expected(s.acc[id], i)))
  }

  lemma CountOne(pl: PendingLabel, id: JobId, i: nat)
    ensures Count([pl], id, i) == if pl.job == id && pl.index == i then 1 else 0
  {
    assert [pl][1..] == [];
  }

  lemma AccOne(a: JobAcc, pl: PendingLabel, ok: bool, strip: bool)
    ensures var b := if ok then a.(done := Bump(a.done, pl.index))
                     else a.(failed := Bump(a.failed, pl.index), partialTape := a.partialTape || strip);
            AccSettled(a, b, [pl], ok, strip, pl.job)
  {
    forall i: nat {
      CountOne(pl, pl.job, i);
    }
    assert pl in [pl];
  }

  lemma AccUntouched(a: JobAcc, labels: seq<PendingLabel>, ok: bool, strip: bool, id: JobId)
    requires !Mentions(labels, id)
    ensures AccSettled(a, a, labels, ok, strip, id)
  {
    forall i: nat ensures Count(labels, id, i) == 0 {
      if Count(labels, id, i) > 0 {
        var c := CountWitness(labels, id, i);
      }
    }
  }

  lemma FailOne(s: State, pl: PendingLabel, strip: bool)
    requires s.tables == Replay(s.journal) && SoundJournal(s.journal) && AtRest(s.journal)
    requires pl.job in s.acc
    ensures SettleEffect(s, [pl], false, strip, Fail(s, pl, strip))
  {
    AccOne(s.acc[pl.job], pl, false, strip);
    forall id | id in s.acc && id != pl.job {
      AccUntouched(s.acc[id], [pl], false, strip, id);
    }
  }

  lemma CommitEffect(s: State, id: JobId, i: nat)
    requires s.tables == Replay(s.journal) && SoundJournal(s.journal)
    requires Sound(s.journal, Committed(id, i))
    ensures var s1 := Emit(s, Committed(id, i));
            && s1.tables == s.tables.(printed := s.tables.printed + {(id, i)})
            && s1.tables == Replay(s1.journal) && SoundJournal(s1.journal) && AtRest(s1.journal)
            && Quiet(s.journal, s1.journal)
  {
    Appended(s.journal, Committed(id, i));
    SilentIsQuiet(s.journal, Committed(id, i));
  }

  lemma CreditAccs(s: State, pl: PendingLabel, strip: bool)
    requires pl.job in s.acc
    ensures var s1 := Credit(s, pl);
            && s1.acc.Keys == s.acc.Keys
            && forall id :: id in s.acc ==> AccSettled(s.acc[id], s1.acc[id], [pl], true, strip, id)
  {
    AccOne(s.acc[pl.job], pl, true, strip);
    var s1 := Credit(s, pl);
    forall id | id in s.acc && id != pl.job ensures AccSettled(s.acc[id], s1.acc[id], [pl], true, strip, id) {
      AccUntouched(s.acc[id], [pl], true, strip, id);
    }
  }

  lemma CreditOne(s: State, pl: PendingLabel, strip: bool)
    requires s.tables == Replay(s.journal) && SoundJournal(s.journal) && AtRest(s.journal)
    requires pl.job in s.acc
    requires var a := s.acc[pl.job];
             Get(a.done, pl.index) + 1 >= Expected(a, pl.index) ==> Sound(s.journal, Committed(pl.job, pl.index))
    ensures SettleEffect(s, [pl], true, strip, Credit(s, pl))
  {
    CreditAccs(s, pl, strip);
    var a := s.acc[pl.job];
    if Get(a.done, pl.index) + 1 >= Expected(a, pl.index) {
      CommitEffect(s, pl.job, pl.index);
    }
    forall id, i: nat ensures Count([pl], id, i) == if pl.job == id && pl.index == i then 1 else 0 {
      CountOne(pl, id, i);
    }
  }

  lemma AccThen(a: JobAcc, b: JobAcc, c: JobAcc, pl: PendingLabel, rest: seq<PendingLabel>, ok: bool, strip: bool,
                id: JobId)
    requires AccSettled(a, b, [pl], ok, strip, id) && AccSettled(b, c, rest, ok, strip, id)
    ensures AccSettled(a, c, [pl] + rest, ok, strip, id)
  {
    forall i: nat ensures Count([pl] + rest, id, i) == Count([pl], id, i) + Count(rest, id, i) {
      CountConcat([pl], rest, id, i);
    }
    assert Mentions([pl] + rest, id) <==> Mentions([pl], id) || Mentions(rest, id) by {
      assert forall c :: c in [pl] + rest <==> c in [pl] || c in rest;
    }
  }

  lemma PrintedThen(s: State, s1: State, s2: State, pl: PendingLabel, rest: seq<PendingLabel>, ok: bool, strip: bool,
                    id: JobId, i: nat)
    requires SettleEffect(s, [pl], ok, strip, s1) && SettleEffect(s1, rest, ok, strip, s2)
    ensures (id, i) in s2.tables.printed <==>
              || (id, i) in s.tables.printed
              || (ok && id in s.acc && Count([pl] + rest, id, i) > 0 && Get(s2.acc[id].done, i) >= Expected(s.acc[id], i))
  {
    hide SoundJournal, Replay, Quiet;
    CountConcat([pl], rest, id, i);
    if id in s.acc {
      assert AccSettled(s.acc[id], s1.acc[id], [pl], ok, strip, id);
      assert AccSettled(s1.acc[id], s2.acc[id], rest, ok, strip, id);
    }
  }

  lemma SettleThen(s: State, s1: State, s2: State, pl: PendingLabel, rest: seq<PendingLabel>, ok: bool, strip: bool)
    requires SettleEffect(s, [pl], ok, strip, s1) && SettleEffect(s1, rest, ok, strip, s2)
    ensures SettleEffect(s, [pl] + rest, ok, strip, s2)
  {
    forall id | id in s.acc ensures AccSettled(s.acc[id], s2.acc[id], [pl] + rest, ok, strip, id) {
      AccThen(s.acc[id], s1.acc[id], s2.acc[id], pl, rest, ok, strip, id);
    }
    forall id, i: nat
      ensures (id, i) in s2.tables.printed <==>
                || (id, i) in s.tables.printed
                || (ok && id in s.acc && Count([pl] + rest, id, i) > 0 && Get(s2.acc[id].done, i) >= Expected(s.acc[id], i))
    {
      PrintedThen(s, s1, s2, pl, rest, ok, strip, id, i);
    }
  }

  lemma CreditableRest(s: State, s1: State, pl: PendingLabel, rest: seq<PendingLabel>, strip: bool)
    requires Creditable(s, [pl] + rest) && SettleEffect(s, [pl], true, strip, s1)
    ensures Creditable(s1, rest)
  {
    hide SoundJournal, Replay;
    forall id, i: nat | id in s1.acc && Count(rest, id, i) > 0
      ensures var plan := PlanOf(s1.journal, id);
        && i < |plan| && plan[i].Print? && Expected(s1.acc[id], i) == plan[i].copies
        && Good(s1.journal, id, i) == Get(s1.acc[id].done, i) + Count(rest, id, i)
        && Good(s1.journal, id, i) <= plan[i].copies
    {
      CountConcat([pl], rest, id, i);
      assert AccSettled(s.acc[id], s1.acc[id], [pl], true, strip, id);
    }
  }

  lemma SettleOneEffect(s: State, pl: PendingLabel, rest: seq<PendingLabel>, ok: bool, strip: bool)
    requires s.tables == Replay(s.journal) && SoundJournal(s.journal) && AtRest(s.journal) && !s.raised
    requires pl.job in s.acc
    requires ok ==> Creditable(s, [pl] + rest)
    ensures var s1 := SettleOne(s, pl, ok, strip);
            && SettleEffect(s, [pl], ok, strip, s1)
            && s1.tables == Replay(s1.journal) && SoundJournal(s1.journal) && AtRest(s1.journal) && !s1.raised
            && s1.acc.Keys == s.acc.Keys
            && (ok ==> Creditable(s1, rest))
  {
    if ok {
      assert Count([pl] + rest, pl.job, pl.index) > 0;
      CountConcat([pl], rest, pl.job, pl.index);
      CountOne(pl, pl.job, pl.index);
      CreditOne(s, pl, strip);
      CreditableRest(s, Credit(s, pl), pl, rest, strip);
    } else {
      FailOne(s, pl, strip);
    }
  }

  lemma {:induction false} SettleAllEffect(s: State, labels: seq<PendingLabel>, ok: bool, strip: bool)
    requires s.tables == Replay(s.journal) && SoundJournal(s.journal) && AtRest(s.journal) && !s.raised
    requires forall c :: c in labels ==> c.job in s.acc
    requires ok ==> Creditable(s, labels)
    ensures SettleEffect(s, labels, ok, strip, SettleAll(s, labels, ok, strip))
    decreases |labels|
  {
    if labels != [] {
      hide SettleEffect, Creditable, SettleOne, SoundJournal, Replay;
      var pl, rest := labels[0], labels[1..];
      assert labels == [pl] + rest;
      SettleOneEffect(s, pl, rest, ok, strip);
      var s1 := SettleOne(s, pl, ok, strip);
      SettleAllEffect(s1, rest, ok, strip);
      SettleThen(s, s1, SettleAll(s1, rest, ok, strip), pl, rest, ok, strip);
    }
  }

  // --- finalising -------------------------------------------------------------

  ghost function TotalCount(out: seq<PendingLabel>, id: JobId, n: nat): nat {
    if n == 0 then 0 else TotalCount(out, id, n - 1) + Count(out, id, n - 1)
  }

  lemma {:induction false} TotalsAdd(a: JobAcc, out: seq<PendingLabel>, id: JobId, n: nat)
    requires forall i: nat :: i < n ==> Get(a.done, i) + Get(a.failed, i) + Count(out, id, i) == Expected(a, i)
    ensures Total(a.done, n) + Total(a.failed, n) + TotalCount(out, id, n) == Total(a.expected, n)
    ensures TotalCount(out, id, n) == 0 <==> forall i: nat :: i < n ==> Count(out, id, i) == 0
  {
    if n > 0 {
      TotalsAdd(a, out, id, n - 1);
      assert (forall i: nat :: i < n ==> Count(out, id, i) == 0) <==>
        Count(out, id, n - 1) == 0 && forall i: nat :: i < n - 1 ==> Count(out, id, i) == 0;
    }
  }

  /** A job is settled exactly when none of its copies is still out. */
  lemma CompleteWhenNoneOut(h: seq<Event>, t: Tables, a: JobAcc, out: seq<PendingLabel>, id: JobId)
    requires Tallied(h, t, a, out, id)
    ensures Complete(a) <==> !Mentions(out, id)
    ensures !Mentions(out, id) <==> forall i: nat :: Count(out, id, i) == 0
    ensures forall c :: c in out && c.job == id ==> c.index < |a.job.labels| && PlanOf(h, id)[c.index].Print?
  {
    var n := |a.job.labels|;
    TotalsAdd(a, out, id, n);
    forall c | c in out && c.job == id
      ensures Count(out, id, c.index) > 0 && c.index in a.expected
    {
      CountMentioned(out, c);
    }
    if i: nat :| Count(out, id, i) > 0 {
      var c := CountWitness(out, id, i);
    }
  }

  /** The tally of a job depends on its own events, its own row and its own copies. */
  lemma TalliedSame(h: seq<Event>, t: Tables, a: JobAcc, out: seq<PendingLabel>, id: JobId, g: seq<Event>, u: Tables,
                    left: seq<PendingLabel>)
    requires Tallied(h, t, a, out, id)
    requires PlanOf(g, id) == PlanOf(h, id) && (StripLost(g, id) <==> StripLost(h, id))
    requires forall i: nat :: Good(g, id, i) == Good(h, id, i) && Lost(g, id, i) == Lost(h, id, i)
    requires forall i: nat :: Count(left, id, i) == Count(out, id, i)
    requires id in u.jobs && u.jobs[id] == t.jobs[id]
    requires forall i: nat :: (id, i) in u.printed <==> (id, i) in t.printed
    ensures Tallied(g, u, a, left, id)
  {
  }

  lemma EntryTrue(h: seq<Event>, t: Tables, a: JobAcc, out: seq<PendingLabel>, id: JobId, i: nat)
    requires t == Replay(h) && Tallied(h, t, a, out, id) && i < |a.job.labels| && Count(out, id, i) == 0
    requires ValidJob(a.job)
    ensures LineTrue(h, id, i, Entry(a, i))
    ensures CountsAsPrinted(Entry(a, i)) <==> SetsPrinted(a, i)
  {
  }

  /** The result `_finalize` writes says what happened. */
  lemma ResultTrue(h: seq<Event>, t: Tables, a: JobAcc, out: seq<PendingLabel>, id: JobId)
    requires t == Replay(h) && Tallied(h, t, a, out, id) && Complete(a)
    requires ValidJob(a.job)
    ensures Truthful(h, id, ResultOf(a))
  {
    CompleteWhenNoneOut(h, t, a, out, id);
    var r := ResultOf(a);
    forall i | 0 <= i < |r.labels|
      ensures LineTrue(h, id, i, r.labels[i])
      ensures r.labels[i] == Entry(a, i) && (CountsAsPrinted(r.labels[i]) <==> SetsPrinted(a, i))
    {
      EntryTrue(h, t, a, out, id, i);
    }
    StateTrue(a, r);
  }

  lemma StateTrue(a: JobAcc, r: JobResult)
    requires r == ResultOf(a)
    requires forall i :: 0 <= i < |r.labels| ==>
      r.labels[i] == Entry(a, i) && (CountsAsPrinted(r.labels[i]) <==> SetsPrinted(a, i))
    ensures r.state == Completed <==> forall l :: l in r.labels ==> l.state != Failed
    ensures r.state == AllFailed <==>
      (exists l :: l in r.labels && l.state == Failed) && forall l :: l in r.labels ==> !CountsAsPrinted(l)
    ensures r.state == Partial <==>
      (exists l :: l in r.labels && l.state == Failed) && exists l :: l in r.labels && CountsAsPrinted(l)
  {
    var n := |a.job.labels|;
    assert (exists i: nat :: i < n && SetsPrinted(a, i)) <==> exists l :: l in r.labels && CountsAsPrinted(l) by {
      if i: nat :| i < n && SetsPrinted(a, i) {
        assert r.labels[i] in r.labels;
      }
    }
    assert (exists i: nat :: i < n && Entry(a, i).state == Failed) <==> exists l :: l in r.labels && l.state == Failed by {
      if i: nat :| i < n && Entry(a, i).state == Failed {
        assert r.labels[i] in r.labels;
      }
    }
  }

  lemma FinishedEffect(s: State, id: JobId, r: JobResult)
    requires s.tables == Replay(s.journal) && SoundJournal(s.journal)
    requires Sound(s.journal, Finished(id, r))
    ensures var s1 := Conclude(s, id, r);
            && s1 == s.(journal := s1.journal, tables := s1.tables)
            && s1.tables == s.tables.(jobs := s.tables.jobs[id := Row(s.tables.jobs[id].job, Terminal(r.state), Some(r))])
            && s1.tables == Replay(s1.journal) && SoundJournal(s1.journal) && AtRest(s1.journal)
            && Live(s1.journal) == Live(s.journal) - {id}
            && (forall k :: PlanOf(s1.journal, k) == PlanOf(s.journal, k))
            && (forall k, i: nat :: Good(s1.journal, k, i) == Good(s.journal, k, i))
            && (forall k, i: nat :: Lost(s1.journal, k, i) == Lost(s.journal, k, i))
            && (forall k :: StripLost(s1.journal, k) <==> StripLost(s.journal, k))
  {
    var e := Finished(id, r);
    Appended(s.journal, e);
    SoundTables(s.journal);
    var h := s.journal + [e];
    Appended(h, Published(r));
    assert Sound(h, Published(r));
    SilentIsQuiet(h, Published(r));
  }

  lemma ResultSound(s: State, out: seq<PendingLabel>, id: JobId)
    requires Conserved(s, out) && id in s.acc && Complete(s.acc[id])
    ensures Sound(s.journal, Finished(id, ResultOf(s.acc[id])))
  {
    SoundTables(s.journal);
    ResultTrue(s.journal, s.tables, s.acc[id], out, id);
  }

  /** Finalising a settled job keeps every other tally, and the job leaves for good. */
  lemma FinalizeKeeps(s: State, out: seq<PendingLabel>, id: JobId)
    requires Conserved(s, out) && id in s.acc && Complete(s.acc[id])
    ensures Conserved(Finalize(s, id), out)
    ensures Finalize(s, id).acc == s.acc - {id} && Finalize(s, id).buffer == s.buffer
  {
    var a := s.acc[id];
    ResultSound(s, out, id);
    CompleteWhenNoneOut(s.journal, s.tables, a, out, id);
    var s0 := s.(acc := s.acc - {id});
    FinishedEffect(s0, id, ResultOf(a));
    var s1 := Conclude(s0, id, ResultOf(a));
    forall k | k in s1.acc ensures Tallied(s1.journal, s1.tables, s1.acc[k], out, k) {
      TalliedSame(s.journal, s.tables, s.acc[k], out, k, s1.journal, s1.tables, out);
    }
  }

  lemma {:induction false} FinalizeEachKeeps(s: State, out: seq<PendingLabel>, ids: seq<JobId>)
    requires Conserved(s, out)
    ensures var s1 := FinalizeEach(s, ids);
            && Conserved(s1, out) && s1.buffer == s.buffer
            && (forall id :: id in s1.acc ==> id in s.acc && s1.acc[id] == s.acc[id] && !(id in ids && Complete(s.acc[id])))
            && (forall id :: id in s.acc && id !in s1.acc ==> Complete(s.acc[id]))
    decreases |ids|
  {
    hide Conserved, Complete;
    if ids == [] {
    } else {
      if ids[0] in s.acc && Complete(s.acc[ids[0]]) {
        FinalizeKeeps(s, out, ids[0]);
      }
      FinalizeEachKeeps(MaybeFinalize(s, ids[0]), out, ids[1..]);
      assert ids == [ids[0]] + ids[1..];
    }
  }

  // --- stalling ---------------------------------------------------------------

  lemma RequeueEffect(s: State, id: JobId)
    requires s.tables == Replay(s.journal) && SoundJournal(s.journal) && Unfinished(s.tables, id)
    ensures var s1 := Emit(s, Marked(id, Queued));
            && s1.tables == s.tables.(jobs := s.tables.jobs[id := s.tables.jobs[id].(state := Queued)])
            && s1.tables == Replay(s1.journal) && SoundJournal(s1.journal) && AtRest(s1.journal)
            && Live(s1.journal) == Live(s.journal) - {id}
            && (forall k :: PlanOf(s1.journal, k) == PlanOf(s.journal, k))
            && (forall k, i: nat :: Good(s1.journal, k, i) == Good(s.journal, k, i))
            && (forall k, i: nat :: Lost(s1.journal, k, i) == Lost(s.journal, k, i))
            && (forall k :: StripLost(s1.journal, k) <==> StripLost(s.journal, k))
  {
    Appended(s.journal, Marked(id, Queued));
  }

  lemma StallOneKeeps(s: State, out: seq<PendingLabel>, id: JobId, now: real)
    requires AllTallied(s, out) && id in s.acc
    ensures var s1 := StallOne(s, id, now); AllTallied(s1, out) && s1.acc == s.acc - {id} && s1.buffer == s.buffer
  {
    RequeueEffect(s, id);
    var s1 := StallOne(s, id, now);
    forall k | k in s1.acc ensures Tallied(s1.journal, s1.tables, s1.acc[k], out, k) {
      TalliedSame(s.journal, s.tables, s.acc[k], out, k, s1.journal, s1.tables, out);
    }
  }

  ghost predicate Without(acc: map<JobId, JobAcc>, left: map<JobId, JobAcc>, ids: seq<JobId>) {
    && (forall id :: id in left <==> id in acc && id !in ids)
    && (forall id :: id in left ==> left[id] == acc[id])
  }

  lemma {:induction false} StallEachKeeps(s: State, out: seq<PendingLabel>, ids: seq<JobId>, now: real)
    requires AllTallied(s, out)
    requires forall id :: id in ids ==> id in s.acc
    requires forall i, k :: 0 <= i < k < |ids| ==> ids[i] != ids[k]
    ensures var s1 := StallEach(s, ids, now);
            AllTallied(s1, out) && Without(s.acc, s1.acc, ids) && s1.buffer == s.buffer
    decreases |ids|
  {
    if ids == [] {
    } else {
      StallOneKeeps(s, out, ids[0], now);
      var s1 := StallOne(s, ids[0], now);
      StallEachKeeps(s1, out, ids[1..], now);
      assert forall id :: id in ids <==> id == ids[0] || id in ids[1..];
    }
  }

  /** The jobs of a strip that never reached the tape leave with all their copies. */
  lemma StallStrip(s: State, labels: seq<PendingLabel>, rest: seq<PendingLabel>, now: real)
    requires Conserved(s, labels + rest)
    requires forall c :: c in rest ==> !Mentions(labels, c.job)
    ensures var s1 := StallEach(s, JobIds(labels), now);
            && Conserved(s1, rest) && s1.buffer == s.buffer
            && Without(s.acc, s1.acc, JobIds(labels))
  {
    assert forall c :: c in labels ==> c in labels + rest;
    StallEachKeeps(s, labels + rest, JobIds(labels), now);
    var s1 := StallEach(s, JobIds(labels), now);
    forall id | id in s1.acc ensures Tallied(s1.journal, s1.tables, s1.acc[id], rest, id) {
      forall i: nat ensures Count(labels + rest, id, i) == Count(rest, id, i) {
        CountConcat(labels, rest, id, i);
        if Count(labels, id, i) > 0 {
          var c := CountWitness(labels, id, i);
        }
      }
    }
    forall c | c in rest ensures c.job in s1.acc {
      assert c in labels + rest;
    }
  }

  // --- printing a strip -------------------------------------------------------

  /** Copies still out are fit for the tape: unfinished job, label not committed. */
  lemma OutIsPrintable(s: State, out: seq<PendingLabel>, c: PendingLabel)
    requires Conserved(s, out) && c in out
    ensures Unfinished(s.tables, c.job) && (c.job, c.index) !in s.tables.printed
  {
    hide SoundJournal, Replay;
    var a := s.acc[c.job];
    CompleteWhenNoneOut(s.journal, s.tables, a, out, c.job);
    CountMentioned(out, c);
    assert Expected(a, c.index) == PlanOf(s.journal, c.job)[c.index].copies;
  }

  lemma OutOfLabel(h: seq<Event>, t: Tables, a: JobAcc, labels: seq<PendingLabel>, rest: seq<PendingLabel>, id: JobId,
                   i: nat)
    requires Tallied(h, t, a, labels + rest, id) && Count(labels, id, i) > 0
    ensures i < |PlanOf(h, id)| && PlanOf(h, id)[i].Print? && Expected(a, i) == PlanOf(h, id)[i].copies
    ensures Good(h, id, i) == Get(a.done, i)
    ensures Good(h, id, i) + Count(labels, id, i) <= PlanOf(h, id)[i].copies
  {
    CountConcat(labels, rest, id, i);
    assert i in a.expected;
  }

  lemma SentIsCreditable(s: State, s1: State, labels: seq<PendingLabel>, rest: seq<PendingLabel>, strip: bool, out: Sent)
    requires Conserved(s, labels + rest) && SendDone(s, labels, strip, s1, out) && out.ok
    ensures Creditable(s1, labels)
  {
    hide Tallied, SoundJournal, Replay;
    forall id, i: nat | id in s1.acc && Count(labels, id, i) > 0
      ensures var plan := PlanOf(s1.journal, id);
        && i < |plan| && plan[i].Print? && Expected(s1.acc[id], i) == plan[i].copies
        && Good(s1.journal, id, i) == Get(s1.acc[id].done, i) + Count(labels, id, i)
        && Good(s1.journal, id, i) <= plan[i].copies
    {
      OutOfLabel(s.journal, s.tables, s.acc[id], labels, rest, id, i);
    }
  }

  /** What a settled frame means for one job: journal h to g, tables t to u, tally a to b. */
  ghost predicate JobSettled(h: seq<Event>, t: Tables, a: JobAcc, g: seq<Event>, u: Tables, b: JobAcc,
                             labels: seq<PendingLabel>, ok: bool, strip: bool, id: JobId) {
    && AccSettled(a, b, labels, ok, strip, id)
    && PlanOf(g, id) == PlanOf(h, id)
    && (forall i: nat :: Good(g, id, i) == Good(h, id, i) + if ok then Count(labels, id, i) else 0)
    && (forall i: nat :: Lost(g, id, i) == Lost(h, id, i) + if ok then 0 else Count(labels, id, i))
    && (StripLost(g, id) <==> StripLost(h, id) || (strip && !ok && Mentions(labels, id)))
    && u.jobs == t.jobs
    && (forall i: nat :: (id, i) in u.printed <==>
          (id, i) in t.printed || (ok && Count(labels, id, i) > 0 && Get(b.done, i) >= Expected(a, i)))
  }

  lemma SettledCounts(h: seq<Event>, t: Tables, a: JobAcc, g: seq<Event>, u: Tables, b: JobAcc,
                      labels: seq<PendingLabel>, rest: seq<PendingLabel>, ok: bool, strip: bool, id: JobId, i: nat)
    requires Tallied(h, t, a, labels + rest, id) && JobSettled(h, t, a, g, u, b, labels, ok, strip, id)
    ensures Get(b.done, i) == Good(g, id, i) && Get(b.failed, i) == Lost(g, id, i)
    ensures Good(g, id, i) + Lost(g, id, i) + Count(rest, id, i) == Expected(b, i)
    ensures Count(labels, id, i) > 0 ==> i < |PlanOf(g, id)|
    ensures i < |PlanOf(g, id)| ==> ((id, i) in u.printed <==> Committable(PlanOf(g, id)[i], Good(g, id, i)))
  {
    CountConcat(labels, rest, id, i);
    assert Count(labels, id, i) > 0 ==> i in a.expected;
    assert i < |PlanOf(h, id)| ==> Expected(a, i) == if PlanOf(h, id)[i].Print? then PlanOf(h, id)[i].copies else 0;
  }

  lemma SettledTally(h: seq<Event>, t: Tables, a: JobAcc, g: seq<Event>, u: Tables, b: JobAcc,
                     labels: seq<PendingLabel>, rest: seq<PendingLabel>, ok: bool, strip: bool, id: JobId)
    requires Tallied(h, t, a, labels + rest, id) && JobSettled(h, t, a, g, u, b, labels, ok, strip, id)
    ensures Tallied(g, u, b, rest, id)
    ensures !Mentions(labels, id) ==> (Complete(b) <==> Complete(a))
  {
    forall i: nat
      ensures Get(b.done, i) == Good(g, id, i) && Get(b.failed, i) == Lost(g, id, i)
      ensures Good(g, id, i) + Lost(g, id, i) + Count(rest, id, i) == Expected(b, i)
      ensures Count(labels, id, i) > 0 ==> i < |PlanOf(g, id)|
      ensures i < |PlanOf(g, id)| ==> ((id, i) in u.printed <==> Committable(PlanOf(g, id)[i], Good(g, id, i)))
    {
      SettledCounts(h, t, a, g, u, b, labels, rest, ok, strip, id, i);
    }
    CompleteWhenNoneOut(h, t, a, labels + rest, id);
    CompleteWhenNoneOut(g, u, b, rest, id);
    assert forall c :: c in labels + rest <==> c in labels || c in rest;
  }

  /** A settled frame keeps the accounts; who is settled now has no copy in `rest`. */
  lemma SettledKeeps(s: State, s1: State, s2: State, labels: seq<PendingLabel>, rest: seq<PendingLabel>, strip: bool,
                     out: Sent)
    requires Conserved(s, labels + rest)
    requires SendDone(s, labels, strip, s1, out) && out.wrote
    requires SettleEffect(s1, labels, out.ok, strip, s2)
    ensures Conserved(s2, rest)
    ensures forall id :: id in s.acc && !Mentions(labels, id) ==> (Complete(s2.acc[id]) <==> Complete(s.acc[id]))
  {
    forall id | id in s.acc
      ensures Tallied(s2.journal, s2.tables, s2.acc[id], rest, id)
      ensures !Mentions(labels, id) ==> (Complete(s2.acc[id]) <==> Complete(s.acc[id]))
    {
      assert JobSettled(s.journal, s.tables, s.acc[id], s2.journal, s2.tables, s2.acc[id], labels, out.ok, strip, id);
      SettledTally(s.journal, s.tables, s.acc[id], s2.journal, s2.tables, s2.acc[id], labels, rest, out.ok, strip, id);
    }
    assert forall c :: c in rest ==> c in labels + rest;
  }

  /** Only jobs with copies in this strip leave, and none comes in. */
  ghost predicate Leaves(s: State, s1: State, labels: seq<PendingLabel>) {
    && (forall id :: id in s1.acc ==> id in s.acc)
    && (forall id :: id in s.acc && !Mentions(labels, id) ==> id in s1.acc)
  }

  /** A strip that was begun: its copies are settled and its settled jobs finalised. */
  lemma SettleStrip(s: State, s1: State, labels: seq<PendingLabel>, rest: seq<PendingLabel>, out: Sent)
    requires Conserved(s, labels + rest) && Unsettled(s)
    requires SendDone(s, labels, true, s1, out) && out.wrote
    ensures var s2 := SettleAll(s1, labels, out.ok, true);
            var s3 := FinalizeEach(s2, JobIds(labels));
            && !s2.raised && Conserved(s3, rest) && Unsettled(s3) && s3.buffer == s.buffer
            && Leaves(s, s3, labels)
  {
    assert forall c :: c in labels ==> c in labels + rest;
    if out.ok {
      SentIsCreditable(s, s1, labels, rest, true, out);
    }
    SettleAllEffect(s1, labels, out.ok, true);
    var s2 := SettleAll(s1, labels, out.ok, true);
    SettledKeeps(s, s1, s2, labels, rest, true, out);
    FinalizeEachKeeps(s2, rest, JobIds(labels));
    var s3 := FinalizeEach(s2, JobIds(labels));
    forall id | id in s3.acc ensures !Complete(s3.acc[id]) {
      if !Mentions(labels, id) {
        assert id in s.acc;
      }
    }
  }

  lemma StripIsSound(s: State, labels: seq<PendingLabel>, rest: seq<PendingLabel>)
    requires Conserved(s, labels + rest) && labels != []
    ensures Sound(s.journal, Tried(labels, true, FramePrinted))
  {
    forall c | c in labels ensures Unfinished(s.tables, c.job) && (c.job, c.index) !in s.tables.printed {
      OutIsPrintable(s, labels + rest, c);
    }
  }

  /** A send that began no frame changes no account. */
  lemma UnsentKeeps(s: State, s1: State, copies: seq<PendingLabel>, strip: bool, out: seq<PendingLabel>)
    requires Conserved(s, out) && SendDone(s, copies, strip, s1, Sent(false, false))
    ensures Conserved(s1, out) && AllTallied(s1, out)
    ensures s1.acc == s.acc && s1.buffer == s.buffer && forall c :: c in out ==> c.job in s1.acc
  {
    forall id | id in s1.acc ensures Tallied(s1.journal, s1.tables, s1.acc[id], out, id) {
      TalliedSame(s.journal, s.tables, s.acc[id], out, id, s1.journal, s1.tables, out);
    }
  }

  /** Stalling undoes the jobs of an unsent strip; it leaves the others as they were. */
  lemma StallUnsent(s: State, s1: State, labels: seq<PendingLabel>, rest: seq<PendingLabel>, now: real)
    requires Conserved(s, labels + rest) && Unsettled(s)
    requires SendDone(s, labels, true, s1, Sent(false, false))
    ensures var s2 := StallEach(s1, JobIds(labels), now);
            && Leaves(s, s2, labels)
            && ((forall c :: c in rest ==> c.job in s2.acc) ==>
                 Conserved(s2, rest) && Unsettled(s2) && s2.buffer == s.buffer)
  {
    hide Conserved, AllTallied, SendDone, StallEach, JobIds, Mentions;
    UnsentKeeps(s, s1, labels, true, labels + rest);
    forall id | id in JobIds(labels) ensures id in s1.acc {
      var c :| c in labels && c.job == id;
      assert c in labels + rest;
    }
    StallEachKeeps(s1, labels + rest, JobIds(labels), now);
    var s2 := StallEach(s1, JobIds(labels), now);
    WithoutMentioned(s.acc, s2.acc, labels);
    if forall c :: c in rest ==> c.job in s2.acc {
      StallStrip(s1, labels, rest, now);
    }
  }

  lemma WithoutMentioned(acc: map<JobId, JobAcc>, left: map<JobId, JobAcc>, labels: seq<PendingLabel>)
    requires Without(acc, left, JobIds(labels))
    ensures forall id :: id in left <==> id in acc && !Mentions(labels, id)
  {
  }

  lemma PrintStripKeeps(env: Env, s: State, labels: seq<PendingLabel>, rest: seq<PendingLabel>)
    requires Conserved(s, labels + rest) && Unsettled(s) && labels != []
    ensures var s1 := PrintStrip(env, s, labels);
            && Leaves(s, s1, labels)
            && ((forall c :: c in rest ==> c.job in s1.acc) ==>
                 Conserved(s1, rest) && Unsettled(s1) && s1.buffer == s.buffer)
  {
    StripIsSound(s, labels, rest);
    SendKeeps(env, s, labels, true);
    var r := Send(env, s, labels, true);
    if r.1.wrote {
      SettleStrip(s, r.0, labels, rest, r.1);
    } else {
      StallUnsent(s, r.0, labels, rest, env.now);
    }
  }

  lemma TakeBuffer(s: State, todo: seq<PendingLabel>)
    requires Inv(s, todo)
    ensures Conserved(s.(buffer := EMPTY_BUFFER), s.buffer.pending + todo) && Unsettled(s.(buffer := EMPTY_BUFFER))
  {
  }

  /** A flush keeps the invariant, unless it stalls a job that has copies still to come. */
  lemma FlushKeeps(env: Env, s: State, todo: seq<PendingLabel>)
    requires Inv(s, todo)
    ensures var s1 := Flush(env, s);
            && Leaves(s, s1, s.buffer.pending)
            && ((forall c :: c in todo ==> c.job in s1.acc) ==> Inv(s1, todo) && s1.buffer.pending == [])
  {
    hide Conserved, PrintStrip;
    if s.buffer.pending != [] {
      TakeBuffer(s, todo);
      PrintStripKeeps(env, s.(buffer := EMPTY_BUFFER), s.buffer.pending, todo);
      assert [] + todo == todo;
    }
  }

  /** A flush of other jobs' copies does no harm to the job being submitted. */
  lemma FlushOthers(env: Env, s: State, todo: seq<PendingLabel>)
    requires Inv(s, todo)
    requires forall c :: c in todo ==> !Mentions(s.buffer.pending, c.job)
    ensures var s1 := Flush(env, s); Inv(s1, todo) && s1.buffer.pending == [] && Leaves(s, s1, s.buffer.pending)
  {
    FlushKeeps(env, s, todo);
    assert forall c :: c in todo ==> c in s.buffer.pending + todo;
  }

  // --- buffering a job's copies -----------------------------------------------

  ghost predicate OfJob(copies: seq<PendingLabel>, id: JobId) {
    forall c :: c in copies ==> c.job == id
  }

  /** No flush inside the buffering loop stalls this job while copies of it are still to come. */
  ghost predicate NoMidLoopStall(env: Env, s: State, id: JobId, todo: seq<PendingLabel>)
    decreases |todo|
  {
    |todo| <= 1 ||
    var s1 := AddOne(env, s, todo[0]);
    id in s1.acc && NoMidLoopStall(env, s1, id, todo[1..])
  }

  /** The pending strip holds no copy of this job that a geometry change would flush. */
  ghost predicate Joinable(env: Env, s: State, id: JobId) {
    Accepts(s.buffer, env.cfg.tapeWidth) || !Mentions(s.buffer.pending, id)
  }

  lemma MakeRoom(env: Env, s: State, id: JobId, todo: seq<PendingLabel>)
    requires Inv(s, todo) && OfJob(todo, id) && Joinable(env, s, id)
    ensures var s1 := if Accepts(s.buffer, env.cfg.tapeWidth) then s else Flush(env, s);
            Inv(s1, todo) && Leaves(s, s1, s.buffer.pending)
  {
    if !Accepts(s.buffer, env.cfg.tapeWidth) {
      FlushOthers(env, s, todo);
    }
  }

  lemma SendKeepsBuffer(env: Env, s: State, copies: seq<PendingLabel>, strip: bool, attempt: nat)
    ensures SendFrom(env, s, copies, strip, attempt).0.buffer == s.buffer
    decreases env.cfg.maxAttempts - attempt
  {
  }

  lemma SettleAllKeepsBuffer(s: State, labels: seq<PendingLabel>, ok: bool, strip: bool)
    ensures SettleAll(s, labels, ok, strip).buffer == s.buffer
    decreases |labels|
  {
  }

  lemma FinalizeEachKeepsBuffer(s: State, ids: seq<JobId>)
    ensures FinalizeEach(s, ids).buffer == s.buffer
    decreases |ids|
  {
  }

  lemma StallEachKeepsBuffer(s: State, ids: seq<JobId>, now: real)
    ensures StallEach(s, ids, now).buffer == s.buffer
    decreases |ids|
  {
  }

  /** Whatever the link does, a flush leaves the pending strip empty. */
  lemma FlushEmpties(env: Env, s: State)
    ensures Flush(env, s).buffer.pending == []
  {
    if s.buffer.pending != [] {
      var labels := s.buffer.pending;
      SendKeepsBuffer(env, s.(buffer := EMPTY_BUFFER), labels, true, 0);
      var r := Send(env, s.(buffer := EMPTY_BUFFER), labels, true);
      StallEachKeepsBuffer(r.0, JobIds(labels), env.now);
      SettleAllKeepsBuffer(r.0, labels, r.1.ok, true);
      FinalizeEachKeepsBuffer(SettleAll(r.0, labels, r.1.ok, true), JobIds(labels));
    }
  }

  /** The accounts do not depend on how the copies still out are split up. */
  lemma Rebuffer(s: State, b: Buffer, todo: seq<PendingLabel>, left: seq<PendingLabel>)
    requires Inv(s, todo) && s.buffer.pending + todo == b.pending + left
    ensures Inv(s.(buffer := b), left)
  {
  }

  lemma JoinKeeps(env: Env, s: State, id: JobId, pl: PendingLabel, rest: seq<PendingLabel>)
    requires Inv(s, [pl] + rest) && OfJob(rest, id)
    ensures var s1 := s.(buffer := AddTo(s.buffer, pl, env.cfg.tapeWidth, env.now));
            var s2 := if IsFull(env.cfg, s1.buffer.pending) then Flush(env, s1) else s1;
            Joinable(env, s2, id) && (rest == [] || id in s2.acc ==> Inv(s2, rest))
  {
    hide Inv, Flush;
    var b := AddTo(s.buffer, pl, env.cfg.tapeWidth, env.now);
    assert s.buffer.pending + ([pl] + rest) == b.pending + rest;
    Rebuffer(s, b, [pl] + rest, rest);
    FlushKeeps(env, s.(buffer := b), rest);
    FlushEmpties(env, s.(buffer := b));
  }

  lemma AddOneKeeps(env: Env, s: State, id: JobId, pl: PendingLabel, rest: seq<PendingLabel>)
    requires Inv(s, [pl] + rest) && OfJob([pl] + rest, id) && Joinable(env, s, id)
    requires rest != [] ==> id in AddOne(env, s, pl).acc
    ensures var s1 := AddOne(env, s, pl); Inv(s1, rest) && Joinable(env, s1, id)
  {
    MakeRoom(env, s, id, [pl] + rest);
    assert forall c :: c in rest ==> c in [pl] + rest;
    JoinKeeps(env, if Accepts(s.buffer, env.cfg.tapeWidth) then s else Flush(env, s), id, pl, rest);
  }

  lemma {:induction false} AddAllKeeps(env: Env, s: State, id: JobId, todo: seq<PendingLabel>)
    requires Inv(s, todo) && OfJob(todo, id) && Joinable(env, s, id)
    requires NoMidLoopStall(env, s, id, todo)
    ensures Inv(AddAll(env, s, todo), [])
    decreases |todo|
  {
    if todo == [] {
    } else {
      var pl, rest := todo[0], todo[1..];
      assert todo == [pl] + rest;
      AddOneKeeps(env, s, id, pl, rest);
      assert OfJob(rest, id);
      AddAllKeeps(env, AddOne(env, s, pl), id, rest);
    }
  }

  lemma BufferCopiesKeeps(env: Env, s: State, id: JobId, todo: seq<PendingLabel>, flush: bool)
    requires Inv(s, todo) && OfJob(todo, id) && Joinable(env, s, id)
    requires NoMidLoopStall(env, s, id, todo)
    ensures Inv(BufferCopies(env, s, id, todo, flush), [])
  {
    AddAllKeeps(env, s, id, todo);
    var s1 := AddAll(env, s, todo);
    if flush {
      FlushKeeps(env, s1, []);
    }
  }
}
