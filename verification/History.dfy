/** Reading the journal: what it says happened, and which journals are sound. */
module History {
  import opened Basics
  import opened Contract
  import opened Spool
  import opened PrintLoop

  /** How many of these copies belong to label i of job id. */
  ghost function Count(copies: seq<PendingLabel>, id: JobId, i: nat): nat {
    if copies == [] then 0
    else (if copies[0].job == id && copies[0].index == i then 1 else 0) + Count(copies[1..], id, i)
  }

  ghost predicate Mentions(copies: seq<PendingLabel>, id: JobId) {
    exists c :: c in copies && c.job == id
  }

  function Prev(h: seq<Event>): seq<Event>
    requires h != []
  {
    h[..|h| - 1]
  }

  function Last(h: seq<Event>): Event
    requires h != []
  {
    h[|h| - 1]
  }

  /** Jobs taken on in this life of the process, neither finished nor sent back to the queue. */
  ghost function Live(h: seq<Event>): set<JobId> {
    if h == [] then {}
    else
      match Last(h)
      case Planned(id, _) => Live(Prev(h)) + {id}
      case Finished(id, _) => Live(Prev(h)) - {id}
      case Marked(id, state) => if state == Queued then Live(Prev(h)) - {id} else Live(Prev(h))
      case Booted => {}
      case _ => Live(Prev(h))
  }

  /** The plan of a job's latest submission. */
  ghost function PlanOf(h: seq<Event>, id: JobId): seq<Decision> {
    if h == [] then []
    else if Last(h).Planned? && Last(h).id == id then Last(h).plan
    else PlanOf(Prev(h), id)
  }

  /** Copies of a label in frames that went out whole since the job's latest submission. */
  ghost function Good(h: seq<Event>, id: JobId, i: nat): nat {
    if h == [] || (Last(h).Planned? && Last(h).id == id) then 0
    else if Last(h).Tried? && Last(h).outcome == FramePrinted then
      Good(Prev(h), id, i) + Count(Last(h).copies, id, i)
    else Good(Prev(h), id, i)
  }

  /** Copies of a label given up on since then: their frame was begun and broke off. */
  ghost function Lost(h: seq<Event>, id: JobId, i: nat): nat {
    if h == [] || (Last(h).Planned? && Last(h).id == id) then 0
    else if Last(h).Settled? && !Last(h).ok && Last(h).wrote then
      Lost(Prev(h), id, i) + Count(Last(h).copies, id, i)
    else Lost(Prev(h), id, i)
  }

  /** Did a strip with copies of this job break off since then? */
  ghost predicate StripLost(h: seq<Event>, id: JobId) {
    if h == [] || (Last(h).Planned? && Last(h).id == id) then false
    else
      || (Last(h).Settled? && Last(h).strip && !Last(h).ok && Last(h).wrote && Mentions(Last(h).copies, id))
      || StripLost(Prev(h), id)
  }

  /** Frames begun, and frames that went out, in the send the journal ends in. */
  ghost function BegunInSend(h: seq<Event>): nat {
    if h == [] || !Last(h).Tried? then 0
    else BegunInSend(Prev(h)) + if Last(h).outcome.ConnectFailed? then 0 else 1
  }

  ghost function PrintedInSend(h: seq<Event>): nat {
    if h == [] || !Last(h).Tried? then 0
    else PrintedInSend(Prev(h)) + if Last(h).outcome == FramePrinted then 1 else 0
  }

  /** Is every attempt of that send for these copies? */
  ghost predicate SendOf(h: seq<Event>, copies: seq<PendingLabel>, strip: bool) {
    if h == [] || !Last(h).Tried? then true
    else Last(h).copies == copies && Last(h).strip == strip && SendOf(Prev(h), copies, strip)
  }

  ghost predicate Unfinished(t: Tables, id: JobId) {
    id in t.jobs && t.jobs[id].result == None
  }

  /** One line of a result against the journal. */
  ghost predicate LineTrue(h: seq<Event>, id: JobId, i: nat, l: LabelResult)
    requires i < |PlanOf(h, id)|
  {
    && l.index == i
    && match PlanOf(h, id)[i]
       case AlreadyPrinted => l.state == Printed && l.copiesDone == 0 && (id, i) in Replay(h).printed
       case Duplicate => l.state == SkippedDuplicate && l.copiesDone == 0
       case Unrenderable => l.state == Failed && l.copiesDone == 0 && l.error == RenderError
       case Print(copies, _) =>
         && l.copiesDone == Good(h, id, i)
         && Good(h, id, i) + Lost(h, id, i) == copies
         && (l.state == Printed <==> Lost(h, id, i) == 0)
         && (l.state == Failed <==> Lost(h, id, i) > 0)
  }

  /** Does this line report a copy on tape? */
  predicate CountsAsPrinted(l: LabelResult) {
    l.state == Printed || l.copiesDone > 0
  }

  /** A result that says what happened: line by line, about the tape, and in its state. */
  ghost predicate Truthful(h: seq<Event>, id: JobId, r: JobResult) {
    && |r.labels| == |PlanOf(h, id)|
    && (forall i :: 0 <= i < |r.labels| ==> LineTrue(h, id, i, r.labels[i]))
    && (r.partialTape <==> StripLost(h, id))
    && (r.state == Completed <==> forall l :: l in r.labels ==> l.state != Failed)
    && (r.state == AllFailed <==>
        (exists l :: l in r.labels && l.state == Failed) && forall l :: l in r.labels ==> !CountsAsPrinted(l))
    && (r.state == Partial <==>
        (exists l :: l in r.labels && l.state == Failed) && exists l :: l in r.labels && CountsAsPrinted(l))
  }

  /** Does the plan fit the tables it was drawn up on? */
  ghost predicate PlanFits(t: Tables, id: JobId, plan: seq<Decision>) {
    && Unfinished(t, id)
    && |plan| == |t.jobs[id].job.labels|
    && forall i :: 0 <= i < |plan| ==>
         && ((id, i) in t.printed <==> plan[i] == AlreadyPrinted)
         && (plan[i].Print? ==> plan[i].copies == t.jobs[id].job.labels[i].copies)
  }

  /** Every label but i that has a copy on tape is committed, or has lost a copy. */
  ghost predicate OthersCommitted(h: seq<Event>, id: JobId, i: nat) {
    forall k: nat :: k != i && Good(h, id, k) > 0 ==> (id, k) in Replay(h).printed || Lost(h, id, k) > 0
  }

  /** May this effect follow that journal? */
  ghost predicate Sound(h: seq<Event>, e: Event) {
    var t := Replay(h);
    match e
    case Inserted(job) =>
      job.id !in t.jobs && ValidJob(job) && forall id :: id in t.jobs ==> t.jobs[id].job.key != job.key
    case Marked(id, state) => Unfinished(t, id) && !state.Terminal?
    case Finished(id, r) => Unfinished(t, id) && r.jobId == id && (r.state == Rejected || Truthful(h, id, r))
    case Committed(id, i) =>
      var plan := PlanOf(h, id);
      i < |plan| && plan[i].Print? && Good(h, id, i) == plan[i].copies
    case Acked(d) => d.job.Some? ==> exists id :: id in t.jobs && t.jobs[id].job.key == d.job.value.key
    case Published(r) => r.duplicate || r == MALFORMED || (r.jobId in t.jobs && t.jobs[r.jobId].result == Some(r))
    case Tried(copies, strip, _) =>
      && copies != []
      && (forall c :: c in copies ==> Unfinished(t, c.job) && (c.job, c.index) !in t.printed)
      && (!strip ==> |copies| == 1 && OthersCommitted(h, copies[0].job, copies[0].index))
    case Settled(copies, strip, ok, wrote) =>
      && SendOf(h, copies, strip)
      && (ok ==> wrote)
      && PrintedInSend(h) == (if ok then 1 else 0)
      && (wrote ==> BegunInSend(h) > 0)
      && (strip ==> BegunInSend(h) == if wrote then 1 else 0)
    case Planned(id, plan) => PlanFits(t, id, plan)
    case _ => true
  }

  /** A journal in which every effect is sound where it stands. Prefixes are sound too. */
  ghost predicate SoundJournal(h: seq<Event>) {
    h == [] || (SoundJournal(Prev(h)) && Sound(Prev(h), Last(h)))
  }

  /** The tables make sense on their own. */
  ghost predicate TablesOk(t: Tables) {
    && (forall id :: id in t.jobs <==> id in t.order)
    && (forall i, k :: 0 <= i < k < |t.order| ==> t.order[i] != t.order[k])
    && (forall id :: id in t.jobs ==> RowOk(id, t.jobs[id]))
    && (forall id, other :: id in t.jobs && other in t.jobs && t.jobs[id].job.key == t.jobs[other].job.key ==> id == other)
  }

  ghost predicate RowOk(id: JobId, row: Row) {
    && row.job.id == id
    && ValidJob(row.job)
    && (row.result.None? <==> !row.state.Terminal?)
    && (row.result.Some? ==> row.state == Terminal(row.result.value.state) && row.result.value.jobId == id)
  }

  lemma Appended(h: seq<Event>, e: Event)
    ensures h + [e] != [] && Prev(h + [e]) == h && Last(h + [e]) == e
  {
    assert (h + [e])[..|h|] == h;
  }

  /** The part of soundness the tables depend on. */
  ghost predicate TablesAllow(t: Tables, e: Event) {
    match e
    case Inserted(job) =>
      job.id !in t.jobs && ValidJob(job) && forall id :: id in t.jobs ==> t.jobs[id].job.key != job.key
    case Marked(id, state) => Unfinished(t, id) && !state.Terminal?
    case Finished(id, r) => Unfinished(t, id) && r.jobId == id
    case _ => true
  }

  lemma InsertKeepsTables(t: Tables, job: PrintJob)
    requires TablesOk(t) && TablesAllow(t, Inserted(job))
    ensures TablesOk(Apply(t, Inserted(job)))
  {
    var t1 := Apply(t, Inserted(job));
    assert forall id :: id in t1.order <==> id in t.order || id == job.id;
    assert job.id !in t.order;
  }

  lemma EffectKeepsTables(t: Tables, e: Event)
    requires TablesOk(t) && TablesAllow(t, e)
    ensures TablesOk(Apply(t, e))
  {
    if e.Inserted? {
      InsertKeepsTables(t, e.job);
    } else {
      RowsKeep(t, e);
    }
  }

  lemma RowsKeep(t: Tables, e: Event)
    requires TablesOk(t) && TablesAllow(t, e) && !e.Inserted?
    ensures TablesOk(Apply(t, e))
  {
    var u := Apply(t, e);
    assert u.order == t.order && u.jobs.Keys == t.jobs.Keys;
    forall id | id in u.jobs ensures RowOk(id, u.jobs[id]) && u.jobs[id].job == t.jobs[id].job {
      assert RowOk(id, t.jobs[id]);
    }
  }

  lemma {:induction false} SoundTables(h: seq<Event>)
    requires SoundJournal(h)
    ensures TablesOk(Replay(h))
  {
    if h != [] {
      SoundTables(Prev(h));
      assert TablesAllow(Replay(Prev(h)), Last(h));
      EffectKeepsTables(Replay(Prev(h)), Last(h));
    }
  }

  lemma {:induction false} SoundPrefix(h: seq<Event>, k: nat)
    requires SoundJournal(h) && k <= |h|
    ensures SoundJournal(h[..k])
  {
    if k < |h| {
      SoundPrefix(Prev(h), k);
      assert Prev(h)[..k] == h[..k];
    } else {
      assert h[..k] == h;
    }
  }

  lemma {:induction false} CountConcat(a: seq<PendingLabel>, b: seq<PendingLabel>, id: JobId, i: nat)
    ensures Count(a + b, id, i) == Count(a, id, i) + Count(b, id, i)
  {
    if a == [] {
      assert a + b == b;
    } else {
      CountConcat(a[1..], b, id, i);
      assert (a + b)[1..] == a[1..] + b;
    }
  }

  lemma {:induction false} CountMentioned(a: seq<PendingLabel>, c: PendingLabel)
    requires c in a
    ensures Count(a, c.job, c.index) > 0
  {
    if a[0] != c {
      CountMentioned(a[1..], c);
    }
  }

  lemma {:induction false} CountWitness(a: seq<PendingLabel>, id: JobId, i: nat) returns (c: PendingLabel)
    requires Count(a, id, i) > 0
    ensures c in a && c.job == id && c.index == i
  {
    if a[0].job == id && a[0].index == i {
      c := a[0];
    } else {
      c := CountWitness(a[1..], id, i);
    }
  }
}
