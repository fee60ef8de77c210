/** The durable spool, and the journal of effects it is rebuilt from after a crash. */
module Spool {
  import opened Basics
  import opened Contract

  datatype RowState = Queued | Printing | Terminal(state: JobState)

  datatype Row = Row(job: PrintJob, state: RowState, result: Option<JobResult>)

  /** What `submit` decided about one label of a job. */
  datatype Decision = AlreadyPrinted | Duplicate | Unrenderable | Print(copies: nat, image: Image)

  /** An MQTT delivery on the jobs topic (None when the payload fails the schema). */
  datatype Delivery = Delivery(mid: nat, job: Option<PrintJob>)

  /** One effect of the agent that outlives the process: a spool write, an acknowledgement,
      or tape moving. `Planned`, `Settled` and `Booted` only mark the course of the run. */
  datatype Event =
    | Inserted(job: PrintJob)
    | Marked(id: JobId, state: RowState)
    | Finished(id: JobId, result: JobResult)
    | DedupeRecorded(dedupe: string, id: JobId, at: real)
    | DedupePurged(before: real)
    | Committed(id: JobId, index: nat)
    | Acked(delivery: Delivery)
    | Published(published: JobResult)
    | Tried(copies: seq<PendingLabel>, strip: bool, outcome: Attempt)
    | Settled(copies: seq<PendingLabel>, strip: bool, ok: bool, wrote: bool)
    | Planned(id: JobId, plan: seq<Decision>)
    | Booted

  /** The four tables. `order` lists job ids oldest first. */
  datatype Tables = Tables(
    jobs: map<JobId, Row>,
    order: seq<JobId>,
    dedupe: map<string, (JobId, real)>,
    printed: set<(JobId, nat)>)

  const NO_TABLES: Tables := Tables(map[], [], map[], {})

  /** The tables after one more effect. */
  function Apply(t: Tables, e: Event): Tables {
    match e
    case Inserted(job) =>
      t.(jobs := t.jobs[job.id := Row(job, Queued, None)], order := t.order + [job.id])
    case Marked(id, state) =>
      if id in t.jobs then t.(jobs := t.jobs[id := t.jobs[id].(state := state)]) else t
    case Finished(id, result) =>
      if id in t.jobs then
        t.(jobs := t.jobs[id := t.jobs[id].(state := Terminal(result.state), result := Some(result))])
      else t
    case DedupeRecorded(key, id, at) => t.(dedupe := t.dedupe[key := (id, at)])
    case DedupePurged(before) => t.(dedupe := map k | k in t.dedupe && t.dedupe[k].1 >= before :: t.dedupe[k])
    case Committed(id, index) => t.(printed := t.printed + {(id, index)})
    case _ => t
  }

  /** What SQLite holds after a sequence of effects: the state a crash leaves behind. */
  function Replay(journal: seq<Event>): Tables {
    if journal == [] then NO_TABLES
    else Apply(Replay(journal[..|journal| - 1]), journal[|journal| - 1])
  }

  predicate Awaiting(t: Tables, id: JobId) {
    id in t.jobs && (t.jobs[id].state == Queued || t.jobs[id].state == Printing)
  }

  /** The jobs still waiting or printing, oldest first. */
  function QueuedIn(t: Tables, order: seq<JobId>): (ids: seq<JobId>)
    ensures forall id :: id in ids <==> id in order && Awaiting(t, id)
  {
    if order == [] then []
    else
      var rest := QueuedIn(t, order[..|order| - 1]);
      var id := order[|order| - 1];
      if Awaiting(t, id) then rest + [id] else rest
  }

  function QueuedIds(t: Tables): (ids: seq<JobId>)
    ensures forall id :: id in ids <==> id in t.order && Awaiting(t, id)
  {
    QueuedIn(t, t.order)
  }

  function PrintedLabels(t: Tables, id: JobId): set<nat> {
    set p | p in t.printed && p.0 == id :: p.1
  }

  /** The listed job with this idempotency key, if there is one. */
  function FindKey(t: Tables, order: seq<JobId>, key: string): (r: Option<JobId>)
    ensures r.Some? ==> r.value in order && r.value in t.jobs && t.jobs[r.value].job.key == key
    ensures r.None? ==> forall id :: id in order && id in t.jobs ==> t.jobs[id].job.key != key
  {
    if order == [] then None
    else
      var id := order[|order| - 1];
      if id in t.jobs && t.jobs[id].job.key == key then Some(id)
      else FindKey(t, order[..|order| - 1], key)
  }

  // --- oldest first -----------------------------------------------------------

  /** A listed job was inserted, and the job listed before it earlier. */
  lemma {:induction false} ListedAsInserted(h: seq<Event>, i: nat) returns (p: nat)
    requires i < |Replay(h).order|
    ensures p < |h| && h[p].Inserted? && h[p].job.id == Replay(h).order[i]
  {
    var n := |h| - 1;
    if i < |Replay(h[..n]).order| {
      p := ListedAsInserted(h[..n], i);
    } else {
      p := n;
    }
  }

  lemma {:induction false} ListedInOrder(h: seq<Event>, i: nat, k: nat) returns (p: nat, q: nat)
    requires i < k < |Replay(h).order|
    ensures p < q < |h| && h[p].Inserted? && h[q].Inserted?
    ensures h[p].job.id == Replay(h).order[i] && h[q].job.id == Replay(h).order[k]
  {
    var n := |h| - 1;
    if k < |Replay(h[..n]).order| {
      p, q := ListedInOrder(h[..n], i, k);
    } else {
      p := ListedAsInserted(h[..n], i);
      q := n;
    }
  }

  lemma {:induction false} QueuedAsListed(t: Tables, order: seq<JobId>, i: nat) returns (a: nat)
    requires i < |QueuedIn(t, order)|
    ensures a < |order| && order[a] == QueuedIn(t, order)[i]
  {
    var n := |order| - 1;
    if i < |QueuedIn(t, order[..n])| {
      a := QueuedAsListed(t, order[..n], i);
    } else {
      a := n;
    }
  }

  lemma {:induction false} QueuedInOrder(t: Tables, order: seq<JobId>, i: nat, k: nat) returns (a: nat, b: nat)
    requires i < k < |QueuedIn(t, order)|
    ensures a < b < |order| && order[a] == QueuedIn(t, order)[i] && order[b] == QueuedIn(t, order)[k]
  {
    var n := |order| - 1;
    if k < |QueuedIn(t, order[..n])| {
      a, b := QueuedInOrder(t, order[..n], i, k);
    } else {
      a := QueuedAsListed(t, order[..n], i);
      b := n;
    }
  }

  /** Of two jobs in the queue the one taken in earlier comes first. */
  lemma QueueIsOldestFirst(h: seq<Event>, i: nat, k: nat) returns (p: nat, q: nat)
    requires i < k < |QueuedIds(Replay(h))|
    ensures p < q < |h| && h[p].Inserted? && h[q].Inserted?
    ensures h[p].job.id == QueuedIds(Replay(h))[i] && h[q].job.id == QueuedIds(Replay(h))[k]
  {
    var a, b := QueuedInOrder(Replay(h), Replay(h).order, i, k);
    p, q := ListedInOrder(h, a, b);
  }
}
