/** Job intake over MQTT: commit first, acknowledge after, then hand the job to the print loop. */
module MqttSource {
  import opened Basics
  import opened Contract
  import opened Spool
  import opened PrintLoop
  import opened History
  import opened PrintLoopInvariant
  import opened PrintLoopSteps
  import EveryRun
  import SpoolDb

  class MqttSource {
    const cfg: Config
    const spool: SpoolDb.SpoolDb
    /** Job ids handed to the print loop, in order. */
    var queue: seq<JobId>

    /** The intake's view of the agent: what is durable. */
    function Durable(): State
      reads this, spool
    {
      State(spool.Tables(), spool.journal, map[], map[], EMPTY_BUFFER, false)
    }

    constructor (cfg: Config, spool: SpoolDb.SpoolDb)
      ensures this.cfg == cfg && this.spool == spool && queue == []
    {
      this.cfg, this.spool, queue := cfg, spool, [];
    }

    /** `_on_message` on the jobs topic. */
    method OnJob(d: Delivery, fault: IntakeFault, ghost link: nat -> Attempt, now: real)
      modifies this, spool
      ensures Durable() == OnMessage(Env(cfg, link, now), old(Durable()), d, fault)
      ensures queue == old(queue) + if TakenIn(old(Durable()), d, fault) then [d.job.value.id] else []
    {
      if d.job.None? {
        spool.Note(Published(MALFORMED));
        spool.Note(Acked(d));
        return;
      }
      var job := d.job.value;
      if fault == PurgeFails {
        return;
      }
      spool.PurgeDedupe(now - cfg.dedupeTtl);
      if fault == InsertFails {
        return;
      }
      ghost var t := spool.Tables();
      var result := spool.TryInsert(job);
      match result
      case IntegrityError =>
      case AlreadySpooled(cached) =>
        var reply := if cached.Some? then cached.value else JobResult(job.id, Completed, false, false, []);
        spool.Note(Published(reply.(duplicate := true)));
        spool.Note(Acked(d));
      case New =>
        spool.Note(Acked(d));
        queue := queue + [job.id];
    }
  }

  /** Is this delivery spooled as new? */
  predicate TakenIn(s: State, d: Delivery, fault: IntakeFault) {
    d.job.Some? && fault == NoFault && d.job.value.id !in s.tables.jobs
    && FindKey(s.tables, s.tables.order, d.job.value.key).None?
  }

  lemma PurgeKeepsRows(t: Tables, before: real, order: seq<JobId>, key: string)
    ensures FindKey(Apply(t, DedupePurged(before)), order, key) == FindKey(t, order, key)
  {
  }

  ghost predicate KeyKnown(t: Tables, key: string) {
    exists id :: id in t.jobs && t.jobs[id].job.key == key
  }

  /** What a delivery adds to the journal. */
  lemma IntakeJournal(env: Env, s: State, d: Delivery, fault: IntakeFault)
    requires s.tables == Replay(s.journal) && EveryRun.RowsListed(s.tables)
    ensures var s1, purged := OnMessage(env, s, d, fault), DedupePurged(env.now - env.cfg.dedupeTtl);
            if d.job.None? then s1.journal == s.journal + [Published(MALFORMED)] + [Acked(d)]
            else if fault == PurgeFails then s1 == s
            else if fault == InsertFails then s1.journal == s.journal + [purged]
            else if KeyKnown(s.tables, d.job.value.key) then
              exists reply :: s1.journal == s.journal + [purged] + [Published(reply)] + [Acked(d)]
            else if d.job.value.id in s.tables.jobs then s1.journal == s.journal + [purged]
            else s1.journal == s.journal + [purged] + [Inserted(d.job.value)] + [Acked(d)]
  {
    hide FindKey;
    if d.job.Some? {
      PurgeKeepsRows(s.tables, env.now - env.cfg.dedupeTtl, s.tables.order, d.job.value.key);
    }
  }

  /** A delivery is acknowledged exactly when it is malformed, or its key is spooled already,
      or it could be inserted. One that reuses a job id under a new key is not. */
  lemma AcknowledgedExactlyWhen(env: Env, s: State, d: Delivery, fault: IntakeFault)
    requires EveryRun.Bounded(None, s)
    ensures var s1 := OnMessage(env, s, d, fault);
            (exists q :: |s.journal| <= q < |s1.journal| && s1.journal[q] == Acked(d)) <==>
              || d.job.None?
              || (fault == NoFault && (KeyKnown(s.tables, d.job.value.key) || d.job.value.id !in s.tables.jobs))
  {
    hide FindKey, OnMessage, KeyKnown, Replay, EveryRun.FineJournal;
    EveryRun.FineTables(None, s.journal);
    IntakeJournal(env, s, d, fault);
    var s1 := OnMessage(env, s, d, fault);
    if d.job.None? {
      assert s1.journal[|s.journal| + 1] == Acked(d);
    } else if fault == NoFault && (KeyKnown(s.tables, d.job.value.key) || d.job.value.id !in s.tables.jobs) {
      assert s1.journal[|s.journal| + 2] == Acked(d);
    }
  }

  /** Redelivering a job changes no row, whatever became of it in the meantime. */
  lemma RedeliveryIsIdempotent(env: Env, s: State, d: Delivery, fault: IntakeFault)
    requires EveryRun.Bounded(None, s) && d.job.Some? && KeyKnown(s.tables, d.job.value.key)
    ensures var s1 := OnMessage(env, s, d, fault);
            s1.tables.jobs == s.tables.jobs && s1.tables.order == s.tables.order && s1.tables.printed == s.tables.printed
    ensures !TakenIn(s, d, fault)
  {
    hide FindKey, Replay, DuplicateReply, EveryRun.FineJournal;
    EveryRun.FineTables(None, s.journal);
    PurgeKeepsRows(s.tables, env.now - env.cfg.dedupeTtl, s.tables.order, d.job.value.key);
  }

  /** The reply to a duplicate replays the stored result exactly when there is one. While the
      job still waits for tape, the reply says "completed" all the same. */
  lemma DuplicateReplyIsTrueIffFinished(s: State, id: JobId, job: PrintJob)
    requires Inv(s, []) && id in s.tables.jobs
    ensures var reply := DuplicateReply(s.tables, id, job);
            && ((exists r :: s.tables.jobs[id].result == Some(r) && reply == r.(duplicate := true))
                <==> !Awaiting(s.tables, id))
            && (Awaiting(s.tables, id) ==> reply.state == Completed && reply.labels == [])
  {
    hide Inv;
    InvTables(s);
    assert RowOk(id, s.tables.jobs[id]);
    var reply := DuplicateReply(s.tables, id, job);
    if !Awaiting(s.tables, id) {
      assert s.tables.jobs[id].result == Some(s.tables.jobs[id].result.value);
    }
  }
}
