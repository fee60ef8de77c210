/** The spool as the agent drives it: tables updated in place, one effect at a time. */
module SpoolDb {
  import opened Basics
  import opened Contract
  import opened Spool

  /** What `try_insert` did: spooled the job, found its key, or raised on a reused job id. */
  datatype InsertResult = New | AlreadySpooled(cached: Option<JobResult>) | IntegrityError

  class SpoolDb {
    var jobs: map<JobId, Row>
    var order: seq<JobId>
    var dedupe: map<string, (JobId, real)>
    var printed: set<(JobId, nat)>
    /** Every effect so far, in order: the model's own record, shared by spool and printer. */
    var journal: seq<Event>

    function Tables(): Tables
      reads this
    {
      Spool.Tables(jobs, order, dedupe, printed)
    }

    constructor ()
      ensures Tables() == NO_TABLES && journal == []
    {
      jobs, order, dedupe, printed, journal := map[], [], map[], {}, [];
    }

    /** Record an effect that is not a write to the tables. */
    method Note(e: Event)
      requires Apply(Tables(), e) == Tables()
      modifies this
      ensures Tables() == Apply(old(Tables()), e) && journal == old(journal) + [e]
    {
      journal := journal + [e];
    }

    method TryInsert(job: PrintJob) returns (r: InsertResult)
      modifies this
      ensures r == New ==> Tables() == Apply(old(Tables()), Inserted(job)) && journal == old(journal) + [Inserted(job)]
      ensures r != New ==> Tables() == old(Tables()) && journal == old(journal)
      ensures var row := FindKey(old(Tables()), old(order), job.key);
              && (r.AlreadySpooled? <==> row.Some?)
              && (row.Some? ==> r.cached == old(jobs)[row.value].result)
              && (r == IntegrityError <==> row.None? && job.id in old(jobs))
    {
      var i := |order|;
      assert order[..i] == order;
      while i > 0
        invariant 0 <= i <= |order|
        invariant FindKey(Tables(), order, job.key) == FindKey(Tables(), order[..i], job.key)
      {
        i := i - 1;
        assert order[..i + 1][..i] == order[..i];
        if order[i] in jobs && jobs[order[i]].job.key == job.key {
          return AlreadySpooled(jobs[order[i]].result);
        }
      }
      if job.id in jobs {
        return IntegrityError;
      }
      jobs := jobs[job.id := Row(job, Queued, None)];
      order := order + [job.id];
      journal := journal + [Inserted(job)];
      r := New;
    }

    /** Job ids awaiting print, oldest first. */
    method QueuedJobs() returns (ids: seq<JobId>)
      ensures ids == QueuedIds(Tables())
    {
      ids := [];
      for i := 0 to |order|
        invariant ids == QueuedIn(Tables(), order[..i])
      {
        assert order[..i + 1][..i] == order[..i];
        if order[i] in jobs && (jobs[order[i]].state == Queued || jobs[order[i]].state == Printing) {
          ids := ids + [order[i]];
        }
      }
      assert order[..|order|] == order;
    }

    /** `load`: None stands for the KeyError. */
    method Load(id: JobId) returns (job: Option<PrintJob>)
      ensures job.Some? <==> id in jobs
      ensures job.Some? ==> job.value == jobs[id].job
    {
      job := if id in jobs then Some(jobs[id].job) else None;
    }

    method Mark(id: JobId, state: RowState)
      modifies this
      ensures Tables() == Apply(old(Tables()), Marked(id, state)) && journal == old(journal) + [Marked(id, state)]
    {
      if id in jobs {
        jobs := jobs[id := jobs[id].(state := state)];
      }
      journal := journal + [Marked(id, state)];
    }

    method Requeue(id: JobId)
      modifies this
      ensures Tables() == Apply(old(Tables()), Marked(id, Queued)) && journal == old(journal) + [Marked(id, Queued)]
    {
      Mark(id, Queued);
    }

    method Finish(id: JobId, result: JobResult)
      modifies this
      ensures Tables() == Apply(old(Tables()), Finished(id, result)) && journal == old(journal) + [Finished(id, result)]
    {
      if id in jobs {
        jobs := jobs[id := jobs[id].(state := Terminal(result.state), result := Some(result))];
      }
      journal := journal + [Finished(id, result)];
    }

    method IsRecentDedupe(key: string) returns (known: bool)
      ensures known <==> key in Tables().dedupe
    {
      known := key in dedupe;
    }

    method RecordDedupe(key: string, id: JobId, now: real)
      modifies this
      ensures Tables() == Apply(old(Tables()), DedupeRecorded(key, id, now))
      ensures journal == old(journal) + [DedupeRecorded(key, id, now)]
    {
      dedupe := dedupe[key := (id, now)];
      journal := journal + [DedupeRecorded(key, id, now)];
    }

    method PurgeDedupe(before: real)
      modifies this
      ensures Tables() == Apply(old(Tables()), DedupePurged(before)) && journal == old(journal) + [DedupePurged(before)]
    {
      dedupe := map k | k in dedupe && dedupe[k].1 >= before :: dedupe[k];
      journal := journal + [DedupePurged(before)];
    }

    method LabelPrinted(id: JobId, index: nat)
      modifies this
      ensures Tables() == Apply(old(Tables()), Committed(id, index)) && journal == old(journal) + [Committed(id, index)]
    {
      printed := printed + {(id, index)};
      journal := journal + [Committed(id, index)];
    }

    method LabelsPrinted(id: JobId) returns (indices: set<nat>)
      ensures indices == PrintedLabels(Tables(), id)
    {
      indices := set p | p in printed && p.0 == id :: p.1;
    }
  }
}
