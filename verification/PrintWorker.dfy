/** The print worker, in place: each method performs the step of PrintLoop it is named for. */
module PrintWorker {
  import opened Basics
  import opened Contract
  import opened Spool
  import opened PrintLoop
  import opened PrintLoopJournal
  import SpoolDb
  import Coalescer

  lemma OneMoreDecision(plan: seq<Decision>, d: Decision)
    ensures CopiesByLabel(plan + [d]) ==
            if d.Print? then CopiesByLabel(plan)[|plan| := d.copies] else CopiesByLabel(plan)
    ensures StatesByLabel(plan + [d]) ==
            if d.Print? then StatesByLabel(plan) else StatesByLabel(plan)[|plan| := RenderState(|plan|, d)]
  {
  }

  lemma OneMoreExpanded(id: JobId, plan: seq<Decision>, d: Decision)
    ensures Expand(id, plan + [d]) ==
            Expand(id, plan) + if d.Print? then Repeat(PendingLabel(id, |plan|, d.image), d.copies) else []
  {
    assert (plan + [d])[..|plan|] == plan;
  }

  class PrintWorker {
    const cfg: Config
    /** The printer link: what the n-th attempt meets. */
    const link: nat -> Attempt
    const spool: SpoolDb.SpoolDb
    const coalescer: Coalescer.Coalescer
    var acc: map<JobId, JobAcc>
    var stalled: map<JobId, real>

    /** The whole agent as a value; `raised` says whether the current call has failed. */
    function Model(raised: bool): State
      reads this, spool, coalescer
    {
      State(spool.Tables(), spool.journal, acc, stalled, coalescer.Buffered(), raised)
    }

    ghost predicate Valid()
      reads coalescer
    {
      coalescer.cfg == cfg && coalescer.Valid()
    }

    function At(now: real): Env {
      Env(cfg, link, now)
    }

    constructor (cfg: Config, link: nat -> Attempt, spool: SpoolDb.SpoolDb, coalescer: Coalescer.Coalescer)
      requires coalescer.cfg == cfg && coalescer.Valid()
      ensures Valid() && this.cfg == cfg && this.link == link && this.spool == spool && this.coalescer == coalescer
      ensures acc == map[] && stalled == map[]
    {
      this.cfg, this.link, this.spool, this.coalescer := cfg, link, spool, coalescer;
      acc, stalled := map[], map[];
    }

    /** `_send`: connect and print one frame, retrying where the mode allows. */
    method SendFrame(copies: seq<PendingLabel>, strip: bool, ghost now: real) returns (out: Sent)
      modifies spool
      ensures (Model(false), out) == Send(At(now), old(Model(false)), copies, strip)
    {
      var attempt := 0;
      out := Sent(false, false);
      while attempt < cfg.maxAttempts
        invariant attempt <= cfg.maxAttempts && out == Sent(false, false)
        invariant SendFrom(At(now), old(Model(false)), copies, strip, 0) ==
                  SendFrom(At(now), Model(false), copies, strip, attempt)
      {
        var o := link(|spool.journal|);
        spool.Note(Tried(copies, strip, o));
        if o.ConnectFailed? {
          if o.retryable && attempt + 1 < cfg.maxAttempts {
            attempt := attempt + 1;
            continue;
          }
          break;
        }
        if o.PrintFailed? {
          if !strip && o.retryable && attempt + 1 < cfg.maxAttempts {
            attempt := attempt + 1;
            continue;
          }
          out := Sent(false, true);
          break;
        }
        out := Sent(true, true);
        break;
      }
      spool.Note(Settled(copies, strip, out.ok, out.wrote));
    }

    /** `_credit_copy`; true stands for a KeyError. */
    method CreditCopy(pl: PendingLabel) returns (raised: bool)
      modifies this, spool
      ensures Model(raised) == Credit(old(Model(false)), pl)
    {
      if pl.job !in acc {
        return true;
      }
      var a := acc[pl.job];
      a := a.(done := a.done[pl.index := Get(a.done, pl.index) + 1]);
      acc := acc[pl.job := a];
      if a.done[pl.index] >= Get(a.expected, pl.index) {
        spool.LabelPrinted(pl.job, pl.index);
      }
      raised := false;
    }

    /** `_fail_copy`, with the mark on the tape a strip leaves. */
    method FailCopy(pl: PendingLabel, strip: bool) returns (raised: bool)
      modifies this
      ensures Model(raised) == Fail(old(Model(false)), pl, strip)
    {
      if pl.job !in acc {
        return true;
      }
      var a := acc[pl.job];
      a := a.(failed := a.failed[pl.index := Get(a.failed, pl.index) + 1]);
      if strip {
        a := a.(partialTape := true);
      }
      acc := acc[pl.job := a];
      raised := false;
    }

    method SettleLabels(labels: seq<PendingLabel>, ok: bool, strip: bool) returns (raised: bool)
      modifies this, spool
      ensures Model(raised) == SettleAll(old(Model(false)), labels, ok, strip)
    {
      raised := false;
      var i := 0;
      while i < |labels|
        invariant i <= |labels| && !raised
        invariant SettleAll(old(Model(false)), labels, ok, strip) == SettleAll(Model(false), labels[i..], ok, strip)
      {
        if ok {
          raised := CreditCopy(labels[i]);
        } else {
          raised := FailCopy(labels[i], strip);
        }
        if raised {
          return;
        }
        i := i + 1;
      }
    }

    /** `_maybe_finalize` */
    method FinalizeIfComplete(id: JobId, ghost raised: bool)
      modifies this, spool
      ensures Model(raised) == MaybeFinalize(old(Model(raised)), id)
    {
      if id in acc && Complete(acc[id]) {
        FinalizeJob(id, raised);
      }
    }

    /** `_finalize`: write one line per label, classify the job, store and publish. */
    method FinalizeJob(id: JobId, ghost raised: bool)
      requires id in acc
      modifies this, spool
      ensures Model(raised) == Finalize(old(Model(raised)), id)
    {
      var a := acc[id];
      acc := acc - {id};
      var labels: seq<LabelResult> := [];
      var anyPrinted, anyFailed := false, false;
      for i := 0 to |a.job.labels|
        invariant |labels| == i && forall k :: 0 <= k < i ==> labels[k] == Entry(a, k)
        invariant anyPrinted <==> exists k: nat :: k < i && SetsPrinted(a, k)
        invariant anyFailed <==> exists k: nat :: k < i && Entry(a, k).state == Failed
      {
        ghost var printedBefore, failedBefore := anyPrinted, anyFailed;
        if i in a.renderStates {
          var line := a.renderStates[i];
          labels := labels + [line];
          if line.state == Printed {
            anyPrinted := true;
          } else if line.state == Failed {
            anyFailed := true;
          }
        } else {
          var done, expected := Get(a.done, i), Get(a.expected, i);
          if done >= expected && expected > 0 {
            labels := labels + [LabelResult(i, Printed, done, NoError)];
            anyPrinted := true;
          } else {
            anyFailed := true;
            if done > 0 {
              anyPrinted := true;
            }
            labels := labels + [LabelResult(i, Failed, done, StripAborted)];
          }
        }
        assert anyPrinted <==> printedBefore || SetsPrinted(a, i);
        assert anyFailed <==> failedBefore || Entry(a, i).state == Failed;
      }
      assert labels == ResultOf(a).labels;
      var state := if anyPrinted && anyFailed then Partial else if anyFailed then AllFailed else Completed;
      var result := JobResult(a.job.id, state, false, a.partialTape, labels);
      spool.Finish(id, result);
      spool.Note(Published(result));
    }

    method FinalizeJobs(ids: seq<JobId>)
      modifies this, spool
      ensures Model(false) == FinalizeEach(old(Model(false)), ids)
    {
      var i := 0;
      while i < |ids|
        invariant i <= |ids|
        invariant FinalizeEach(old(Model(false)), ids) == FinalizeEach(Model(false), ids[i..])
      {
        FinalizeIfComplete(ids[i], false);
        i := i + 1;
      }
    }

    /** `_stall`: the printer is away, so these jobs go back to the queue. */
    method Stall(ids: seq<JobId>, now: real)
      modifies this, spool
      ensures Model(false) == StallEach(old(Model(false)), ids, now)
    {
      var i := 0;
      while i < |ids|
        invariant i <= |ids|
        invariant StallEach(old(Model(false)), ids, now) == StallEach(Model(false), ids[i..], now)
      {
        spool.Requeue(ids[i]);
        acc := acc - {ids[i]};
        stalled := stalled[ids[i] := now];
        i := i + 1;
      }
    }

    /** `_print_strip`; true stands for a KeyError. */
    method PrintBatch(labels: seq<PendingLabel>, now: real) returns (raised: bool)
      modifies this, spool
      ensures Model(raised) == PrintStrip(At(now), old(Model(false)), labels)
    {
      var out := SendFrame(labels, true, now);
      if !out.ok && !out.wrote {
        Stall(JobIds(labels), now);
        return false;
      }
      raised := SettleLabels(labels, out.ok, true);
      if !raised {
        FinalizeJobs(JobIds(labels));
      }
    }

    /** `_flush` */
    method FlushStrip(now: real) returns (raised: bool)
      requires Valid()
      modifies this, spool, coalescer
      ensures Valid() && coalescer.AcceptsWidth(cfg.tapeWidth)
      ensures Model(raised) == Flush(At(now), old(Model(false)))
    {
      raised := false;
      var batch := coalescer.Flush();
      if batch.Some? {
        raised := PrintBatch(batch.value.labels, now);
      }
    }

    /** `_run_discrete`: one frame per copy, each settled before the next. */
    method RunDiscreteJob(id: JobId, queued: seq<PendingLabel>, now: real) returns (raised: bool)
      modifies this, spool
      ensures Model(raised) == RunDiscrete(At(now), old(Model(false)), id, queued)
    {
      raised := false;
      var i := 0;
      while i < |queued|
        invariant i <= |queued| && !raised
        invariant RunDiscrete(At(now), old(Model(false)), id, queued) == RunDiscrete(At(now), Model(false), id, queued[i..])
      {
        var out := SendFrame([queued[i]], false, now);
        if !out.ok && !out.wrote {
          Stall([id], now);
          return false;
        }
        if out.ok {
          raised := CreditCopy(queued[i]);
        } else {
          raised := FailCopy(queued[i], false);
        }
        if raised {
          return;
        }
        i := i + 1;
      }
      FinalizeIfComplete(id, false);
    }

    /** The strip route's loop: join each copy to the strip, flushing when it must. */
    method AddCopies(queued: seq<PendingLabel>, now: real) returns (raised: bool)
      requires Valid()
      modifies this, spool, coalescer
      ensures Valid()
      ensures Model(raised) == AddAll(At(now), old(Model(false)), queued)
    {
      raised := false;
      var i := 0;
      while i < |queued|
        invariant i <= |queued| && !raised && Valid()
        invariant AddAll(At(now), old(Model(false)), queued) == AddAll(At(now), Model(false), queued[i..])
      {
        raised := AddCopy(queued[i], now);
        if raised {
          return;
        }
        i := i + 1;
      }
    }

    method AddCopy(pl: PendingLabel, now: real) returns (raised: bool)
      requires Valid()
      modifies this, spool, coalescer
      ensures Valid()
      ensures Model(raised) == AddOne(At(now), old(Model(false)), pl)
    {
      raised := false;
      if !coalescer.AcceptsWidth(cfg.tapeWidth) {
        raised := FlushStrip(now);
        if raised {
          return;
        }
      }
      var ok := coalescer.Add(pl, cfg.tapeWidth, now);
      var full := coalescer.Full();
      if full {
        raised := FlushStrip(now);
      }
    }

    /** Decide on every label: committed already, a recent duplicate, unrenderable, or to print. */
    method PlanJob(job: PrintJob, already: set<nat>, now: real)
        returns (a: JobAcc, queued: seq<PendingLabel>, plan: seq<Decision>)
      modifies spool
      ensures (Model(false), plan) == PlanLabels(At(now), old(Model(false)), job, already, |job.labels|)
      ensures a == FreshAcc(job, plan) && queued == Expand(job.id, plan)
    {
      a := JobAcc(job, map[], map[], map[], map[], false);
      queued, plan := [], [];
      for i := 0 to |job.labels|
        invariant |plan| == i
        invariant (Model(false), plan) == PlanLabels(At(now), old(Model(false)), job, already, i)
        invariant a == FreshAcc(job, plan) && queued == Expand(job.id, plan)
      {
        var spec := job.labels[i];
        var key := DedupeKey(cfg, spec);
        var recent := false;
        if i !in already && key.Some? {
          recent := spool.IsRecentDedupe(key.value);
        }
        var d := AlreadyPrinted;
        if i in already {
          a := a.(renderStates := a.renderStates[i := LabelResult(i, Printed, 0, NoError)]);
        } else if recent {
          a := a.(renderStates := a.renderStates[i := LabelResult(i, SkippedDuplicate, 0, NoError)]);
          d := Duplicate;
        } else {
          var rendered := cfg.render(spec);
          if rendered.None? {
            a := a.(renderStates := a.renderStates[i := LabelResult(i, Failed, 0, RenderError)]);
            d := Unrenderable;
          } else {
            a := a.(expected := a.expected[i := spec.copies]);
            queued := queued + Repeat(PendingLabel(job.id, i, rendered.value), spec.copies);
            if key.Some? {
              spool.RecordDedupe(key.value, job.id, now);
            }
            d := Print(spec.copies, rendered.value);
          }
        }
        OneMoreDecision(plan, d);
        OneMoreExpanded(job.id, plan, d);
        plan := plan + [d];
      }
    }

    /** The strip route of `submit`: buffer the copies, flush if asked to, finalise if that was
        all. */
    method BufferJob(id: JobId, queued: seq<PendingLabel>, flush: bool, now: real) returns (raised: bool)
      requires Valid()
      modifies this, spool, coalescer
      ensures Valid()
      ensures Model(raised) == BufferCopies(At(now), old(Model(false)), id, queued, flush)
    {
      hide AddAll, Flush, Complete;
      raised := AddCopies(queued, now);
      if !raised && flush {
        raised := FlushStrip(now);
      }
      if !raised {
        FinalizeIfComplete(id, false);
      }
    }

    /** `submit`: plan a spooled job, then buffer its copies or print them one by one. */
    method SubmitJob(id: JobId, now: real) returns (raised: bool)
      requires Valid() && (id in spool.jobs ==> spool.jobs[id].job.id == id)
      modifies this, spool, coalescer
      ensures Valid()
      ensures Model(raised) == Submit(At(now), old(Model(false)), id)
    {
      var loaded := spool.Load(id);
      if loaded.None? {
        return true;
      }
      var job := loaded.value;
      raised := false;
      if WrongModel(job) {
        spool.Finish(id, Rejection(job));
        spool.Note(Published(Rejection(job)));
        return;
      }
      spool.Mark(id, Printing);
      var already := spool.LabelsPrinted(id);
      var a, queued, plan := PlanJob(job, already, now);
      spool.Note(Planned(id, plan));
      acc := acc[id := a];
      if Total(a.expected, |job.labels|) == 0 {
        FinalizeJob(id, false);
      } else if IsDiscrete(cfg, job) {
        raised := FlushStrip(now);
        if !raised {
          raised := RunDiscreteJob(id, queued, now);
        }
      } else {
        raised := BufferJob(id, queued, job.flush || AsStrip(cfg, job), now);
      }
    }

    /** `recover`: on boot, submit everything left queued; a KeyError does not stop the rest. */
    method RecoverJobs(now: real)
      requires Valid() && RowsNamed(spool.Tables())
      modifies this, spool, coalescer
      ensures Valid() && RowsNamed(spool.Tables())
      ensures Model(false) == Recover(At(now), old(Model(false)))
    {
      var ids := spool.QueuedJobs();
      var i := 0;
      while i < |ids|
        invariant i <= |ids| && Valid() && RowsNamed(spool.Tables())
        invariant Recover(At(now), old(Model(false))) == SubmitEach(At(now), Model(false), ids[i..])
      {
        SubmitKeepsNames(At(now), Model(false), ids[i]);
        var raised := SubmitJob(ids[i], now);
        i := i + 1;
      }
    }

    /** `retry_queued`: submit again, not too often, what an absent printer sent back. */
    method RetryJobs(now: real)
      requires Valid() && RowsNamed(spool.Tables())
      modifies this, spool, coalescer
      ensures Valid() && RowsNamed(spool.Tables())
      ensures Model(false) == RetryQueued(At(now), old(Model(false)))
    {
      var ids := spool.QueuedJobs();
      var i := 0;
      while i < |ids|
        invariant i <= |ids| && Valid() && RowsNamed(spool.Tables())
        invariant RetryQueued(At(now), old(Model(false))) == RetryEach(At(now), Model(false), ids[i..])
      {
        if ids[i] !in acc {
          var last := if ids[i] in stalled then stalled[ids[i]] else 0.0;
          if now - last >= cfg.retryInterval {
            stalled := stalled[ids[i] := now];
            SubmitKeepsNames(At(now), Model(false), ids[i]);
            var raised := SubmitJob(ids[i], now);
          }
        }
        i := i + 1;
      }
    }

    /** `tick`: flush a strip that has waited long enough, then retry. */
    method OnTick(now: real) returns (raised: bool)
      requires Valid() && RowsNamed(spool.Tables())
      modifies this, spool, coalescer
      ensures Valid()
      ensures Model(raised) == Tick(At(now), old(Model(false)))
    {
      raised := false;
      if IdleExpired(cfg, coalescer.Buffered(), now) {
        FlushMoves(At(now), Model(false));
        raised := FlushStrip(now);
      }
      if !raised {
        RetryJobs(now);
      }
    }
  }
}
