/** What becomes of a label that was recorded under its dedupe key and never printed. */
module Duplicates {
  import opened Basics
  import opened Contract
  import opened Spool
  import opened PrintLoop
  import opened History
  import opened EveryRun
  import opened Reports
  import PrintLoopLimits

  /** Between p and q no purge reaches back to a record made at `at`, and the clock does not
      go back for a new one. */
  ghost predicate Kept(h: seq<Event>, p: nat, q: nat, key: string, at: real)
    requires q <= |h|
  {
    forall r :: p <= r < q ==>
      && (h[r].DedupePurged? ==> h[r].before <= at)
      && (h[r].DedupeRecorded? && h[r].dedupe == key ==> h[r].at >= at)
  }

  lemma KeyAfter(t: Tables, e: Event, key: string, at: real)
    requires key in t.dedupe && t.dedupe[key].1 >= at
    requires e.DedupePurged? ==> e.before <= at
    requires e.DedupeRecorded? && e.dedupe == key ==> e.at >= at
    ensures key in Apply(t, e).dedupe && Apply(t, e).dedupe[key].1 >= at
  {
  }

  lemma {:induction false} KeyLasts(h: seq<Event>, p: nat, q: nat, key: string, at: real)
    requires p <= q <= |h| && Kept(h, p, q, key, at)
    requires key in Replay(h[..p]).dedupe && Replay(h[..p]).dedupe[key].1 >= at
    ensures key in Replay(h[..q]).dedupe && Replay(h[..q]).dedupe[key].1 >= at
    decreases q
  {
    hide Apply;
    if p < q {
      KeyLasts(h, p, q - 1, key, at);
      assert h[..q][..q - 1] == h[..q - 1] && h[..q][q - 1] == h[q - 1];
      KeyAfter(Replay(h[..q - 1]), h[q - 1], key, at);
    }
  }

  /** Over every run, stalls and crashes included: once a key is recorded and as long as no
      purge reaches back to the record, a submission passes over every label of that key, its
      own label too if the job was sent back before it was committed. */
  lemma RecordedLabelIsSkipped(states: seq<State>, steps: seq<Step>, n: nat, p: nat, later: Env, id: JobId, i: nat)
    requires AnyRun(states, steps) && n < |states|
    requires p < |states[n].journal| && states[n].journal[p].DedupeRecorded?
    requires Kept(states[n].journal, p + 1, |states[n].journal|, states[n].journal[p].dedupe, states[n].journal[p].at)
    requires id in states[n].tables.jobs && i < |states[n].tables.jobs[id].job.labels|
    requires DedupeKey(later.cfg, states[n].tables.jobs[id].job.labels[i]) == Some(states[n].journal[p].dedupe)
    requires (id, i) !in states[n].tables.printed
    ensures Prepare(later, states[n], id).1[i] == Duplicate
  {
    hide AnyRun, Apply, Prepare, FineJournal;
    AnyRunBounded(None, states, steps, n);
    var h := states[n].journal;
    RecordedAt(h, p);
    KeyLasts(h, p + 1, |h|, h[p].dedupe, h[p].at);
    assert h[..|h|] == h;
    var m := PrintLoopLimits.PreparedEntry(later, states[n], id, i);
    assert i !in PrintedLabels(states[n].tables, id);
  }

  lemma {:induction false} KeyWasRecorded(h: seq<Event>, key: string) returns (p: nat)
    requires key in Replay(h).dedupe
    ensures p < |h| && h[p].DedupeRecorded? && h[p].dedupe == key && h[p].at == Replay(h).dedupe[key].1
    ensures forall r :: p < r < |h| && h[r].DedupePurged? ==> h[r].before <= h[p].at
  {
    var n := |h| - 1;
    if h[n].DedupeRecorded? && h[n].dedupe == key {
      p := n;
    } else {
      p := KeyWasRecorded(h[..n], key);
    }
  }

  /** And only then: a label is passed over as a duplicate only if its key was recorded and no
      purge has reached back to the record, so one that has expired is printed again. */
  lemma SkippedOnlyWhileRecorded(states: seq<State>, steps: seq<Step>, n: nat, later: Env, id: JobId, i: nat) returns (p: nat)
    requires AnyRun(states, steps) && n < |states|
    requires id in states[n].tables.jobs && i < |states[n].tables.jobs[id].job.labels|
    requires Prepare(later, states[n], id).1[i] == Duplicate
    ensures var h, spec := Prepare(later, states[n], id).0.journal, states[n].tables.jobs[id].job.labels[i];
            && !PrintLoopLimits.Keyless(spec) && p < |h| && h[p].DedupeRecorded?
            && h[p].dedupe == later.cfg.printerId + ":" + spec.dedupeKey.value
            && forall r :: p < r < |h| && h[r].DedupePurged? ==> h[r].before <= h[p].at
  {
    hide AnyRun, Apply, Prepare, FineJournal;
    AnyRunBounded(None, states, steps, n);
    var s := states[n];
    var m := PrintLoopLimits.PreparedEntry(later, s, id, i);
    PrepareReplays(later, s, id);
    p := KeyWasRecorded(Prepare(later, s, id).0.journal, DedupeKey(later.cfg, s.tables.jobs[id].job.labels[i]).value);
  }

  lemma {:induction false} PlanReplays(env: Env, s: State, job: PrintJob, already: set<nat>, n: nat)
    requires n <= |job.labels| && s.tables == Replay(s.journal)
    ensures var s1 := PlanLabels(env, s, job, already, n).0; s1.tables == Replay(s1.journal)
  {
    hide Apply;
    if n > 0 {
      PlanReplays(env, s, job, already, n - 1);
    }
  }

  lemma PrepareReplays(env: Env, s: State, id: JobId)
    requires id in s.tables.jobs && s.tables == Replay(s.journal)
    ensures var s1 := Prepare(env, s, id).0; s1.tables == Replay(s1.journal)
  {
    hide Apply, PlanLabels;
    var s1 := Emit(s, Marked(id, Printing));
    PlanReplays(env, s1, s.tables.jobs[id].job, PrintedLabels(s1.tables, id), |s.tables.jobs[id].job.labels|);
  }

  /** Taking in a well-formed delivery forgets the records older than the time to live, and no
      other. */
  lemma OldRecordsAreForgotten(env: Env, s: State, d: Delivery, fault: IntakeFault, key: string)
    requires d.job.Some? && fault != PurgeFails
    ensures var t := OnMessage(env, s, d, fault).tables;
            && (key in t.dedupe <==> key in s.tables.dedupe && env.now - s.tables.dedupe[key].1 <= env.cfg.dedupeTtl)
            && (key in t.dedupe ==> t.dedupe[key] == s.tables.dedupe[key])
  {
  }

  lemma RecordedAt(h: seq<Event>, p: nat)
    requires p < |h| && h[p].DedupeRecorded?
    ensures var t := Replay(h[..p + 1]); h[p].dedupe in t.dedupe && t.dedupe[h[p].dedupe].1 == h[p].at
  {
    assert h[..p + 1][..p] == h[..p] && h[..p + 1][p] == h[p];
  }

  /** Over every run: a label its job's latest submission passed over is reported as a
      duplicate, with nothing printed; and where no other label failed the job is reported as
      completed, without it. */
  lemma SkippedLabelIsReported(states: seq<State>, steps: seq<Step>, n: nat, p: nat, i: nat)
    requires AnyRun(states, steps) && n < |states|
    requires p < |states[n].journal| && states[n].journal[p].Finished? && states[n].journal[p].result.state != Rejected
    requires var plan := PlanOf(states[n].journal[..p], states[n].journal[p].id); i < |plan| && plan[i] == Duplicate
    ensures var r := states[n].journal[p].result;
            && i < |r.labels| && r.labels[i].state == SkippedDuplicate && r.labels[i].copiesDone == 0
            && (r.state == Completed <==> forall k :: 0 <= k < |r.labels| && k != i ==> r.labels[k].state != Failed)
  {
    hide AnyRun;
    DecisionsAreReported(states, steps, n, p);
  }

  // --- a job of recorded labels -----------------------------------------------

  /** Every label of this job is recorded under its key, and none is committed. */
  ghost predicate AllRecorded(cfg: Config, t: Tables, id: JobId) {
    && id in t.jobs && !WrongModel(t.jobs[id].job)
    && forall i :: 0 <= i < |t.jobs[id].job.labels| ==>
         && DedupeKey(cfg, t.jobs[id].job.labels[i]).Some? && DedupeKey(cfg, t.jobs[id].job.labels[i]).value in t.dedupe
         && (id, i) !in t.printed
  }

  function AllDuplicate(n: nat): (plan: seq<Decision>)
    ensures |plan| == n
  {
    seq(n, _ => Duplicate)
  }

  /** The result of a job of n labels that are all duplicates. */
  function AllSkipped(id: JobId, n: nat): JobResult {
    JobResult(id, Completed, false, false, seq(n, i requires 0 <= i < n => LabelResult(i, SkippedDuplicate, 0, NoError)))
  }

  lemma {:induction false} PlansNothing(env: Env, s: State, job: PrintJob, already: set<nat>, n: nat)
    requires n <= |job.labels|
    requires forall i :: 0 <= i < n ==>
      i !in already && DedupeKey(env.cfg, job.labels[i]).Some? && DedupeKey(env.cfg, job.labels[i]).value in s.tables.dedupe
    ensures PlanLabels(env, s, job, already, n).0 == s && PlanLabels(env, s, job, already, n).1 == AllDuplicate(n)
  {
    if n > 0 {
      PlansNothing(env, s, job, already, n - 1);
      assert Decide(env, s, job, already, n - 1) == (s, Duplicate);
    }
  }

  lemma SkippedResult(job: PrintJob)
    ensures var n := |job.labels|; var a := FreshAcc(job, AllDuplicate(n));
            Total(a.expected, n) == 0 && ResultOf(a) == AllSkipped(job.id, n)
  {
    var n := |job.labels|;
    var a := FreshAcc(job, AllDuplicate(n));
    TotalOfZeros(a.expected, n);
    forall i: nat | i < n ensures Entry(a, i) == LabelResult(i, SkippedDuplicate, 0, NoError) && !SetsPrinted(a, i) {
      assert i in a.renderStates;
    }
    assert ResultOf(a).labels == AllSkipped(job.id, n).labels;
  }

  /** A job whose labels are all recorded and not committed, say because it was sent back
      before anything was printed, is completed by its next submission in four effects, with
      no frame tried: nothing of it is ever printed. */
  lemma AllRecordedCompletesUnprinted(env: Env, s: State, id: JobId)
    requires AllRecorded(env.cfg, s.tables, id)
    ensures var n := |s.tables.jobs[id].job.labels|; var r := AllSkipped(s.tables.jobs[id].job.id, n);
            Submit(env, s, id).journal
            == s.journal + [Marked(id, Printing)] + [Planned(id, AllDuplicate(n))] + [Finished(id, r)] + [Published(r)]
  {
    hide PlanLabels, FreshAcc, ResultOf, Total, AllSkipped, AllDuplicate, DedupeKey;
    var job := s.tables.jobs[id].job;
    var s1 := Emit(s, Marked(id, Printing));
    assert PrintedLabels(s1.tables, id) == PrintedLabels(s.tables, id);
    forall i | 0 <= i < |job.labels| ensures i !in PrintedLabels(s1.tables, id) {
      assert (id, i) !in s.tables.printed;
    }
    PlansNothing(env, s1, job, PrintedLabels(s1.tables, id), |job.labels|);
    SkippedResult(job);
  }
}
