/** The print loop as functions on its state: what each call of the worker does. The
    class in PrintWorker.dfy performs these steps in place. */
module PrintLoop {
  import opened Basics
  import opened Contract
  import opened Spool

  /** The pending strip: buffered copies, their tape width, and when the last one came. */
  datatype Buffer = Buffer(pending: seq<PendingLabel>, width: Option<real>, lastAdd: Option<real>)

  const EMPTY_BUFFER: Buffer := Buffer([], None, None)

  /** Running tally of one job in flight. */
  datatype JobAcc = JobAcc(
    job: PrintJob,
    expected: map<nat, nat>,
    done: map<nat, nat>,
    failed: map<nat, nat>,
    renderStates: map<nat, LabelResult>,
    partialTape: bool)

  /** The agent: durable tables and journal, then what a crash erases. `raised` says a
      KeyError escaped the current call. */
  datatype State = State(
    tables: Tables,
    journal: seq<Event>,
    acc: map<JobId, JobAcc>,
    stalled: map<JobId, real>,
    buffer: Buffer,
    raised: bool)

  datatype Sent = Sent(ok: bool, wrote: bool)

  function Emit(s: State, e: Event): State {
    s.(journal := s.journal + [e], tables := Apply(s.tables, e))
  }

  // --- the coalescer --------------------------------------------------------

  function PixelSum(pending: seq<PendingLabel>): nat {
    if pending == [] then 0
    else PixelSum(pending[..|pending| - 1]) + pending[|pending| - 1].image.width
  }

  function LengthMm(cfg: Config, pending: seq<PendingLabel>): real {
    if pending == [] then 0.0
    else PixelSum(pending) as real / PX_PER_MM + cfg.separator * (|pending| + 1) as real
  }

  predicate IsFull(cfg: Config, pending: seq<PendingLabel>) {
    |pending| >= cfg.maxLabels || LengthMm(cfg, pending) >= cfg.maxLength
  }

  predicate Accepts(b: Buffer, width: real) {
    b.width == None || b.width == Some(width)
  }

  function AddTo(b: Buffer, pl: PendingLabel, width: real, now: real): Buffer {
    Buffer(b.pending + [pl], Some(width), Some(now))
  }

  predicate IdleExpired(cfg: Config, b: Buffer, now: real) {
    b.lastAdd.Some? && b.pending != [] && now - b.lastAdd.value >= cfg.maxWait
  }

  /** `Batch.job_ids`: each job once, in order of first appearance. */
  function JobIds(labels: seq<PendingLabel>): (ids: seq<JobId>)
    ensures forall id :: id in ids <==> exists c :: c in labels && c.job == id
    ensures forall i, k :: 0 <= i < k < |ids| ==> ids[i] != ids[k]
  {
    if labels == [] then []
    else
      var n := |labels| - 1;
      var ids := JobIds(labels[..n]);
      assert labels == labels[..n] + [labels[n]];
      if labels[n].job in ids then ids else ids + [labels[n].job]
  }

  // --- the retrying send ----------------------------------------------------

  function SendFrom(env: Env, s: State, copies: seq<PendingLabel>, strip: bool, attempt: nat): (State, Sent)
    decreases env.cfg.maxAttempts - attempt
  {
    if attempt >= env.cfg.maxAttempts then (s, Sent(false, false))
    else
      var o := env.link(|s.journal|);
      var s1 := Emit(s, Tried(copies, strip, o));
      match o
      case ConnectFailed(retryable) =>
        if retryable && attempt + 1 < env.cfg.maxAttempts then SendFrom(env, s1, copies, strip, attempt + 1)
        else (s1, Sent(false, false))
      case PrintFailed(retryable) =>
        if strip then (s1, Sent(false, true))
        else if retryable && attempt + 1 < env.cfg.maxAttempts then SendFrom(env, s1, copies, strip, attempt + 1)
        else (s1, Sent(false, true))
      case FramePrinted => (s1, Sent(true, true))
  }

  /** `_send`: connect and print one frame, retrying where the mode allows. */
  function Send(env: Env, s: State, copies: seq<PendingLabel>, strip: bool): (State, Sent) {
    var (s1, out) := SendFrom(env, s, copies, strip, 0);
    (Emit(s1, Settled(copies, strip, out.ok, out.wrote)), out)
  }

  // --- result accounting ----------------------------------------------------

  function Expected(a: JobAcc, i: nat): nat { Get(a.expected, i) }

  predicate Complete(a: JobAcc) {
    var n := |a.job.labels|;
    Total(a.done, n) + Total(a.failed, n) >= Total(a.expected, n)
  }

  /** `_credit_copy` */
  function Credit(s: State, pl: PendingLabel): State {
    if pl.job !in s.acc then s.(raised := true)
    else
      var a := s.acc[pl.job].(done := Bump(s.acc[pl.job].done, pl.index));
      var s1 := s.(acc := s.acc[pl.job := a]);
      if Get(a.done, pl.index) >= Get(a.expected, pl.index) then Emit(s1, Committed(pl.job, pl.index)) else s1
  }

  /** `_fail_copy`, which for a strip also marks the tape as partly consumed. */
  function Fail(s: State, pl: PendingLabel, strip: bool): State {
    if pl.job !in s.acc then s.(raised := true)
    else
      var a := s.acc[pl.job];
      s.(acc := s.acc[pl.job := a.(failed := Bump(a.failed, pl.index), partialTape := a.partialTape || strip)])
  }

  function SettleOne(s: State, pl: PendingLabel, ok: bool, strip: bool): State {
    if ok then Credit(s, pl) else Fail(s, pl, strip)
  }

  function SettleAll(s: State, labels: seq<PendingLabel>, ok: bool, strip: bool): State
    decreases |labels|
  {
    if labels == [] || s.raised then s
    else SettleAll(SettleOne(s, labels[0], ok, strip), labels[1..], ok, strip)
  }

  /** One line of the result, as `_finalize` writes it. */
  function Entry(a: JobAcc, i: nat): LabelResult {
    if i in a.renderStates then a.renderStates[i]
    else if Get(a.done, i) >= Get(a.expected, i) && Get(a.expected, i) > 0 then
      LabelResult(i, Printed, Get(a.done, i), NoError)
    else LabelResult(i, Failed, Get(a.done, i), StripAborted)
  }

  /** Does label i set `any_printed`? A failed line does when some copies came out. */
  predicate SetsPrinted(a: JobAcc, i: nat) {
    if i in a.renderStates then a.renderStates[i].state == Printed else Get(a.done, i) > 0
  }

  function ResultOf(a: JobAcc): JobResult {
    var n := |a.job.labels|;
    var anyPrinted := exists i: nat :: i < n && SetsPrinted(a, i);
    var anyFailed := exists i: nat :: i < n && Entry(a, i).state == Failed;
    JobResult(
      a.job.id,
      if anyPrinted && anyFailed then Partial else if anyFailed then AllFailed else Completed,
      false, a.partialTape, seq(n, i requires 0 <= i => Entry(a, i)))
  }

  /** Store a terminal result, then publish it. */
  function Conclude(s: State, id: JobId, result: JobResult): State {
    Emit(Emit(s, Finished(id, result)), Published(result))
  }

  function Finalize(s: State, id: JobId): State {
    if id !in s.acc then s.(raised := true)
    else
      Conclude(s.(acc := s.acc - {id}), id, ResultOf(s.acc[id]))
  }

  function MaybeFinalize(s: State, id: JobId): State {
    if id in s.acc && Complete(s.acc[id]) then Finalize(s, id) else s
  }

  function FinalizeEach(s: State, ids: seq<JobId>): State
    decreases |ids|
  {
    if ids == [] then s else FinalizeEach(MaybeFinalize(s, ids[0]), ids[1..])
  }

  // --- flushing and printing ------------------------------------------------

  function StallOne(s: State, id: JobId, now: real): State {
    Emit(s, Marked(id, Queued)).(acc := s.acc - {id}, stalled := s.stalled[id := now])
  }

  /** `_stall`: the printer is away, so the jobs go back to the queue. */
  function StallEach(s: State, ids: seq<JobId>, now: real): State
    decreases |ids|
  {
    if ids == [] then s
    else StallEach(StallOne(s, ids[0], now), ids[1..], now)
  }

  function PrintStrip(env: Env, s: State, labels: seq<PendingLabel>): State {
    var (s1, out) := Send(env, s, labels, true);
    if !out.ok && !out.wrote then StallEach(s1, JobIds(labels), env.now)
    else
      var s2 := SettleAll(s1, labels, out.ok, true);
      if s2.raised then s2 else FinalizeEach(s2, JobIds(labels))
  }

  function Flush(env: Env, s: State): State {
    if s.buffer.pending == [] then s
    else PrintStrip(env, s.(buffer := EMPTY_BUFFER), s.buffer.pending)
  }

  function RunDiscrete(env: Env, s: State, id: JobId, todo: seq<PendingLabel>): State
    decreases |todo|
  {
    if s.raised then s
    else if todo == [] then MaybeFinalize(s, id)
    else
      var (s1, out) := Send(env, s, [todo[0]], false);
      if !out.ok && !out.wrote then StallEach(s1, [id], env.now)
      else RunDiscrete(env, SettleOne(s1, todo[0], out.ok, false), id, todo[1..])
  }

  // --- taking a job on ------------------------------------------------------

  function DedupeKey(cfg: Config, spec: LabelSpec): Option<string> {
    if spec.dedupeKey.Some? && spec.dedupeKey.value != "" then Some(cfg.printerId + ":" + spec.dedupeKey.value)
    else None
  }

  function Decide(env: Env, s: State, job: PrintJob, already: set<nat>, i: nat): (State, Decision)
    requires i < |job.labels|
  {
    var spec := job.labels[i];
    var key := DedupeKey(env.cfg, spec);
    if i in already then (s, AlreadyPrinted)
    else if key.Some? && key.value in s.tables.dedupe then (s, Duplicate)
    else
      match env.cfg.render(spec)
      case None => (s, Unrenderable)
      case Some(image) =>
        (if key.Some? then Emit(s, DedupeRecorded(key.value, job.id, env.now)) else s, Print(spec.copies, image))
  }

  /** The decisions on the first n labels, in order. */
  function PlanLabels(env: Env, s: State, job: PrintJob, already: set<nat>, n: nat): (r: (State, seq<Decision>))
    requires n <= |job.labels|
    ensures |r.1| == n
  {
    if n == 0 then (s, [])
    else
      var (s1, plan) := PlanLabels(env, s, job, already, n - 1);
      var (s2, d) := Decide(env, s1, job, already, n - 1);
      (s2, plan + [d])
  }

  function Repeat(pl: PendingLabel, n: nat): (r: seq<PendingLabel>)
    ensures |r| == n && forall c :: c in r ==> c == pl
  {
    seq(n, _ => pl)
  }

  /** The copies a plan asks for: label by label, each as often as it has copies. */
  function Expand(id: JobId, plan: seq<Decision>): seq<PendingLabel> {
    if plan == [] then []
    else
      var i := |plan| - 1;
      Expand(id, plan[..i]) +
      (if plan[i].Print? then Repeat(PendingLabel(id, i, plan[i].image), plan[i].copies) else [])
  }

  function RenderState(i: nat, d: Decision): LabelResult {
    match d
    case AlreadyPrinted => LabelResult(i, Printed, 0, NoError)
    case Duplicate => LabelResult(i, SkippedDuplicate, 0, NoError)
    case _ => LabelResult(i, Failed, 0, RenderError)
  }

  function CopiesByLabel(plan: seq<Decision>): map<nat, nat> {
    map i: nat | 0 <= i < |plan| && plan[i].Print? :: plan[i].copies
  }

  function StatesByLabel(plan: seq<Decision>): map<nat, LabelResult> {
    map i: nat | 0 <= i < |plan| && !plan[i].Print? :: RenderState(i, plan[i])
  }

  function FreshAcc(job: PrintJob, plan: seq<Decision>): JobAcc {
    JobAcc(job, CopiesByLabel(plan), map[], map[], StatesByLabel(plan), false)
  }

  function AddOne(env: Env, s: State, pl: PendingLabel): State {
    var width := env.cfg.tapeWidth;
    var s1 := if Accepts(s.buffer, width) then s else Flush(env, s);
    if s1.raised then s1
    else
      var s2 := s1.(buffer := AddTo(s1.buffer, pl, width, env.now));
      if IsFull(env.cfg, s2.buffer.pending) then Flush(env, s2) else s2
  }

  function AddAll(env: Env, s: State, todo: seq<PendingLabel>): State
    decreases |todo|
  {
    if todo == [] || s.raised then s else AddAll(env, AddOne(env, s, todo[0]), todo[1..])
  }

  predicate WrongModel(job: PrintJob) {
    job.requireModel.Some? && job.requireModel.value != "" && job.requireModel.value != MODEL
  }

  /** A discrete job on continuous tape that is printed as one strip of its own. */
  predicate AsStrip(cfg: Config, job: PrintJob) {
    cfg.tapeKind == Continuous && job.batchMode == Discrete && cfg.discreteAsStrip
  }

  predicate IsDiscrete(cfg: Config, job: PrintJob) {
    (job.batchMode == Discrete && !AsStrip(cfg, job)) || cfg.tapeKind == Gap
  }

  function Rejection(job: PrintJob): JobResult {
    JobResult(job.id, Rejected, false, false, [])
  }

  /** `submit` up to the point where printing starts: the job marked, planned and tallied. */
  function Prepare(env: Env, s: State, id: JobId): (State, seq<Decision>)
    requires id in s.tables.jobs
  {
    var job := s.tables.jobs[id].job;
    var s1 := Emit(s, Marked(id, Printing));
    var (s2, plan) := PlanLabels(env, s1, job, PrintedLabels(s1.tables, id), |job.labels|);
    var s3 := Emit(s2, Planned(id, plan));
    (s3.(acc := s3.acc[id := FreshAcc(job, plan)]), plan)
  }

  /** The strip route of `submit`. */
  function BufferCopies(env: Env, s: State, id: JobId, todo: seq<PendingLabel>, flush: bool): State {
    var s1 := AddAll(env, s, todo);
    var s2 := if flush && !s1.raised then Flush(env, s1) else s1;
    if s2.raised then s2 else MaybeFinalize(s2, id)
  }

  function Submit(env: Env, s: State, id: JobId): State {
    if id !in s.tables.jobs then s.(raised := true)
    else
      var job := s.tables.jobs[id].job;
      if WrongModel(job) then Conclude(s, id, Rejection(job))
      else
        var (s1, plan) := Prepare(env, s, id);
        var todo := Expand(id, plan);
        if Total(s1.acc[id].expected, |job.labels|) == 0 then Finalize(s1, id)
        else if IsDiscrete(env.cfg, job) then RunDiscrete(env, Flush(env, s1), id, todo)
        else BufferCopies(env, s1, id, todo, job.flush || AsStrip(env.cfg, job))
  }

  /** `recover`: a KeyError from one job does not stop the next. */
  function SubmitEach(env: Env, s: State, ids: seq<JobId>): State
    decreases |ids|
  {
    if ids == [] then s
    else SubmitEach(env, Submit(env, s, ids[0]).(raised := false), ids[1..])
  }

  function Recover(env: Env, s: State): State {
    SubmitEach(env, s, QueuedIds(s.tables))
  }

  /** Is a queued job due for another attempt? */
  predicate Due(env: Env, s: State, id: JobId) {
    id !in s.acc && env.now - (if id in s.stalled then s.stalled[id] else 0.0) >= env.cfg.retryInterval
  }

  function RetryEach(env: Env, s: State, ids: seq<JobId>): State
    decreases |ids|
  {
    if ids == [] then s
    else
      var id := ids[0];
      var s1 :=
        if Due(env, s, id) then Submit(env, s.(stalled := s.stalled[id := env.now]), id).(raised := false)
        else s;
      RetryEach(env, s1, ids[1..])
  }

  function RetryQueued(env: Env, s: State): State {
    RetryEach(env, s, QueuedIds(s.tables))
  }

  function Tick(env: Env, s: State): State {
    var s1 := if IdleExpired(env.cfg, s.buffer, env.now) then Flush(env, s) else s;
    if s1.raised then s1 else RetryQueued(env, s1)
  }

  // --- intake ---------------------------------------------------------------

  /** Where the spool may raise for reasons of its own while taking a delivery in. */
  datatype IntakeFault = NoFault | PurgeFails | InsertFails

  /** The reply to a duplicate: the stored result, or a blank one if there is none yet. */
  function DuplicateReply(t: Tables, id: JobId, job: PrintJob): JobResult
    requires id in t.jobs
  {
    var result := t.jobs[id].result;
    (if result.Some? then result.value else JobResult(job.id, Completed, false, false, [])).(duplicate := true)
  }

  const MALFORMED: JobResult := JobResult("unknown", Rejected, false, false, [])

  /** `_on_message` on the jobs topic: commit first, acknowledge after. Besides `fault`,
      the insert raises by itself when the job id is taken under another key. */
  function OnMessage(env: Env, s: State, d: Delivery, fault: IntakeFault): State {
    match d.job
    case None => Emit(Emit(s, Published(MALFORMED)), Acked(d))
    case Some(job) =>
      if fault == PurgeFails then s
      else
        var s1 := Emit(s, DedupePurged(env.now - env.cfg.dedupeTtl));
        var row := FindKey(s1.tables, s1.tables.order, job.key);
        if fault == InsertFails then s1
        else if row.Some? then
          Emit(Emit(s1, Published(DuplicateReply(s1.tables, row.value, job))), Acked(d))
        else if job.id in s1.tables.jobs then s1
        else Emit(Emit(s1, Inserted(job)), Acked(d))
  }
}
