/** The wire contract between label producers and the agent, as far as printing depends on it. */
module Contract {
  import opened Arithmetic
  import opened Basics

  type JobId = string

  /** Device pixels per millimetre, 203dpi / 25.4 as an exact fraction. */
  const PX_PER_MM: real := 1015.0 / 127.0

  /** `mm_to_px` */
  function MmToPx(mm: real): int {
    Round(mm * PX_PER_MM)
  }

  const MODEL: string := "phomemo-d30"

  /** A greyscale picture, row by row; 0 is ink and 255 is blank tape. */
  datatype Image = Image(width: nat, height: nat, rows: seq<seq<byte>>) {
    predicate Valid() {
      && |rows| == height
      && forall y :: 0 <= y < height ==> |rows[y]| == width
    }
  }

  /** One physical label. `content` stands for whatever the renderer reads. */
  datatype LabelSpec = LabelSpec(content: string, copies: nat, dedupeKey: Option<string>)

  datatype BatchMode = Strip | Discrete

  datatype TapeKind = Continuous | Gap

  datatype PrintJob = PrintJob(
    id: JobId,
    key: string,
    requireModel: Option<string>,
    batchMode: BatchMode,
    flush: bool,
    labels: seq<LabelSpec>)

  /** What schema validation guarantees of every job that reaches the spool. */
  predicate ValidJob(job: PrintJob) {
    && |job.labels| >= 1
    && forall i :: 0 <= i < |job.labels| ==> job.labels[i].copies >= 1
  }

  datatype LabelState = Printed | Failed | SkippedDuplicate

  datatype LabelError = NoError | RenderError | StripAborted

  datatype LabelResult = LabelResult(index: nat, state: LabelState, copiesDone: nat, error: LabelError)

  datatype JobState = Completed | Partial | AllFailed | Rejected

  datatype JobResult = JobResult(
    jobId: JobId,
    state: JobState,
    duplicate: bool,
    partialTape: bool,
    labels: seq<LabelResult>)

  /** One rendered copy waiting for tape, tagged with the label it belongs to. */
  datatype PendingLabel = PendingLabel(job: JobId, index: nat, image: Image)

  /** What one pass through the send loop met: connecting failed, the frame was begun
      and broke off, or the frame went out. `retryable` is the raised error's own flag. */
  datatype Attempt = ConnectFailed(retryable: bool) | PrintFailed(retryable: bool) | FramePrinted

  /** The agent's configuration, reduced to what the print loop reads. `render` is
      None where rendering raises a RenderError. */
  datatype Config = Config(
    printerId: string,
    tapeWidth: real,
    tapeKind: TapeKind,
    discreteAsStrip: bool,
    maxWait: real,
    maxLength: real,
    maxLabels: nat,
    separator: real,
    maxAttempts: nat,
    retryInterval: real,
    dedupeTtl: real,
    render: LabelSpec -> Option<Image>)

  /** Everything outside the agent that one call meets: its configuration, the printer
      link (the outcome of the n-th attempt, arbitrary) and the clock. */
  datatype Env = Env(cfg: Config, link: nat -> Attempt, now: real)
}
