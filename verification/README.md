# labelfab, as a verified model

labelfab takes label jobs from an MQTT broker, commits them to a durable spool, renders them,
joins them into strips and prints them on a small thermal printer over a link that may fail at
any moment. This project models its four hardest parts in Dafny and proves what they promise.
Every claim below is a proof over all inputs; nothing here executes the agent.

**The print loop.** `PrintLoop` gives each call of the worker as a function on its state: the
spool tables, the jobs in flight with their tallies, and the pending strip. Every effect that
outlives the process (a row written, a message acknowledged, a frame tried) also goes into a
journal, and the tables are what the journal replays to; so a crash is any prefix of the effects
of a call with the memory wiped. The printer link is an arbitrary function from attempts to
outcomes. `PrintLoopInvariant` and `PrintLoopSteps` prove what every call keeps,
`EveryRun`, `Frames`, `Reports` and `TapeOrder` what holds over every run of calls and crashes
whatever the calls are, `Balance` and `PrintLoopRuns` what holds over every run that keeps to
their hypotheses, and `PrintLoopLimits`, `Duplicates` and `StaleRetry` exactly where the promises
stop; `Failures` and `LostAndSkipped` show small runs in which they do.
`SpoolDb`, `Coalescer`, `PrintWorker` and `MqttSource` are the classes of the agent with their
fields, loops and updates in place; each method is proved to do what the function says, so all
results carry over to it. `StripFits` follows the runs down to the pixels of the strips they
print.

**The status parser.** `StatusParser` is a class over a byte buffer, refined to one pure
function of the whole stream; `Feedback` keeps what the agent knows of the printer on top of it.

**Strips and the wire.** `Raster` joins labels on a mutable canvas, `DeviceRaster` thresholds,
turns and packs, `Wire` frames, sends in chunks and decodes a capture.

**Layout and text.** `PixelBudget` and `BoxTree` share pixels and place a tree of boxes,
`Shortfall` says who gives way first and `BoxLimits` exactly when the leaves of a box stay in it.
`TextWrap` and `TextFit` wrap and size text for an arbitrary font, and `FewestLines` and
`BrokenWords` say why the lines end where they do. `ScaledQr` paints a code with fractional
modules. Lengths are exact rationals, with `PX_PER_MM` = 1015/127 and the rounding of Python
spelled out (`Arithmetic`).

## What the run theorems assume

The theorems of `EveryRun`, `Frames`, `Reports`, `Duplicates` and `StripFits` assume nothing of the
calls: any call may be made in any state, with any arguments and any link, and the run goes on with
whatever a failed call left. `TapeOrder` says of the same runs what holds unless a job was sent
back or a submission failed part-way. `Balance.CopiesConserved` asks that submitted jobs are not
in flight and not stalled inside their own buffering loop, and nothing of their rows. The theorems
of `PrintLoopRuns` tie tallies, commits and results to the journal, and with them that a finished
job stays finished; `PrintLoopRuns.Allowed` states what they need and the code does not check:

- `submit` is called only on a job in `queued()` that is not in flight.
- No flush inside the buffering loop of `submit` (worker.py:218-224) stalls the job while copies
  of it are still to come. `PrintLoopLimits.ConservedForEveryLinkIff` says for which jobs this
  holds whatever the link does.
- In `retry_queued` each job is still waiting at its turn; `StaleRetry.RetryKeepsForEveryLinkIff`
  says when, before the call.
- Jobs have passed schema validation: at least one label, at least one copy each.

## Where the code and its documentation part

The model follows the code. The lemmas named are the theorems behind each point.

- A size trigger that fires before the last copy of a job, with the printer away, stalls the job
  while its loop goes on adding copies of it, and copies are lost track of (worker.py:218-226;
  `EvenForEveryLinkIff`, `ConservedForEveryLinkIff`, `TwentyFiveCopiesAreTooMany`).
- `retry_queued` walks a list that a flush inside an earlier turn can make stale, and then submits
  a finished job again (worker.py:273-283; `RetryKeepsForEveryLinkIff`, `StaleJobIsPlannedAgain`,
  `AFinishedJobWaitsInTheStrip`). `submit` does not look at the row (`SubmitKeepsIffWaiting`). No
  copy is lost by it (`CopiesConserved`, `ThatTickIsOrderly`); what it costs is that
  finished jobs stay finished.
- A dedupe key is recorded before its label is printed (worker.py:181-196;
  `KeyIsRecordedByPlanning`). If the job is sent back before the label is committed and submitted
  again before a purge reaches the record, the label is passed over as a duplicate of itself and
  reported so (`AskedForAgainIff`, `RecordedLabelIsSkipped`, `SkippedLabelIsReported`); a job of
  such labels is stored as completed without a frame (`AllRecordedCompletesUnprinted`,
  `RecordedLabelIsNeverPrinted`).
- "Never auto-retried" holds for the jobs that end with their failed strip, and for no other: a job
  with copies still to come can be sent back and planned again, the lost label included
  (worker.py:6-9; `BegunStripFinishesExactlyItsLast`, `BrokenStripCanPrintAgainIff`,
  `FailedStripIsPrintedAgain`).
- A duplicate of a job that is still waiting is answered "completed" (source_mqtt.py:177-181;
  `DuplicateReplyIsTrueIffFinished`).
- A delivery that reuses a job id under a new key is not acknowledged (spool.py:43-44,
  source_mqtt.py:170-175; `AcknowledgedExactlyWhen`).
- Boxes are said to be drawn at exactly the size granted; a deficit may leave up to children - 1
  pixels too many (`DeficitIsShared`, `RoundingShowsIff`, `RoundingPushesALeafOut`). A box
  too short for its gaps keeps its leaves inside only if nothing shows (`LeavesAlwaysInsideIff`,
  `NeighbourIsClearIff`, `NegativeSizesGrowALeaf`).
- "From flex children first" holds up to rounding only: a child without flex may give up pixels
  that elastic ones keep (layout.py:55-57; `ElasticGiveFirst`, `InelasticIsKeptIff`,
  `InelasticGivesWay`).
- "Natural size, not exceeding the available area" fails for a box whose padding and gaps do not
  fit (layout.py:41-42; `MeasureFitsIff`, `PaddingOutgrowsTheOffer`).
- "The largest point size whose wrap fits" is never `min_pt` itself, and a range of at most 0.2pt
  is not searched at all; so words may be broken that fit whole at `min_pt` (`SearchFindsIff`,
  `OneSizeIsNeverTried`, `WordsStayWholeIff`, `WordIsBrokenForNothing`).
- A decoder that searches for frame markers also finds them inside raster data
  (`DecodesToOneFrameIff`, `MarkerStripIsMisread`).
- "Callers never have to reassemble" fails for a payload of 01 01 cut out as a slice of its own
  (feedback.py:41-61; `OnlyTheStreamMatters`, `PayloadTakenForAnAck`).

## Model

| member | source | states |
|---|---|---|
| Balance.CopiesConserved | src/labelfab/agent/worker.py:159-283 | over every run that submits only jobs not in flight, whatever their rows say, and stalls none inside its own buffering loop: for every job in flight and every label, done + failed + copies pending in the strip equals expected; the strip holds copies of jobs in flight only; every job in flight has a pending copy, and its row says printing |
| Balance.RunIsOrderly | src/labelfab/agent/worker.py:159-298 | every run that keeps to the hypotheses of `PrintLoopRuns` is such a run |
| Balance.EvenForEveryLinkIff | src/labelfab/agent/worker.py:218-226 | for a strip job not in flight, `submit` conserves copies whatever the link does if and only if no size trigger fires while copies of the job are still to come |
| PrintLoopRuns.CommittedNeverReprinted | src/labelfab/agent/worker.py:174-180 | once (job, index) is in `printed_labels`, no later frame of the run contains a copy of it, through any number of crashes, reboots, recoveries and stalls |
| PrintLoopRuns.DiscreteCrashLosesOneLabel | src/labelfab/agent/worker.py:380-400 | wherever a process printing a job discretely may die: a label with a good copy on tape, none lost, and no commit yet, is the one label in flight |
| PrintLoopRuns.ResultsTellTheTruth | src/labelfab/agent/worker.py:499-545 | every stored result agrees with the tape, line by line: one entry per label in order; "printed" exactly when no copy was lost, `copies_done` the copies in whole frames; `partial_tape_consumed` exactly when a strip with a copy of the job broke off; the job state follows from the entries |
| PrintLoopRuns.CommitsTellTheTruth | src/labelfab/agent/worker.py:483-488 | a label is committed only when all its copies are in frames that went out whole |
| PrintLoopRuns.FinishedIsTerminal | src/labelfab/agent/spool.py:136-160 | after a job is finished no later frame carries a copy of it, and it is not planned, re-marked or finished again |
| PrintLoopRuns.SubmissionsAreSeenThrough | src/labelfab/agent/worker.py:494-497 | a submission either still has a copy pending in the strip or has been finished, sent back to the queue, or cut off by a crash: none is forgotten |
| TapeOrder.TapeOrderIsSubmissionOrder | src/labelfab/agent/worker.py:176-226 | over every run, however the agent is called: unless since the process started a job was sent back to the queue or a submission failed part-way, copies handed to `_send` followed by the pending strip equal the submitted jobs' copies in order, strips and discrete jobs mixed: nothing dropped, duplicated, reordered or interleaved |
| PrintLoopRuns.NoSubmissionFails | src/labelfab/agent/worker.py:176-226 | in a run that keeps to the hypotheses no submission fails, so there the order holds unless a job was sent back |
| PrintLoopRuns.RunKeeps | src/labelfab/agent/worker.py:159-234 | every state of every run, crashes included, satisfies the invariant that ties tallies, pending strip, tables and journal together |
| EveryRun.AnyRunBounded | src/labelfab/agent/worker.py:218-234 | every state of every run, however the agent is called: the tables are what the journal replays to, each effect was admissible where it stands, no send is left half done, and under one configuration the pending strip is of rendered labels and not full |
| EveryRun.AcknowledgedIsDurable | src/labelfab/agent/source_mqtt.py:156-184 | over every interleaving of calls, failures, crashes and redeliveries, with no hypothesis on the calls: every acknowledged well-formed delivery has a durable row for its key, and that row has a stored result or is in `queued()` |
| EveryRun.NewAtMostOnce | src/labelfab/agent/spool.py:111-134 | over the same runs: each idempotency key, and each job id, is taken in as new at most once ever |
| EveryRun.RecoverTakesUpEveryUnfinishedJob | src/labelfab/agent/worker.py:292-298 | `recover` plans or refuses every job that has no stored result, in every state such a run can reach, whatever becomes of the other jobs |
| EveryRun.JournalOnlyGrows | src/labelfab/agent/spool.py:90-104 | no call, however it fails, and no crash takes back a durable effect |
| EveryRun.StripsAreTriedOnce | src/labelfab/agent/worker.py:418-460 | over the same runs: a strip send begins at most one frame under any outcome sequence and reports wrote=False only if it began none; a send reports ok exactly when one of its frames went out; every attempt of a send carries the same copies |
| EveryRun.StripsStayBounded | src/labelfab/agent/worker.py:218-226 | over such runs under one configuration: the pending strip is never left full, and every strip tried is of rendered labels, at most `max_labels`, and was not full before its last |
| Spool.QueueIsOldestFirst | src/labelfab/agent/spool.py:136-141 | of two jobs in the queue the one inserted earlier comes first |
| Frames.StripsKeepToOneWidth | src/labelfab/agent/worker.py:218-222 | a label joins the pending labels only at their tape width; otherwise it starts a strip of its own |
| Frames.SendTriesExactly | src/labelfab/agent/worker.py:418-460 | a send makes n attempts at the same copies, all but the last retriable, n at most `max_attempts`; it stops at the first that is not retriable or at the last allowed, and reports what that one came to |
| Frames.SendRetriesUntilPrinted | src/labelfab/agent/worker.py:436-458 | if the first k outcomes can be retried (a failed connect, for a discrete send also a broken print) and the next prints, with k below `max_attempts`, the send succeeds with exactly k + 1 attempts |
| Frames.SendsPersist | src/labelfab/agent/worker.py:418-460 | over every run under one configuration, with no hypothesis on the calls: a settled send that failed made all its attempts or ended in one that could not be retried; all before it could |
| Frames.FramesTakeTheirRoute | src/labelfab/agent/worker.py:202-226 | over the same runs: a frame is a strip exactly if the jobs of its copies are printed in strips; a job is printed separately, one copy a frame, exactly if the tape is die-cut or the job is discrete with `discrete_as_strip` off |
| Frames.NoStripOnGapTape | src/labelfab/agent/worker.py:202-216 | over the same runs on die-cut tape: every frame is of one copy, none a strip, and nothing is ever pending |
| Frames.NothingWaitsBehindIt | src/labelfab/agent/worker.py:202-226 | after submitting a job with `flush`, a discrete job or any job on die-cut tape the pending strip is empty |
| Frames.RefusedExactlyForAnotherModel | src/labelfab/agent/worker.py:159-164 | over the same runs: a job is stored as rejected exactly if it asks for a model other than this one, and then it is never planned |
| PrintLoopInvariant.SendKeeps | src/labelfab/agent/worker.py:418-460 | a send changes only the journal and the tables, extends every tally by what went out, and reports truthfully |
| PrintLoopInvariant.SettledKeeps | src/labelfab/agent/worker.py:367-374 | crediting or failing the copies of a begun frame moves them from "out" to done or failed in every tally, and completes no job that had no copy in it |
| PrintLoopInvariant.CompleteWhenNoneOut | src/labelfab/agent/worker.py:52-74 | a tally is complete exactly when none of the job's copies is still out |
| PrintLoopInvariant.FinalizeKeeps | src/labelfab/agent/worker.py:499-545 | finalising a settled job stores a truthful result, removes that job alone, and leaves every other tally exact |
| PrintLoopInvariant.StallEachKeeps | src/labelfab/agent/worker.py:402-408 | stalling removes exactly the named jobs from flight and requeues their rows |
| PrintLoopInvariant.PrintStripKeeps | src/labelfab/agent/worker.py:353-378 | printing a strip, whatever the link does, leaves all remaining tallies exact, provided no job that stalls has copies elsewhere |
| PrintLoopInvariant.FlushKeeps | src/labelfab/agent/worker.py:348-351 | a flush keeps the invariant and empties the strip unless it stalls a job with copies still to come; nobody but the strip's jobs leaves |
| PrintLoopInvariant.BufferCopiesKeeps | src/labelfab/agent/worker.py:218-227 | the buffering loop keeps the invariant as long as no flush inside it stalls the job being buffered |
| PrintLoopSteps.PrepareKeeps | src/labelfab/agent/worker.py:166-203 | planning a queued job leaves all its copies still to come, with a fresh tally, and touches no other job |
| PrintLoopSteps.RunDiscreteKeeps | src/labelfab/agent/worker.py:380-400 | the discrete loop keeps the invariant from any position in the copy list, stalls included |
| PrintLoopSteps.SubmitKeeps | src/labelfab/agent/worker.py:159-227 | `submit` of a queued job not in flight keeps the invariant for every link outcome that does not stall it inside its own buffering loop |
| PrintLoopSteps.SubmitBystander | src/labelfab/agent/worker.py:159-227 | submitting one job leaves every other job that is not in flight as it was |
| PrintLoopSteps.RecoverKeeps | src/labelfab/agent/worker.py:292-298 | after a boot every job `recover` submits is submittable at its turn, so `recover` keeps the invariant |
| PrintLoopSteps.RetryEachKeeps | src/labelfab/agent/worker.py:265-283 | retrying keeps the invariant where each job is still queued at its turn |
| PrintLoopSteps.TickKeeps | src/labelfab/agent/worker.py:229-234 | an idle flush followed by a retry keeps the invariant |
| PrintLoopSteps.OnMessageKeeps | src/labelfab/agent/source_mqtt.py:156-184 | taking in a delivery keeps the invariant, with a spool fault at any point |
| PrintLoopSteps.RebootKeeps | src/labelfab/agent/spool.py:91-104 | what any sound prefix of the journal leaves in the tables is a valid state to boot from |
| PrintLoopJournal.SubmitMoves | src/labelfab/agent/worker.py:197-227 | after planning, `submit` adds exactly the copies it planned, in order, to what is handed over or pending, unless a job stalls |
| PrintLoopJournal.FlushMoves | src/labelfab/agent/worker.py:348-378 | a flush hands the pending strip over and changes nothing else in that order |
| PrintLoopJournal.RunDiscreteMoves | src/labelfab/agent/worker.py:380-400 | a discrete run hands its copies over one by one, in order |
| PrintLoopLimits.ConservedForEveryLinkIff | src/labelfab/agent/worker.py:218-226 | for a strip job, `submit` keeps its accounts whatever the link does if and only if no size trigger fires while copies of the job are still to come |
| PrintLoopLimits.SubmitKeepsIffWaiting | src/labelfab/agent/worker.py:159-173 | `submit` does not look at the row's state: for a job not in flight it keeps the invariant if and only if the row is still queued or printing |
| PrintLoopLimits.BegunStripFinishesExactlyItsLast | src/labelfab/agent/worker.py:353-378 | when `_print_strip` returns after a begun frame, the jobs of the strip that are finished are exactly those with no copy still to come; if the frame broke off, with `partial_tape_consumed` and no failed label committed, while the others stay in flight with their copies counted as failed |
| PrintLoopLimits.BrokenStripCanPrintAgainIff | src/labelfab/agent/worker.py:6-9 | after a strip that broke off, there is a link on which the next flush leaves the job queued and its lost label planned again if and only if the job has copies still to come |
| PrintLoopLimits.LostLabelIsAskedForAgain | src/labelfab/agent/worker.py:402-408 | where the printer is away at that flush, the lost label is planned afresh with all its copies |
| PrintLoopLimits.KeyIsRecordedByPlanning | src/labelfab/agent/worker.py:181-196 | a label with a dedupe key is recorded under it when its job is planned, before anything is printed |
| PrintLoopLimits.AskedForAgainIff | src/labelfab/agent/worker.py:174-196 | in any later state that keeps the job and the keys its planning recorded, an uncommitted label is asked for again if and only if its dedupe key is missing or empty; otherwise it is passed over as a duplicate |
| Duplicates.RecordedLabelIsSkipped | src/labelfab/agent/worker.py:181-185 | over every run, stalls and crashes included: as long as no purge reaches back to a record, every uncommitted label of that key is planned as a duplicate, the recorded label itself too |
| Duplicates.SkippedOnlyWhileRecorded | src/labelfab/agent/worker.py:181-185 | over every run, the converse: a label is planned as a duplicate only if its key, which is not empty, was recorded and no purge since reached back to the record |
| Duplicates.OldRecordsAreForgotten | src/labelfab/agent/spool.py:172-192 | taking in a delivery forgets exactly the records older than the time to live |
| Duplicates.SkippedLabelIsReported | src/labelfab/agent/worker.py:499-545 | over every run: a label planned as a duplicate ends as `skipped_duplicate` with no copies in the stored result, and the job is "completed" exactly when no other label failed |
| Reports.DecisionsAreReported | src/labelfab/agent/worker.py:499-545 | over every run: a stored result has one line for each decision of the latest plan, those not to print reported as decided, and is "completed" exactly when no line failed |
| Duplicates.AllRecordedCompletesUnprinted | src/labelfab/agent/worker.py:159-196 | a job whose labels are all recorded and not committed is stored as completed by its next submission in four effects, with no frame tried |
| PrintLoopLimits.PlannedKeysOutlastTheCall | src/labelfab/agent/worker.py:181-227 | the keys recorded by planning are still there when the submission returns or fails |
| StaleRetry.RetryKeepsForEveryLinkIff | src/labelfab/agent/worker.py:265-283 | `retry_queued` keeps the invariant (exact accounts, and finished jobs stay finished) on every link that stalls no waiting job inside its own buffering loop if and only if the list it reads stays fresh, a condition on the state before the call: behind the first due job whose submission flushes the strip stands no job in flight that has gone unstamped for the retry interval |
| StaleRetry.RetryKeepsIffEachStillWaiting | src/labelfab/agent/worker.py:273-283 | for a given link: `retry_queued` keeps the invariant if and only if each job is still waiting at its turn |
| StaleRetry.RetryWithNothingInFlight | src/labelfab/agent/worker.py:265-283 | with nothing in flight, `retry_queued` is safe |
| StaleRetry.SubmitDrifts | src/labelfab/agent/worker.py:159-227 | whatever the link does, submitting one job leaves every other as it was, or takes it out of flight finished and unstamped or back in the queue; a job that was away stays exactly as it was |
| StaleRetry.FlushingTurnFinishes | src/labelfab/agent/worker.py:218-226 | with the printer there, a submission that flushes the strip finishes every other job in flight, with no failed label committed; on a link that breaks frames off, with `partial_tape_consumed` |
| StaleRetry.StaleJobIsPlannedAgain | src/labelfab/agent/worker.py:273-283 | where the list is stale and the printer there, some job in flight is finished in an older job's turn and planned again in its own: every label its result reports as failed, all copies |
| Failures.TwentyFiveCopiesAreTooMany | src/labelfab/agent/worker.py:218-226 | an instance: on a fresh spool one label of 25 copies, with 24 to a strip, and a link on which `submit` loses track of copies |
| Failures.AFinishedJobWaitsInTheStrip | src/labelfab/agent/worker.py:273-283 | an instance: a run of four calls with default settings, and a tick that finishes a job as failed with its tape partly consumed and then puts its lost copy in the strip again |
| Failures.ThatTickIsOrderly | src/labelfab/agent/worker.py:273-283 | that tick loses no copy: its submissions are of jobs not in flight |
| LostAndSkipped.FailedStripIsPrintedAgain | src/labelfab/agent/worker.py:6-9 | an instance: 24 of a label's 25 copies go out in a strip that breaks off, the next flush finds the printer away, and the job is planned with all 25 again |
| LostAndSkipped.RecordedLabelIsNeverPrinted | src/labelfab/agent/worker.py:181-196 | an instance: a job with one keyed label submitted while the printer is away is stored as completed by its retry, with no frame tried |
| SpoolDb.SpoolDb.TryInsert | src/labelfab/agent/spool.py:111-134 | NEW exactly when neither key nor id is taken, and only then is a row written; a known key returns the stored result, if there is one, and writes nothing; an id under another key raises |
| SpoolDb.SpoolDb.QueuedJobs | src/labelfab/agent/spool.py:136-141 | the ids in state queued or printing, oldest first |
| SpoolDb.SpoolDb.Finish | src/labelfab/agent/spool.py:143-207 | the row gets its terminal state and its result together and nothing else changes; the remaining one-statement operations (`Load`, `Mark`, `Requeue`, `IsRecentDedupe`, `RecordDedupe`, `PurgeDedupe`, `LabelPrinted`, `LabelsPrinted`) likewise state the whole new tables or the exact answer |
| Coalescer.Coalescer.StripLength | src/labelfab/agent/coalescer.py:81-87 | the pixel loop computes the specified length in millimetres, separators before each label and at the end |
| Coalescer.Coalescer.Full | src/labelfab/agent/coalescer.py:96-98 | full exactly when the count or the length limit is reached |
| Coalescer.Coalescer.Add | src/labelfab/agent/coalescer.py:89-94 | appends the label, or refuses it and changes nothing on another tape width |
| Coalescer.Coalescer.Flush | src/labelfab/agent/coalescer.py:111-119 | hands out all pending labels and resets, or None when empty |
| PrintWorker.PrintWorker.SendFrame | src/labelfab/agent/worker.py:418-460 | the retry loop refines the specified send: same journal, same outcome |
| PrintWorker.PrintWorker.CreditCopy | src/labelfab/agent/worker.py:483-488 | whole new state: one more done copy, and a commit when all are |
| PrintWorker.PrintWorker.FailCopy | src/labelfab/agent/worker.py:490-492 | whole new state: one more failed copy |
| PrintWorker.PrintWorker.SettleLabels | src/labelfab/agent/worker.py:367-374 | the settling loop refines the specified one, stopping at a KeyError |
| PrintWorker.PrintWorker.FinalizeIfComplete | src/labelfab/agent/worker.py:494-497 | finalises exactly complete jobs |
| PrintWorker.PrintWorker.FinalizeJob | src/labelfab/agent/worker.py:499-545 | the loop over labels with its two flags writes exactly the specified result |
| PrintWorker.PrintWorker.Stall | src/labelfab/agent/worker.py:402-408 | whole new state after a stall |
| PrintWorker.PrintWorker.PrintBatch | src/labelfab/agent/worker.py:353-378 | refines the specified strip print |
| PrintWorker.PrintWorker.FlushStrip | src/labelfab/agent/worker.py:348-351 | refines the specified flush; afterwards the strip accepts the loaded width |
| PrintWorker.PrintWorker.RunDiscreteJob | src/labelfab/agent/worker.py:380-400 | the loop with its early return refines the specified discrete run |
| PrintWorker.PrintWorker.PlanJob | src/labelfab/agent/worker.py:174-196 | the loop over labels, which interleaves dedupe checks and records, produces exactly the specified plan, tally and copy list |
| PrintWorker.PrintWorker.AddCopies | src/labelfab/agent/worker.py:218-224 | the buffering loop, with its flushes, refines the specified one |
| PrintWorker.PrintWorker.SubmitJob | src/labelfab/agent/worker.py:159-227 | every branch of `submit` refines the specified one |
| PrintWorker.PrintWorker.RecoverJobs | src/labelfab/agent/worker.py:292-298 | refines the specified recovery; a KeyError does not stop the rest |
| PrintWorker.PrintWorker.RetryJobs | src/labelfab/agent/worker.py:265-283 | refines the specified retry over the list read at the start |
| PrintWorker.PrintWorker.OnTick | src/labelfab/agent/worker.py:229-234 | refines the specified tick |
| MqttSource.MqttSource.OnJob | src/labelfab/agent/source_mqtt.py:156-184 | insert, acknowledge, enqueue in this order; the id is enqueued exactly when the delivery was taken in as new |
| MqttSource.AcknowledgedExactlyWhen | src/labelfab/agent/source_mqtt.py:156-184 | in every state any run can reach, a delivery is acknowledged if and only if it is malformed, its key is spooled, or it could be inserted; one that reuses a job id under a new key is not |
| MqttSource.RedeliveryIsIdempotent | src/labelfab/agent/spool.py:111-134 | in every state any run can reach, redelivering a known key changes no row and enqueues nothing |
| MqttSource.DuplicateReplyIsTrueIffFinished | src/labelfab/agent/source_mqtt.py:177-181 | the reply to a duplicate is the stored result if and only if the job is not waiting any more; a waiting job is answered "completed" |
| StatusParser.ChunkingDoesNotMatter | src/labelfab/device/responses.py:216-228 | any way of cutting a byte stream gives the same frames, unknown tags, dropped noise and held-back tail as feeding it whole |
| StatusParser.ParseConcat | src/labelfab/device/responses.py:216-288 | reading a + b is reading a, then b behind the tail a left |
| StatusParser.FramingRoundTrip | src/labelfab/device/responses.py:234-288 | well-formed frames with prefix-free noise between them parse back to exactly those frames |
| StatusParser.SlicedRoundTrip | src/labelfab/device/responses.py:216-288 | the same for every way of slicing the stream |
| StatusParser.RepliesRead | src/labelfab/device/responses.py:81-119 | an instance: nine replies of a printer back to back, of seven lengths, are told apart |
| StatusParser.BytesAreAccountedFor | src/labelfab/device/responses.py:234-288 | input length equals frame bytes + 2 per unknown tag + dropped + held back; every frame has its table length; the tail waits for more bytes |
| StatusParser.TailIsBounded | src/labelfab/device/responses.py:216-288 | the held-back tail is empty or a proper beginning of one well-formed frame: at most 257 bytes |
| StatusParser.HeadIsStable | src/labelfab/device/responses.py:234-288 | what can be read at the head of the buffer reads the same whatever follows |
| StatusParser.StatusParser.Feed | src/labelfab/device/responses.py:216-288 | terminates; outside strict mode the buffer and the counts stay a function of the whole stream, and the frames returned are exactly the new ones; in strict mode an unknown tag raises and stays at the head of the buffer |
| StatusParser.DeviceState.Ingest | src/labelfab/device/responses.py:310-317 | keeps `values` the last-value view and `prints_completed` the count over all frames so far |
| StatusParser.LastValueWins | src/labelfab/device/responses.py:310-317 | the value of a tag is the payload of the last frame of it that had one; an empty payload counts for the consumable id only |
| StatusParser.ValuesWereTold | src/labelfab/device/responses.py:310-317 | and a tag has a value only if such a frame came |
| StatusParser.PrintsAreCounted | src/labelfab/device/responses.py:310-317 | the completion count is the number of frames of tag 0x0F |
| Feedback.DeviceFeedback.Ingest | src/labelfab/device/feedback.py:51-67 | frames, last values, completion count and acknowledgements stay functions of the slices delivered; a bare `01 01` is counted and not parsed |
| Feedback.OnlyTheStreamMatters | src/labelfab/device/feedback.py:51-67 | where acknowledgements come between frames, all of these depend on the stream alone, however it is cut |
| Feedback.PayloadTakenForAnAck | src/labelfab/device/feedback.py:58-61 | an instance where they do not: a payload of 01 01 delivered as a slice of its own |
| Raster.ConcatStrip | src/labelfab/render/raster.py:117-157 | the moving-cursor loop draws exactly the specified strip, or raises on no labels or unequal heights |
| Raster.LabelInStrip | src/labelfab/render/raster.py:151-157 | slicing the strip at a label's offset gives that label back untouched |
| Raster.SeparatorsInStrip | src/labelfab/render/raster.py:145-157 | between labels, and around them with bookends, lies a separator: white, but for one black column in its middle if it is three pixels or wider |
| DeviceRaster.OrientationRoundTrip | src/labelfab/render/raster.py:199-203 | for all four rotations, mirrored or not, the decoder's inverse turn undoes the encoder's |
| DeviceRaster.RowsRoundTrip | src/labelfab/render/raster.py:205-207 | packing rows eight pixels a byte, most significant bit first, is undone by unpacking |
| DeviceRaster.DeviceRoundTrip | src/labelfab/render/raster.py:181-207 | decoding a device raster gives exactly the thresholded landscape picture |
| DeviceRaster.PixelBurnsIff | src/labelfab/render/raster.py:160-207 | at every rotation, mirrored or not: a bit of the device raster is set if and only if 255 minus the grey of the landscape pixel it stands for reaches the threshold |
| DeviceRaster.DecodedPixelIff | src/labelfab/render/raster.py:173-207 | decoded again, a pixel is black if and only if grey + threshold <= 255, and else white |
| Wire.SessionBytes | src/labelfab/device/protocol.py:319-336 | the bytes of a connect, batched or not: nine queries in order, then tape type and density |
| Wire.BytesOnContinuousTape | src/labelfab/device/protocol.py:380-418 | an instance, byte by byte: the preamble of 300 lines of twelve bytes on continuous tape, and the feed |
| Wire.BytesOnGapTape | src/labelfab/device/protocol.py:380-418 | an instance, byte by byte: the preamble of three copies on die-cut tape, with left margin and copy count |
| Wire.RefusedExactlyWhen | src/labelfab/device/protocol.py:354-418 | a raster is refused exactly for no copies, more than 255, more than one on continuous tape, a width or height outside 1 to 65535, or a left margin over 255 on die-cut tape |
| Wire.MarginFillsTheHead | src/labelfab/device/protocol.py:366-416 | on die-cut tape left margin and raster width make up the head, and a raster at least as wide has no margin |
| Wire.PhomemoD30.Connect | src/labelfab/device/d30.py:149-161 | writes exactly the session setup |
| Wire.PhomemoD30.PrintRaster | src/labelfab/device/d30.py:195-247 | for any chunk size the chunk loop writes preamble, data and feed, each byte once and in order; on an error nothing; the error is the height error exactly for more than 65535 lines |
| Wire.AwaitCompletion | src/labelfab/device/d30.py:272-282 | returns at the first look that shows a new completion, after that many polls; otherwise having slept exactly the budget |
| Wire.FindFrames | src/labelfab/device/decode.py:36-42 | all marker offsets, in order, overlapping ones included |
| Wire.DecodeFrames | src/labelfab/device/decode.py:45-80 | decodes every marker in order, or fails with the first frame's error |
| Wire.FrameDecodes | src/labelfab/device/decode.py:45-80 | a printed frame anywhere in a capture decodes to the raster it was made of |
| Wire.BrokenOffFrameFails | src/labelfab/device/decode.py:53-67 | a capture that breaks off inside a frame fails for its header within eight bytes and for its body after, whatever the rotation |
| Wire.DecodesToOneFrameIff | src/labelfab/device/decode.py:36-80 | the capture of one strip decodes to one frame if and only if the marker occurs nowhere but at its header |
| Wire.MarkerStripIsPrinted | src/labelfab/device/d30.py:195-247 | an instance: on any tape from 32 pixels up, a strip of one label, separators and all, with a column that spells the marker is printed |
| Wire.MarkerStripIsMisread | src/labelfab/device/decode.py:36-80 | and its capture never decodes to one frame |
| Wire.EndToEnd | src/labelfab/device/d30.py:195-247 | labels joined, thresholded, turned, packed, framed and sent come back from the capture: slicing at a label's offset gives exactly its thresholded pixels |
| StripFits.StripIsShort | src/labelfab/agent/coalescer.py:81-98 | the pixel length of a strip is below PX_PER_MM * (max_length + 2 * separator) + its last label + (n + 1) / 2, with separators in millimetres there and in rounded pixels here |
| StripFits.EveryStripFitsOneFrame | src/labelfab/device/d30.py:213-217 | over every run under one configuration, with no hypothesis on the calls: if the renderer makes pictures of one height and at most a given length, every strip tried can be joined at that height (so `concat_strip` does not raise), and where the bound is at most 65535 none is too high for `print_raster` |
| StripFits.LabelsAreShort | src/labelfab/render/raster.py:67-83 | a label made by `compose` is 1 to 1598 pixels long, sized to content or fixed |
| StripFits.LengthsAreClamped | src/labelfab/render/raster.py:67-83 | a measured label is its content clamped to 64 and 1598 pixels, a fixed one its length to the nearest pixel |
| StripFits.PortraitLabelsAreShortIff | src/labelfab/render/raster.py:86-114 | a vertical label is refused exactly where its fixed length is shorter than its content; otherwise it is at most 1598 pixels long if fixed, and if measured exactly where its content is |
| StripFits.LongStripsKeepWithinTheBound | src/labelfab/contract/models.py:25-27 | with at most 200 such labels a strip, lengths up to 7987mm keep within the bound |
| PixelBudget.Distribute | src/labelfab/render/layout.py:48-88 | the passes over the list compute the specified sizes |
| PixelBudget.SurplusIsShared | src/labelfab/render/layout.py:64-74 | a surplus with any flex is shared out to the last pixel and shrinks no child |
| PixelBudget.SharesAreProportional | src/labelfab/render/layout.py:67-73 | each share is proportional to flex to the pixel below; what rounding leaves, fewer pixels than children, goes to the first of the greediest |
| PixelBudget.OnlyFlexGrows | src/labelfab/render/layout.py:67-73 | a child without flex does not grow |
| PixelBudget.FittingIsKept | src/labelfab/render/layout.py:59-66 | an exact fit, or a surplus nobody wants, changes nothing |
| PixelBudget.DeficitIsShared | src/labelfab/render/layout.py:76-88 | a deficit grows no child and leaves no negative size; for budget >= 0 it ends with budget <= sum <= budget + n - 1, and for budget <= 0 with nothing |
| PixelBudget.DeficitEndsAtBudgetIff | src/labelfab/render/layout.py:76-88 | for budget >= 0 a deficit ends exactly at the budget if and only if the elastic children gave it all up to the pixel, or what is still over comes off every child in whole pixels |
| Shortfall.ElasticGiveFirst | src/labelfab/render/layout.py:76-88 | a deficit comes off elastic children first: where it is at least all they have nothing is left of them, and each other child is scaled to its proportion of the budget, to the pixel above; where they have more they are scaled in proportion and the others keep their size, but for fewer pixels than there are elastic children |
| Shortfall.InelasticIsKeptIff | src/labelfab/render/layout.py:53-88 | where the elastic children have more than the deficit, a child without flex keeps its size if and only if its part of what rounding kept of theirs is less than a pixel |
| Shortfall.InelasticGivesWay | src/labelfab/render/layout.py:53-88 | an instance: five elastic children of a pixel each keep theirs, and one of 100 pixels without flex gives up three |
| Arithmetic.TruncateIsTowardsZero | src/labelfab/render/layout.py:81-87 | `int(a / b)`: the rest is smaller than b and has the sign of a |
| PixelBudget.RoundingKeepsAPixel | src/labelfab/render/layout.py:83-88 | the upper bound is met: two one-pixel children on a budget of one |
| BoxTree.DrawBox | src/labelfab/render/layout.py:132-166 | the cursor loop draws every leaf in the specified rectangle, in source order |
| BoxTree.MeasureBox | src/labelfab/render/layout.py:113-130 | the running totals compute the specified natural size |
| BoxTree.MeasureIsSumAndLargest | src/labelfab/render/layout.py:113-130 | with each child measured in what its elders leave: along the box its children's sizes, the gaps and the padding; across it the largest of its children's and the padding |
| BoxTree.MeasureFitsIff | src/labelfab/render/layout.py:113-130 | where each child keeps within what its elder siblings leave it, boxes included, the box keeps within its own offer if and only if its padding and gaps leave room |
| BoxTree.PaddingOutgrowsTheOffer | src/labelfab/render/layout.py:113-130 | an instance: a padded box around a leaf that keeps within its offer measures its padding when offered nothing |
| BoxTree.SiblingsAreApart | src/labelfab/render/layout.py:147-166 | drawn siblings are in source order and at least `gap_px` apart, whatever sizes they report |
| BoxTree.ChildIsAligned | src/labelfab/render/layout.py:152-158 | start, end, centre and stretch put a child where they say, to the pixel |
| BoxTree.RoundingShowsIff | src/labelfab/render/layout.py:76-88 | the children of a box come out longer than the space they share if and only if it runs a deficit on a budget of at least zero that comes off neither the elastic ones to the pixel nor all of them in whole pixels |
| BoxTree.LeavesStayInside | src/labelfab/render/layout.py:132-166 | by induction over the tree, where no drawable reports a negative size: every non-empty leaf lies in the root box, stretched along the main axis of each ancestor by exactly the pixels its children come out too long, so exactly inside where none do |
| BoxTree.RoomyIsSane | src/labelfab/render/layout.py:132-145 | no drawable reports a negative size where every drawn box has room for its gaps |
| BoxLimits.NegativeSizesGrowALeaf | src/labelfab/render/layout.py:132-166 | an instance: in a box too short for its gaps a stretched picture with flex is drawn outside it, wider than the box |
| BoxTree.LeavesDoNotOverlap | src/labelfab/render/layout.py:132-166 | no two leaves of the tree overlap, less the same rounding, where every drawn child with a younger sibling keeps its leaves to itself: the one drawn first ends left of or above the other |
| BoxTree.SaneIsApart | src/labelfab/render/layout.py:132-166 | which holds where no drawable reports a negative size |
| BoxLimits.LeavesAlwaysInsideIff | src/labelfab/render/layout.py:132-166 | whatever leaves a box holds, each stays inside up to the rounding if and only if the box has room for its gaps, or no room across |
| BoxLimits.LeavesOfOneBoxAreApart | src/labelfab/render/layout.py:147-166 | the leaves of one box never overlap, whatever sizes they report |
| BoxLimits.NeighbourIsClearIff | src/labelfab/render/layout.py:132-166 | a leaf behind a box along its main axis is never covered by the leaves of the box, whichever they are, if and only if the box has room for its gaps, or none across |
| BoxTree.RoundingPushesALeafOut | src/labelfab/render/layout.py:132-166 | the rounding is real: a tree whose second leaf is drawn outside its box |
| TextWrap.Wrap | src/labelfab/render/elements.py:207-244 | the nested loops compute the specified wrap, `strip` included; None exactly as specified |
| TextWrap.WrapIsLossless | src/labelfab/render/elements.py:207-244 | the lines carry exactly the text's non-white characters, in order |
| TextWrap.EveryLineIsShown | src/labelfab/render/elements.py:207-244 | every line fits, is empty, or is a single character; with whole words every non-empty line fits |
| TextWrap.BreakingNeverFails | src/labelfab/render/elements.py:207-244 | with breaking allowed there is always a wrap |
| TextWrap.BreakingOnlyWhenNeeded | src/labelfab/render/elements.py:224-241 | where whole words can be wrapped, allowing breaks gives the same lines |
| TextWrap.WordsAreSplitAtSpace | src/labelfab/render/elements.py:219-219 | `split()`: the words of a text with white space at some place are those before it and those behind it |
| TextWrap.OneWordStaysWhole | src/labelfab/render/elements.py:219-219 | and a run without white space is one word |
| TextWrap.ParagraphsAreTheText | src/labelfab/render/elements.py:217-217 | the paragraphs hold no line feed, and with one between each two they are the text |
| BrokenWords.BrokenTextEndsRightly | src/labelfab/render/elements.py:207-244 | where words may be broken, paragraph by paragraph: the lines show the words in order, and every line that another follows ends in place of a space, the next word being too long for it, or inside a word too wide for any line, of which not one character more would fit |
| BrokenWords.BrokenOnFewestLines | src/labelfab/render/elements.py:234-239 | under a monotone width no cutting of a word into pieces that fit has fewer lines than a word that is broken takes |
| BrokenWords.SpillCutsLate | src/labelfab/render/elements.py:234-239 | each piece of a broken word but the last, with one character more, would not fit |
| FewestLines.WholeWordsFailIff | src/labelfab/render/elements.py:224-229 | under a monotone width, None if and only if some word is wider than a line |
| FewestLines.FewestLinesOfAnyWrap | src/labelfab/render/elements.py:215-244 | otherwise the lines are a whole-word wrap of every paragraph, and no such wrap has fewer lines |
| FewestLines.GreedyIsShortest | src/labelfab/render/elements.py:217-242 | paragraph by paragraph: no wrap has fewer lines, and none as short has less on its last line |
| TextFit.Search | src/labelfab/render/elements.py:257-277 | the bisection loop computes the specified search; a size is returned with its wrap, which fits |
| TextFit.CapIsNeverReached | src/labelfab/render/elements.py:263-265 | for 3 to 48 points the bracket closes to 0.2pt with at least 16 of the 24 rounds left |
| TextFit.SearchFindsTheLargest | src/labelfab/render/elements.py:257-277 | where fitting is monotone, no fitting size exceeds the result by more than 0.2pt |
| TextFit.SearchFindsIff | src/labelfab/render/elements.py:257-277 | a size is found if and only if the text fits at the lowest size tried, which lies above `min_pt`; a range of at most 0.2pt is never tried at all |
| TextFit.Fit | src/labelfab/render/elements.py:279-304 | whole words, then broken words, then the cut at `min_pt`, or the overflow error, exactly as specified |
| TextFit.TrimLine | src/labelfab/render/elements.py:296-298 | the longest beginning of the line that still fits with the mark |
| TextFit.FittedIsPlaceable | src/labelfab/render/elements.py:279-304 | whatever is placed fits in width but for single characters, in number of lines and in height, and shows all of the text or a first part and the mark; the error needs a line higher than the box |
| TextFit.CutTextFillsTheRoom | src/labelfab/render/elements.py:288-298 | a text at `min_pt` is shown whole, or on `max_lines` lines, or on so many that one more is too high; the lines before the last are whole, and the last loses no more characters than the mark needs |
| TextFit.WordsStayWholeIff | src/labelfab/render/elements.py:279-286 | of a text that fits at the lowest size tried, broken or not, the words stay whole if and only if it fits there unbroken; otherwise it is placed at `min_pt` |
| TextFit.OneSizeIsNeverTried | src/labelfab/render/elements.py:257-277 | an instance: with `min_pt` equal to `max_pt` the search comes back empty for a text that fits |
| TextFit.WordIsBrokenForNothing | src/labelfab/render/elements.py:279-286 | an instance: a word that fits whole at `min_pt` is broken for a larger size |
| ScaledQr.EdgesSpan | src/labelfab/render/vertical.py:76-77 | the outer edges are 0 and the width |
| ScaledQr.EdgeIsRounded | src/labelfab/render/vertical.py:76-77 | each module edge is the pixel nearest to its true place, and of two as near the even one |
| ScaledQr.ModuleWidth | src/labelfab/render/vertical.py:76-77 | under round-half-to-even every module is the floor or the ceiling of width/total pixels, and no wider where that is whole |
| ScaledQr.EdgesGrow | src/labelfab/render/vertical.py:67-77 | from two pixels a module on, every module is at least two pixels |
| ScaledQr.ModulesTile | src/labelfab/render/vertical.py:76-87 | every pixel column belongs to exactly one module |
| ScaledQr.DrawCode | src/labelfab/render/vertical.py:65-87 | the painting loops give every pixel the colour of the one module that contains it, or raise below two pixels a module |
| ScaledQr.SamplingGivesTheCode | src/labelfab/render/vertical.py:55-61 | sampled at the true module centres the picture gives the code back, module for module |
| ScaledQr.QuietZoneIsWhite | src/labelfab/render/vertical.py:79-86 | the quiet zone is white on every side |

## Left out

- Threads: network intake runs between calls of the print loop, not inside one.
- One call reads the clock once; the idle timing of the run loop under a busy queue is not modelled.
- Rows are in order of insertion, which is `created_at` for a clock that does not go back.
- `_JobAcc` objects are values in the worker's map; nothing else in the source shares them.
- Exceptions other than KeyError do not escape in the worker model: a ValueError of `concat_strip`
  or `to_device` (unequal heights, unknown rotation, a width that is not whole bytes) is an
  outcome of `Raster.ConcatStrip` and `DeviceRaster.ToDevice` only.
- The result of `print_raster` reaches the worker model as an attempt's outcome; link failures
  inside `Wire.PhomemoD30` are not modelled there.
- Status, progress and device-probe publishing, the retained status and the will.
- `probe_if_stale`, `probe_device`, `_capture_feedback` and the device snapshot table.
- Floating-point rounding: lengths, shares, edges and sizes are exact rationals here.
- Payload decoders of the status tags: values are kept as decoded by an opaque table.
- The branch of `_await_completion` that sleeps the budget in one go, and pacing between chunks.
- `compose_portrait` beyond the length of its canvas.
- Dithering, `smart_cut`, `fit_line` and the vertical label's stacking of lines.
- `measure` and horizontal alignment of text, barcode and QR leaves: a leaf's natural size is an
  arbitrary function of the area it is offered, and errors raised while measuring are left out.
- QR and barcode encoding, font metrics, PNG decoding, Bluetooth, serial, SQLite, the MQTT client,
  configuration loading, the command line and the presets: library or plumbing code.
