# Block layer

A model of the hard parts of the Linux block layer (`linux-toradex/block`) with proofs of what they
are meant to guarantee. Each component has its state machine or its values in one module, the
theorems about it in others, and, where the C code changes fields in place, a class whose methods
are proved against the state machine.

- **Flush sequencer** (`FlushProtocol`, `FlushInvariant`, `FlushSteps`, `FlushRuns`,
  `FlushTheorems`, `FlushFlags`, `FlushProgress`, `FlushPrompt`, `FlushAborts`, `FlushQueue`): cache
  flushes before and after writes, with two lists that take turns and one flush at a time. Durability
  from the flags of a request and its drive, truthful and exactly-once notification, and absence of
  stalls are proved over every run of every number of requests. Two of them can fail when the queue is aborted. A success without its flush is reported exactly for
  requests the abort restored, and a request is stranded exactly by the completion of a flush that
  an abort found with the driver.
- **Throttling** (`ThrottleSlice`, `ThrottleRate`, `ThrottleBurst`, `ThrottleTrim`, `ThrottleLanes`,
  `ServiceTree`, `ThrottleQueue`): the token bucket's rate bound over every run and every stretch of
  time, waits that are long enough and not much longer, and dispatch that terminates and loses nothing.
- **Merging and completion** (`Segments`, `Chains`, `Completion`, `Bytes`, `Requests`): segment counts that
  bound the scatter list through any merges, chains that stay contiguous, and partial completion
  as dropping bytes off a chain.
- **Deadline scheduler** (`Deadline`, `DeadlineKeeps`, `DeadlineService`, `DeadlineBatches`,
  `DeadlineExpiry`, `DeadlineSweep`, `DeadlineQueue`): two indexes over one set of requests, bounds on
  how long either direction can be passed over, the length of batches, and when an expired request is
  reached, through merges.
- **CFQ group tree** (`Cfq`, `CfqFairness`, `CfqQueue`): weighted fairness by virtual disk time.
- **Elevator core, tags, discard** (`MergeHash`, `DispatchSort`, `Tags`, `Discard`).

Each lock-held section is one step. Time and the answers of the driver are parameters. Integers are
unbounded and assumed not to wrap, except where a 32-bit operation decides something.

Where the code does not do what its documentation says, the code is followed: aborting the queue
takes requests out of the flush sequence while the driver still has them, so that a success may be
reported with no flush after the data; rewriting the throttling limits gives a direction a fresh
slice; `writes_starved` of zero lets writes shut reads out, and a negative one is a very large
unsigned number; a request merged into one of the same expiry can lose places in its fifo list;
a discard limit can round to zero, against which the loop is not guarded. A request
without data that asks for both flushes may be put back on the list flush_end_io is walking and be
ended there without a second flush, which costs nothing since it wrote nothing.

## Model

| member | source | states |
|---|---|---|
| `FlushTheorems.LawfulLives` | linux-toradex/block/blk-flush.c:110-212 | In every run of insertions, fetches, requeues, partial and full completions, flush completions and aborts, every request takes its steps in order and none twice, and no BUG_ON of the sequencer fires |
| `FlushTheorems.OnTheRightList` | linux-toradex/block/blk-flush.c:144-192 | A sequenced request is on the data list and with the driver side exactly in its data step, and on exactly one of the two flush lists in its flush steps |
| `FlushTheorems.OneFlushAtATime` | linux-toradex/block/blk-flush.c:244-273 | At most one flush is outstanding, exactly when the two indices differ, and then the flush request is on the dispatch queue or with the driver |
| `FlushTheorems.PreflushBeforeData` | linux-toradex/block/blk-flush.c:9-65 | Data of a request that needs a preflush is queued only after the error-free completion of a flush issued after its insertion |
| `FlushTheorems.PreflushBeforeSuccess` | linux-toradex/block/blk-flush.c:144-229 | The same before any success is reported for such a request, with or without data, and for one without data that needs a postflush |
| `FlushTheorems.PostflushBeforeSuccess` | linux-toradex/block/blk-flush.c:144-273 | A success reported for a request with data that needs a postflush comes after the error-free completion of a flush issued after its data finished, if and only if no abort took the request out of the sequence |
| `FlushFlags.AskedFor` | linux-toradex/block/blk-flush.c:94-108 | What the log and the request record is what was asked for and can be had: a preflush exactly if the drive has a cache and the request carries FLUSH, a postflush exactly if it carries FUA and the drive has a cache but no FUA, data exactly if there are sectors |
| `FlushFlags.FlushGoesFirst` | linux-toradex/block/blk-flush.c:9-65 | From the flags at insertion, in every run: a FLUSH request on a drive with a cache, or a FUA one without data on a drive without FUA, is handed to the driver, has data moved and is reported successful only after the error-free completion of a flush issued after its insertion |
| `FlushFlags.FlushFollows` | linux-toradex/block/blk-flush.c:9-65 | From the flags at insertion: a FUA write on a drive with a cache and without FUA is reported successful only after the error-free completion of a flush issued after its data, if and only if no abort took it out of the sequence |
| `FlushFlags.FuaReachesDriver` | linux-toradex/block/blk-flush.c:304-310 | A request the driver holds has REQ_FUA set exactly if it was asked for and the drive has it |
| `FlushFlags.DataGoesOut` | linux-toradex/block/blk-flush.c:94-192 | Success of a request with data means its data was written after its insertion; a request without data never reaches the dispatch queue |
| `FlushFlags.StraightThrough` | linux-toradex/block/blk-flush.c:312-334 | A request that needs no flush bypasses the machinery: with data it goes to the tail of the dispatch queue, without it has succeeded at once |
| `FlushFlags.NoFlushUnasked` | linux-toradex/block/blk-flush.c:94-108 | In a run in which nobody asks for a flush that the drive needs, none is ever issued |
| `FlushTheorems.WrittenOnce` | linux-toradex/block/blk-flush.c:275-285 | The data step of a request completes at most once |
| `FlushTheorems.ToldTheTruth` | linux-toradex/block/blk-core.c:150-176 | The outcome reported is a success if and only if the last step was one and no part of the data failed; a failure is reported only if part or all of the data, a flush the request needed, or the queue failed after its insertion |
| `FlushTheorems.ToldExactlyOnce` | linux-toradex/block/blk-flush.c:115-127 | The submitter is told once when the request has ended and never before, on success, data error, flush error and abort alike |
| `FlushProgress.NoStall` | linux-toradex/block/blk-flush.c:194-273 | In every run whose aborts do not find the flush with the driver, a waiting request means a flush in flight or a data step under way, and a flush in flight has someone to serve |
| `FlushProgress.StallsExactlyWhen` | linux-toradex/block/blk-flush.c:194-229 | In any run, with or without aborts, an event strands a waiting request if and only if it is the completion of a flush nobody waited for, while somebody waits for the next one and no data is under way |
| `FlushProgress.HollowExactlyWhen` | linux-toradex/block/blk-flush.c:359-385 | A flush comes to have nobody waiting for it if and only if an abort finds it with the driver |
| `FlushProgress.EndFlushTurns` | linux-toradex/block/blk-flush.c:194-229 | The same condition for a flush completion in any state with the invariant, with or without data, on success and on error |
| `FlushProgress.HeldOnlyForFlush` | linux-toradex/block/blk.h:57-91 | flush_queue_delayed is set only while a flush is in flight |
| `FlushProgress.HeldQueueIsRun` | linux-toradex/block/blk-flush.c:194-229 | The completion of a flush reruns a held queue and clears flush_queue_delayed |
| `FlushPrompt.WaitsNoLonger` | linux-toradex/block/blk-flush.c:40-55 | C1 to C3 over every run in which the clock does not go back: whenever a request of the sequence is moved on, whoever still waits for a flush to be issued waits for the one in flight, or has waited less than five seconds while data is under way |
| `FlushPrompt.QueueRunsWhenFed` | linux-toradex/block/blk-flush.c:215-228 | A completion runs the queue, as its last act, exactly if it put data or a flush on the dispatch queue or, for a flush, the queue was held |
| `FlushAborts.AbortLosesPostflush` | linux-toradex/block/blk-flush.c:359-385 | A run in which an abort makes a write succeed with no flush after its data |
| `FlushAborts.AbortMayStall` | linux-toradex/block/blk-flush.c:359-385 | Such an abort can be met: a run that ends with a request waiting and nothing under way |
| `FlushAborts.HarmfulAborts` | linux-toradex/block/elevator.c:786-804 | An abort can lead to a stall without another abort if and only if it finds the flush with the driver, which the caller can see |
| `FlushAborts.AbortStrands` | linux-toradex/block/blk-flush.c:359-385 | After every such abort the next empty flush is stranded as soon as the driver completes |
| `FlushRuns.ApplyKeeps` | linux-toradex/block/blk-flush.c:144-385 | Every event keeps the invariant of the sequencer |
| `FlushSteps.CompleteSeqKeeps` | linux-toradex/block/blk-flush.c:144-192 | Advancing one request by steps it has not done keeps the invariant, whatever list it is on |
| `FlushSteps.PushAllKeeps` | linux-toradex/block/blk-flush.c:194-229 | The loop over the answered requests keeps the invariant, also when one of its steps issues the next flush, and when a request without data is put back on the list being walked |
| `FlushSteps.FlushEndIoKeeps` | linux-toradex/block/blk-flush.c:194-229 | A flush completion keeps the invariant |
| `FlushSteps.InsertFlushKeeps` | linux-toradex/block/blk-flush.c:298-347 | Insertion keeps the invariant for every combination of request flags, device flags and data |
| `FlushSteps.EndRequestKeeps` | linux-toradex/block/blk-flush.c:275-285 | Completion of a data step or of an ordinary request keeps the invariant |
| `FlushSteps.AbortKeeps` | linux-toradex/block/elevator.c:786-804 | Aborting the queue keeps the invariant, which includes that everybody it fails is told so |
| `FlushSteps.AbortFlushesGive` | linux-toradex/block/blk-flush.c:359-385 | Every request of the sequence is ordinary again with its bio back, and those that waited for a flush are at the tail of the dispatch queue in the order they waited in |
| `FlushSteps.ProgressKeeps` | linux-toradex/block/blk-core.c:2010-2158 | A partial completion of a request the driver holds keeps the invariant, and what it says of the data is remembered |
| `FlushSteps.RequeueKeeps` | linux-toradex/block/blk-core.c:917-931 | Requeueing puts a request or the flush itself at the head of the dispatch queue and keeps the invariant |
| `FlushSteps.FetchKeeps` | linux-toradex/block/blk.h:57-91 | Fetching takes the head of the dispatch queue; that, and holding the queue, keep the invariant |
| `FlushQueue.RequestQueue.KickFlush` | linux-toradex/block/blk-flush.c:244-273 | Issues a flush if and only if C1, C2 and C3 of the design allow it, and then nothing but the pending index, the dispatch queue and the history moves |
| `FlushQueue.RequestQueue.CompleteSeq` | linux-toradex/block/blk-flush.c:144-192 | Moves the request between the lists in place exactly as the step of the proved state machine: data goes to the head of the dispatch queue and a flush to its tail, and the result says whether it grew |
| `FlushQueue.RequestQueue.FlushEndIo` | linux-toradex/block/blk-flush.c:194-229 | The cursor with a saved successor, over a list its own body changes, is the loop of the state machine, and it terminates |
| `FlushProtocol.PushShrinks` | linux-toradex/block/blk-flush.c:194-229 | Every turn of that loop leaves less to do, also if the request goes back to the end of the walked list |
| `FlushQueue.RequestQueue.EndRequest` | linux-toradex/block/blk-flush.c:275-285 | The completion in place is the event of the state machine, so the theorems hold of the fields themselves |
| `FlushQueue.RequestQueue.InsertFlush` | linux-toradex/block/blk-flush.c:298-347 | The insertion in place is the event of the state machine, for every combination of flags, so the theorems from the flags hold of the fields |
| `FlushQueue.RequestQueue.AbortFlushes` | linux-toradex/block/blk-flush.c:359-385 | The two loops leave the lists empty, every request on them ordinary, and the waiting ones at the tail of the dispatch queue in list order |
| `FlushQueue.RequestQueue.NextRequest` | linux-toradex/block/blk.h:57-91 | Returns the head, else what the elevator feeds, except that the queue is held, and this noted, exactly while a flush runs that the drive cannot queue |
| `ThrottleRate.RateBound` | linux-toradex/block/blk-throttle.c:496-744 | In every run of checks, dispatches, trims, extensions, renewals and restarts of a direction, bytes times HZ stay within bps times (elapsed time + one slice + one slice per limit rewrite); the same for requests and iops |
| `ThrottleBurst.WindowBound` | linux-toradex/block/blk-throttle.c:496-744 | Whatever went before: from any time on, what a direction sends stays within its limits for the time since its slice started and one slice |
| `ThrottleBurst.BurstBound` | linux-toradex/block/blk-throttle.c:534-591 | After a dispatch a direction has no credit but that of the running slice: over every run from then on it stays within its limits for the time elapsed and two slices, so unused time does not add up |
| `ThrottleLanes.AllowedExactly` | linux-toradex/block/blk-throttle.c:593-744 | A bio may go if and only if there is no rule or it fits both limits for the elapsed time, rounded up to whole slices and at least one, of the running slice or of a fresh one where that has run out |
| `ThrottleRate.RewriteCostsASlice` | linux-toradex/block/blk-throttle.c:875-910 | The extra slice per rewrite is real: one rewrite lets twice a slice through in no time |
| `ThrottleRate.RunSound` | linux-toradex/block/blk-throttle.c:496-756 | The accounting invariant behind the bound holds through every run |
| `ThrottleRate.TrimSound` | linux-toradex/block/blk-throttle.c:534-591 | Trimming whole slices gives back no more than they allowed |
| `ThrottleTrim.TrimCostsOne` | linux-toradex/block/blk-throttle.c:534-591 | A direction that has used what the trimmed slices allowed may later send at most one byte and one request less than without the trim |
| `ThrottleTrim.DispatchLedger` | linux-toradex/block/blk-throttle.c:534-591 | A dispatched bio adds exactly its bytes and one request to the slice, less what was allowed for the whole slices that the trim gives back |
| `ThrottleTrim.SliceReaches` | linux-toradex/block/blk-throttle.c:513-532 | The slice a check leaves lasts at least a slice from now and for the computed wait, and is extended no further than rounding makes it |
| `ThrottleRate.BpsWaitSuffices` | linux-toradex/block/blk-throttle.c:643-683 | A bio refused for bytes is allowed one jiffy after the computed wait |
| `ThrottleRate.IopsWaitSuffices` | linux-toradex/block/blk-throttle.c:593-641 | A bio refused for its number is allowed after the computed wait |
| `ThrottleTrim.BpsRefusedMeanwhile` | linux-toradex/block/blk-throttle.c:643-683 | A bio refused for bytes stays refused until the slice it was refused in is over, and the computed wait reaches at least that far |
| `ThrottleTrim.IopsRefusedMeanwhile` | linux-toradex/block/blk-throttle.c:593-641 | A bio refused for its number stays refused until that slice is over |
| `ThrottleTrim.BpsWaitTight` | linux-toradex/block/blk-throttle.c:643-683 | The wait computed for bytes is at most one slice, and the time of one byte, longer than necessary |
| `ThrottleTrim.IopsWaitTight` | linux-toradex/block/blk-throttle.c:593-641 | The wait computed for the number of requests is at most one slice longer than necessary |
| `ThrottleLanes.Drain` | linux-toradex/block/blk-throttle.c:811-842 | What one pass over a direction sends is a prefix of its queue, within the quota |
| `ThrottleLanes.DrainsFully` | linux-toradex/block/blk-throttle.c:811-842 | A pass over a direction stops only with its quota sent, nothing left, or the next bio refused |
| `ThrottleLanes.MinWaitSoonest` | linux-toradex/block/blk-throttle.c:771-789 | The time computed for a group is no later than its first bio of either direction may go, and is that of one of them, before and after the recheck |
| `ThrottleLanes.RefusalStands` | linux-toradex/block/blk-throttle.c:695-744 | A refusal stands on a second look at the same time |
| `ThrottleLanes.EmptyHandedWaits` | linux-toradex/block/blk-throttle.c:771-789 | A group that sent nothing is set to a later dispatch time |
| `ThrottleLanes.DrainMetered` | linux-toradex/block/blk-throttle.c:811-842 | What a pass sends continues the account of the direction, so that the rate bound covers it |
| `ServiceTree.InsertOk` | linux-toradex/block/blk-throttle.c:421-456 | Insertion keeps the tree sorted and counted, and its leftmost cache right |
| `ServiceTree.PlacedBehindEquals` | linux-toradex/block/blk-throttle.c:421-447 | A new entry goes behind all entries with keys no larger and ahead of all others, so equals are served in the order they came |
| `ServiceTree.EraseOk` | linux-toradex/block/blk-throttle.c:402-408 | So does erasing |
| `ServiceTree.FirstIsLeast` | linux-toradex/block/blk-throttle.c:381-394 | The first entry has the least key, through any inserts and erases, and there is none exactly if the tree is empty |
| `ThrottleQueue.DrainLane` | linux-toradex/block/blk-throttle.c:811-842 | The dispatch loop computes Drain |
| `ThrottleQueue.ThrottleData.Enqueue` | linux-toradex/block/blk-throttle.c:449-462 | Puts a group on the tree once |
| `ThrottleQueue.ThrottleData.Dequeue` | linux-toradex/block/blk-throttle.c:464-474 | Takes a group off the tree |
| `ThrottleQueue.ThrottleData.DispatchGroup` | linux-toradex/block/blk-throttle.c:811-842 | Sends up to six reads and two writes of a group, and fewer only if the queue ends or the limits refuse the next bio |
| `ThrottleQueue.ThrottleData.UpdateDisptime` | linux-toradex/block/blk-throttle.c:771-789 | The group is due no later than the first bio of either direction may go, and exactly when one of them may; it is repositioned for that time |
| `ThrottleQueue.ThrottleData.Round` | linux-toradex/block/blk-throttle.c:844-873 | A round that sends nothing leaves fewer groups due; a group that still has bios is due again exactly when the first of its directions may send |
| `ThrottleQueue.ThrottleData.SelectDispatch` | linux-toradex/block/blk-throttle.c:844-873 | Terminates, sends at most 39 bios, and for every group and direction sent plus waiting bios are the bios that waited, in order and under the meter; below the quantum nobody due is left |
| `ThrottleQueue.ThrottleData.AddBio` | linux-toradex/block/blk-throttle.c:758-769 | Appends a bio and puts its group on the tree |
| `ThrottleQueue.ThrottleData.AddGroup` | linux-toradex/block/blk-throttle.c:206-264 | A new group joins with nothing queued and off the tree |
| `ThrottleQueue.ThrottleData.ProcessLimitChange` | linux-toradex/block/blk-throttle.c:875-910 | The loop starts both slices of every marked group anew under its limits and repositions it if bios wait; other groups are untouched and no bio moves |
| `ThrottleQueue.ThrottleData.UpdateLimits` | linux-toradex/block/blk-throttle.c:1046-1102 | A new limit is in force at once, within the running slice, and the group is marked |
| `ThrottleQueue.ThrottleData.RestartGroup` | linux-toradex/block/blk-throttle.c:884-909 | A marked group with bios is due exactly when the first of its directions may send under the fresh slices |
| `ThrottleQueue.ThrottleData.RestartSlices` | linux-toradex/block/blk-throttle.c:496-506 | A restarted direction has nothing charged to it, also after the recheck that follows |
| `ThrottleQueue.ThrottleData.ThrottleBio` | linux-toradex/block/blk-throttle.c:1126-1225 | A bio passes under the meter exactly if none waits before it in its direction and the limits allow it; otherwise it is queued behind them, and as the first of its direction it makes the group due when the first of its directions may send |
| `ThrottleQueue.ThrottleData.ScheduleNext` | linux-toradex/block/blk-throttle.c:476-494 | Work is scheduled exactly if a group has bios, for the time the first of them is due; the tree is never empty then |
| `Segments.RecountCuts` | linux-toradex/block/blk-merge.c:12-69 | The counter cuts the vectors, in order, into segments the queue allows |
| `Segments.HighAlone` | linux-toradex/block/blk-merge.c:30-50 | A page above the bounce limit is counted as a segment of its own |
| `Segments.MapperIsMinimal` | linux-toradex/block/blk-merge.c:117-199 | The mapper emits no more entries than any legal cut has segments |
| `Segments.MapperIsCounter` | linux-toradex/block/blk-merge.c:12-199 | Without pages above the bounce limit the counter counts exactly the entries the mapper emits, with their starts and lengths |
| `Segments.MapperIsLegal` | linux-toradex/block/blk-merge.c:117-199 | Whatever the bounce limit, the entries are the segments of a legal cut of the vectors |
| `Segments.CutsFused` | linux-toradex/block/blk-merge.c:87-111 | Two cuts whose end segments touch and fit stay legal with these made one |
| `Chains.SegAppend` | linux-toradex/block/blk-merge.c:202-226 | Counts of two chains add up to a sound count |
| `Chains.SegFuse` | linux-toradex/block/blk-merge.c:277-315 | And one less if the segments at the joint are made one, with the cached end sizes still bounding the end segments |
| `Chains.CountBoundsMapper` | linux-toradex/block/blk-merge.c:113-199 | A chain with a sound count maps to at most that many entries |
| `Chains.ContiguousEnd` | linux-toradex/block/elevator.c:116-131 | A contiguous chain ends at its start plus its length |
| `Requests.RecalcSegments` | linux-toradex/block/blk-merge.c:12-74 | The nested loops count the segments of the whole chain and raise the cached end sizes to exactly those of its end segments |
| `Requests.MapRequest` | linux-toradex/block/blk-merge.c:117-199 | The mapping loops over bios and vectors |
| `Requests.Request.constructor` | linux-toradex/block/blk-core.c:2446-2461 | A request made of one bio has sound books |
| `Requests.Request.BackMergeBio` | linux-toradex/block/blk-core.c:1102-1123 | Takes a bio at the end exactly if sectors and segments stay within the limits; refused, it is unchanged and no longer mergeable |
| `Requests.Request.FrontMergeBio` | linux-toradex/block/blk-core.c:1125-1154 | The same at the front, moving the start |
| `Requests.Request.AttemptBioMerge` | linux-toradex/block/elevator.c:74-131 | A bio is merged if and only if the request is mergeable and not special, both are of one direction, disk, discard and secure kind, the scheduler agrees, the bio starts at the end of the request or ends at its start, and both limits hold; it then is at that end of the chain, which stays contiguous, with sound books |
| `Requests.Request.AttemptMerge` | linux-toradex/block/blk-merge.c:367-447 | Two requests are merged if and only if both are mergeable and not special, of one kind, adjacent and within both limits together: the bios follow in order, lengths add up, and one segment is saved exactly where the end vectors may share one; refused, both keep their bios |
| `Requests.Request.MergeRequestsFn` | linux-toradex/block/blk-merge.c:277-315 | The limits are met with a segment saved at the joint exactly if the end vectors may share one, and the count is then sound for the joined chain; refused, both chains stay sound |
| `Requests.Request.Map` | linux-toradex/block/blk-merge.c:117-199 | After any merges and partial completions, mapping emits at most nr_phys_segments entries |
| `Requests.JoinKeeps` | linux-toradex/block/blk-merge.c:277-315 | The cached sizes set at a joint are sound for the merged chain and, if the merge then fails, for either chain alone |
| `Requests.WalkChain` | linux-toradex/block/blk-core.c:2057-2132 | The completion loop drops exactly the first n bytes and ends exactly the covered bios |
| `Requests.WalkKeepsBare` | linux-toradex/block/blk-core.c:2057-2132 | Bios without vectors go only as a whole; what is left is contiguous from the new start |
| `Requests.Request.UpdateRequest` | linux-toradex/block/blk-core.c:2010-2158 | Keeps the books, with and without vectors; tells the submitter of each ended bio, in chain order and none in a flush sequence, success exactly if the bio was in order and the completion carried no error; recounts the rest, moves the start, and says whether anything is left |
| `Requests.Request.Shrink` | linux-toradex/block/blk-core.c:2133-2155 | What is left never counts less than its first vector, so the botched-request branch changes nothing |
| `Completion.WalkDrops` | linux-toradex/block/blk-core.c:2057-2132 | Completing n bytes takes n bytes off the chain, and nothing is left exactly if there were no more |
| `Bytes.WalkDropsBytes` | linux-toradex/block/blk-core.c:2010-2158 | Down to single bytes of memory: completing n bytes leaves exactly the bytes after the first n, in order |
| `Bytes.DropVecsDropsBytes` | linux-toradex/block/blk-core.c:2122-2131 | The same for the vectors of one bio, cut within a vector |
| `Completion.WalkEnds` | linux-toradex/block/blk-core.c:150-176 | The ended bios are the first of the chain, the rest is untouched except for its first |
| `Completion.EndedWhenCovered` | linux-toradex/block/blk-core.c:2057-2132 | A bio ends exactly when all bytes up to its end are covered |
| `Completion.WalkTwice` | linux-toradex/block/blk-core.c:2010-2158 | Completing a, then b bytes is completing a + b, for whole sectors a |
| `Completion.ReportsTwice` | linux-toradex/block/blk-core.c:150-176 | And the submitters are told the same, in the same order |
| `Completion.ToldIffUnharmed` | linux-toradex/block/blk-core.c:150-176 | Over any sequence of completions a submitter is told when all bytes of its bio are done, and of success if and only if the bio was in order before and no completion that covered any of its bytes carried an error |
| `Completion.WalkCuts` | linux-toradex/block/blk-core.c:2057-2132 | Where a completion cuts the chain, and that only a bio it takes bytes of is marked by its error |
| `Completion.FullSizeFinishes` | linux-toradex/block/blk-core.c:2010-2158 | Passing the full size finishes the request if and only if it has at most one bio or its last bio is not empty |
| `Completion.WalkContiguous` | linux-toradex/block/blk-core.c:2133-2138 | What is left is contiguous from the new start |
| `DeadlineKeeps.IndexesAgree` | linux-toradex/block/deadline-iosched.c:76-220 | In every run both indexes of a direction hold the same requests, sorted by sector and by expiry, also after merges; at most one next_rq is set and it is queued; nothing is dispatched twice |
| `DeadlineKeeps.AddKeeps` | linux-toradex/block/deadline-iosched.c:98-111 | Adding a request keeps this; it goes to the end of the fifo list with the expiry of its direction from now |
| `DeadlineKeeps.InsertPlace` | linux-toradex/block/elevator.c:356-374 | In the sorted index it goes behind all that start no later and ahead of all others |
| `DeadlineKeeps.FrontKeeps` | linux-toradex/block/deadline-iosched.c:154-166 | A front merge gives the request its new start and nothing else, and repositioning it keeps this |
| `DeadlineKeeps.MergeKeeps` | linux-toradex/block/deadline-iosched.c:168-187 | A merge of two requests keeps this |
| `DeadlineExpiry.MergeTakesOver` | linux-toradex/block/deadline-iosched.c:168-187 | After a merge the request has the smaller of the two expiries, and the place of the other one if that expired strictly earlier, else its own; no other request changes expiry or order |
| `DeadlineExpiry.KeepsPlaceIff` | linux-toradex/block/deadline-iosched.c:168-187 | The merged request is at the smaller of the two old places, and no further back than the one merged away, if and only if the expiries differ in its favour or nobody was between them; with equal expiries it can move back |
| `DeadlineExpiry.MergeMovesBack` | linux-toradex/block/deadline-iosched.c:168-187 | It does: three writes of one jiffy, of which the first is merged into the third |
| `DeadlineKeeps.DispatchMoves` | linux-toradex/block/deadline-iosched.c:243-325 | A dispatch moves one queued request if there is any, and no other |
| `DeadlineService.WritesServed` | linux-toradex/block/deadline-iosched.c:255-294 | Waiting writes are passed over fewer than (w + 1) * max(1, fifo_batch) times, in every run, with w being writes_starved as an unsigned number |
| `DeadlineService.ReadsServed` | linux-toradex/block/deadline-iosched.c:255-294 | Waiting reads are passed over fewer than 2 * max(1, fifo_batch) times if writes_starved is not zero |
| `DeadlineService.ReadsStarveFromStart` | linux-toradex/block/deadline-iosched.c:255-294 | With writes_starved zero they can be passed over any number of times |
| `DeadlineService.ReadsBoundedIff` | linux-toradex/block/deadline-iosched.c:255-294 | So how long reads can be made to wait is bounded if and only if writes_starved is not zero |
| `DeadlineService.StarvedBounded` | linux-toradex/block/deadline-iosched.c:272-275 | The starvation counter never passes its threshold, so it does not wrap |
| `DeadlineBatches.WritesTurn` | linux-toradex/block/deadline-iosched.c:268-292 | Since the last batch of writes at most writes_starved batches of reads went ahead of waiting writes, and a new batch is the turn of the writes, with both waiting, if and only if it was exactly so many |
| `DeadlineBatches.WritesReset` | linux-toradex/block/deadline-iosched.c:283-292 | A batch of writes starts that count anew |
| `DeadlineBatches.BatchLasts` | linux-toradex/block/deadline-iosched.c:254-261 | A batch goes on with next_rq in its direction, whatever expires or waits meanwhile, until it has dispatched fifo_batch requests or there is none further on |
| `DeadlineBatches.FullBatch` | linux-toradex/block/deadline-iosched.c:254-322 | A batch that always finds one further on has exactly fifo_batch requests |
| `DeadlineExpiry.ExpiredReached` | linux-toradex/block/deadline-iosched.c:226-237 | While an expired request waits, every new batch in its direction takes a request ahead of it, through any adds and merges; so it is reached after as many batches as are ahead, and one |
| `DeadlineExpiry.HeirReached` | linux-toradex/block/deadline-iosched.c:168-237 | Through any chain of merges, whatever an expired request was merged into is expired in its stead, and, if the merges keep the place, is reached after as many new batches as requests were ahead, and one |
| `DeadlineExpiry.GoneForGood` | linux-toradex/block/deadline-iosched.c:189-199 | A request that has left its list never comes back |
| `DeadlineSweep.SweepGoesOn` | linux-toradex/block/deadline-iosched.c:204-220 | After a dispatch next_rq of its direction is the nearest queued request not before it, and the other direction has none |
| `DeadlineSweep.SweepAscends` | linux-toradex/block/deadline-iosched.c:296-318 | Without expiry a direction is served in ascending sector order, and goes back to its oldest request only when none is further on |
| `DeadlineSweep.MergeSweeps` | linux-toradex/block/deadline-iosched.c:84-93 | When the request that next_rq stands for is merged away, next_rq becomes the nearest queued one not before it; otherwise it stays |
| `DeadlineQueue.DeadlineData.AddRequest` | linux-toradex/block/deadline-iosched.c:98-111 | Both indexes gain the request in place and still agree |
| `DeadlineQueue.DeadlineData.MergedRequest` | linux-toradex/block/deadline-iosched.c:154-166 | Only a front merge repositions, and the indexes still agree |
| `DeadlineQueue.DeadlineData.DelRqRb` | linux-toradex/block/deadline-iosched.c:84-93 | Removal moves next_rq on if it is the request removed |
| `DeadlineQueue.DeadlineData.MergedRequests` | linux-toradex/block/deadline-iosched.c:168-187 | list_move behind next and removal of next put req in its place; in place, req gets the smaller expiry, no other record changes, and only next leaves the fifo lists |
| `DeadlineQueue.DeadlineData.MoveRequest` | linux-toradex/block/deadline-iosched.c:204-220 | The in-place move is the one SweepGoesOn is about: next_rq is taken before the request leaves the index |
| `DeadlineQueue.DeadlineData.DispatchRequests` | linux-toradex/block/deadline-iosched.c:243-325 | The branches of the C function make the choice the service bounds are about, and it returns whether anything waited |
| `DeadlineQueue.DeadlineData.Drain` | linux-toradex/block/elevator.c:606-621 | Repeated dispatch terminates with nothing queued, and has moved exactly the queued requests |
| `CfqFairness.BooksKept` | linux-toradex/block/cfq-iosched.c:835-1028 | Any sequence of enabled events keeps total_weight the sum of the weights on the tree despite weights set at any time, the cached leftmost null or right, min_vdisktime below everything on the tree and never falling, and a group on the tree exactly if it has queues |
| `CfqFairness.QueuesCounted` | linux-toradex/block/cfq-iosched.c:889-938 | Over every run a group has as many queues as were added and not deleted, and is on the tree exactly if that is any |
| `CfqFairness.RecordStep` | linux-toradex/block/cfq-iosched.c:869-938 | What an event does to the queues and weights of any group: a pending weight is taken over exactly by an event that puts the group on the tree |
| `CfqFairness.WeightTakesEffect` | linux-toradex/block/cfq-iosched.c:869-887 | Over every run a weight set for a group counts from the next time the group is put on the tree, and the old one until then |
| `CfqFairness.WeightSet` | linux-toradex/block/cfq-iosched.c:1022-1028 | So the weight that cfq_update_blkio_group_weight sets is the one that comes to count |
| `CfqFairness.SpreadBounded` | linux-toradex/block/cfq-iosched.c:972-1001 | With no arrivals, serving the leftmost group keeps virtual times within the larger of the initial spread and the largest scaled charge |
| `CfqFairness.TimeIsCharge` | linux-toradex/block/cfq-iosched.c:542-549 | Virtual time is the charge scaled by weight, up to one unit per service |
| `CfqFairness.FairShares` | linux-toradex/block/cfq-iosched.c:542-549 | Two groups that stay on the tree with steady weights are charged in proportion to their weights, up to twice the spread and one unit per service |
| `Cfq.NextIsLeast` | linux-toradex/block/cfq-iosched.c:2277-2287 | The group chosen has the least virtual time on the tree, and min_vdisktime becomes exactly that |
| `Cfq.QueueAddedKeeps` | linux-toradex/block/cfq-iosched.c:889-912 | A queue added to a group keeps the books, whether or not the group was on the tree |
| `Cfq.ArrivesLast` | linux-toradex/block/cfq-iosched.c:889-912 | A group that comes onto the tree is last on it, the idle delay behind the group that was last |
| `Cfq.QueueDeletedKeeps` | linux-toradex/block/cfq-iosched.c:914-938 | The last queue of a group takes it off the tree, with the books kept |
| `Cfq.GroupServedKeeps` | linux-toradex/block/cfq-iosched.c:972-1001 | Charging a group off the tree, and taking over a pending weight there, keep the books |
| `Cfq.ServedIff` | linux-toradex/block/cfq-iosched.c:972-1001 | For any group, charging it keeps the books if and only if it is on the tree |
| `Cfq.NewWeightKeeps` | linux-toradex/block/cfq-iosched.c:1022-1028 | A weight set while the group is on the tree does not touch the books |
| `CfqQueue.GroupTree.ServiceTreeAdd` | linux-toradex/block/cfq-iosched.c:841-887 | A group takes over its pending weight before it counts in total_weight, and joins a sound tree as one |
| `CfqQueue.GroupTree.ServiceTreeDel` | linux-toradex/block/cfq-iosched.c:914-920 | A group leaves a sound tree with exactly the weight that was added, and is not the cached leftmost any more |
| `CfqQueue.GroupTree.NotifyQueueAdd` | linux-toradex/block/cfq-iosched.c:889-912 | Keeps the books in place; the new state is the one ArrivesLast is about |
| `CfqQueue.GroupTree.NotifyQueueDel` | linux-toradex/block/cfq-iosched.c:922-938 | Keeps the books in place; only the last queue takes the group off |
| `CfqQueue.GroupTree.GroupServed` | linux-toradex/block/cfq-iosched.c:972-1001 | Charges any group in place; the books survive if and only if it was on the tree |
| `CfqQueue.GroupTree.UpdateWeight` | linux-toradex/block/cfq-iosched.c:1022-1028 | A weight set at any time waits for the group to be off the tree; the books do not notice |
| `CfqQueue.GroupTree.FirstGroup` | linux-toradex/block/cfq-iosched.c:773-782 | Refreshes the cache, and finds none exactly if the tree is empty |
| `CfqQueue.GroupTree.GetNext` | linux-toradex/block/cfq-iosched.c:2277-2287 | Finds a group of least virtual time through the cache and raises min_vdisktime |
| `MergeHash.Hash.Find` | linux-toradex/block/elevator.c:330-350 | Returns a request exactly if some hashed mergeable request ends at the offset, and drops only unmergeable ones |
| `MergeHash.Hash.NewRequest` | linux-toradex/block/elevator.c:698-709 | A mergeable request entering the elevator is hashed by its end |
| `MergeHash.Hash.BackMerged` | linux-toradex/block/elevator.c:548-559 | Repositioning after a back merge keeps every request in the bucket of its end |
| `MergeHash.Hash.FrontMerged` | linux-toradex/block/elevator.c:548-559 | A front merge leaves the end, and so the bucket, as it is |
| `MergeHash.Hash.MergeRequests` | linux-toradex/block/elevator.c:561-578 | Merging two requests repositions one and removes the other |
| `MergeHash.Hash.Del` | linux-toradex/block/elevator.c:310-314 | Removal from whatever bucket |
| `MergeHash.Hash.SetNoMerge` | linux-toradex/block/elevator.c:338-341 | A request that becomes unmergeable may stay hashed |
| `MergeHash.SameEnds` | linux-toradex/block/elevator.c:330-350 | Lazy deletion changes nothing a scan would accept |
| `Tags.Injective` | linux-toradex/block/blk-tag.c:282-384 | No two requests have the same tag |
| `Tags.StartOrder` | linux-toradex/block/blk-tag.c:282-384 | Over every run of tags taken and given back no two requests share a tag, and the busy list of a queue is the reverse of the order in which its requests were started |
| `Tags.TagRoundTrip` | linux-toradex/block/blk-tag.c:282-384 | Ending a tag undoes starting it |
| `Tags.TagMap.FirstZero` | linux-toradex/block/blk-tag.c:366-373 | The search finds the lowest free tag within the limit |
| `Tags.TagMap.StartTag` | linux-toradex/block/blk-tag.c:337-384 | Gives the lowest free tag, and fails exactly if there is none within the limit for its kind or too many async requests are in flight; the last two tags are never given to an async request; bit, index entry and tag stay in step |
| `Tags.TagMap.EndTag` | linux-toradex/block/blk-tag.c:282-316 | Frees bit, entry and tag together; none was missing |
| `Tags.TagMap.Requeue` | linux-toradex/block/blk-core.c:917-931 | Frees the tag and puts the request at the head of the dispatch queue |
| `Tags.TagMap.Resize` | linux-toradex/block/blk-tag.c:220-265 | Every tag in use survives; growing a shared map is refused |
| `Tags.TagMap.Invalidate` | linux-toradex/block/blk-tag.c:399-405 | Frees all tags of the queue and no other, and leaves its dispatch queue as the busy requests in the order they were started, then the old queue |
| `Discard.ReturnsWhenDone` | linux-toradex/block/blk-lib.c:77-113 | For every interleaving the call returns only after every bio has ended, the completion is signalled at most once, and the bios tile exactly the range, or the part before memory ran out |
| `Discard.NeverStuck` | linux-toradex/block/blk-lib.c:18-27 | A waiting submitter has an open bio or has been woken |
| `Discard.FailureReported` | linux-toradex/block/blk-lib.c:18-27 | The call returns -EIO exactly if some bio failed |
| `Discard.ResultIs` | linux-toradex/block/blk-lib.c:105-113 | What the call returns: an I/O error if some bio failed, else an allocation failure if it stopped for lack of memory, else success |
| `Discard.TilesCover` | linux-toradex/block/blk-lib.c:81-104 | Every sector of the range is in exactly one bio and no other sector is in any |
| `Discard.SubmitsBounded` | linux-toradex/block/blk-lib.c:81-104 | With a positive limit the loop ends |
| `Discard.ZeroLimitLoops` | linux-toradex/block/blk-lib.c:81-104 | With a limit rounded to zero it never does |
| `Discard.RoundsToZero` | linux-toradex/block/blk-lib.c:57-70 | For every granularity, a limit that rounds to zero in 32-bit arithmetic is below it, or the granularity is below one sector |
| `Discard.RoundsToZeroIff` | linux-toradex/block/blk-lib.c:57-70 | For a power of two sectors that is an equivalence |
| `Discard.LimitRoundsDown` | linux-toradex/block/blk-lib.c:57-70 | For a granularity of a power of two sectors the limit in force is the capped one rounded down to a multiple of it, and without a granularity the capped one |
| `Discard.CappedFits` | linux-toradex/block/blk-lib.c:57-60 | The cap is the largest limit whose byte count fits 32 bits |
| `Discard.OddGranularity` | linux-toradex/block/blk-lib.c:57-70 | For other granularities it is not |
| `Discard.EndsIff` | linux-toradex/block/blk-lib.c:57-104 | A call that is not refused for a zero limit comes to an end if and only if its limit does not round to zero |
| `Discard.SplitRange` | linux-toradex/block/blk-lib.c:81-104 | The loop cuts the range into the least number of pieces within the limit |
| `DispatchSort.SortedInsert` | linux-toradex/block/elevator.c:404-447 | The request passes exactly the requests at the tail that are of its kind, not fixed, and reached later by the head; the queue stays in sweep order from the boundary between fixed requests, and nothing else moves |
| `DispatchSort.SweepOrder` | linux-toradex/block/elevator.c:404-447 | The order meant: at or beyond the boundary upward, then below it from the start of the disk |
| `DispatchSort.RunsAreSorted` | linux-toradex/block/elevator.c:404-447 | In such a queue every run of movable requests of one kind is sorted for one sweep |
| `DispatchSort.NewBoundary` | linux-toradex/block/elevator.c:455-467 | What of the order survives a new boundary: exactly the neighbours it does not part, and all on the same side of both |
| `DispatchSort.AddTail` | linux-toradex/block/elevator.c:455-467 | The request goes last and the sweep starts anew from its end |

## Left out

- Locks, barriers, workqueues, timers, statistics, tracing, memory allocation, sysfs and cgroup parsing: plumbing without a hard property.
- Wrap-around of jiffies, of 64-bit products and of virtual disk time: integers are unbounded.
- The elevator behind the dispatch queue in the flush model: ordinary requests arrive one by one, in any order.
- Requests.Request.AttemptMerge: failfast and mixed-merge flags, integrity, priorities and start times are not modelled.
- Requests.Request.Map: without the DMA pad and drain entries.
- Requests.Request.UpdateRequest: req->errors and the failfast flags of the first bio are not modelled.
- Requests.Request.constructor: for a bio that carries data; bios without vectors enter only completion, not merging.
- Tags.TagMap.Resize: growth that init_tag_map clamps below the old depth is not modelled.
- Tags.TagMap.StartTag: the retry when another queue takes the same bit of a shared map between search and set is one atomic step.
- CfqQueue.GroupTree.GroupServed: how the charge is computed from slices is a parameter.
- Cfq.GroupServedKeeps: for a group on the tree; ServedIff says what happens otherwise.
- CFQ's per-process queues, idling, think time and cooperator merging: heuristics without a crisp specification.
- The count of the CFQ group tree: it is only ever decremented and nothing reads it.
- DeadlineQueue.DeadlineData.MoveRequest: last_sector is not modelled, since it is written and never read.
- Requests.Request.AttemptBioMerge: integrity and the hook of the scheduler are one parameter; the plug list and last_merge are not modelled.
- Requests.MapRequest: without the DMA pad and drain entries.
- Red-black trees are sequences in key order; their balancing is not modelled.
