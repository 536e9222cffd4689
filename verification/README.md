# Block layer and crypto API of Linux 2.6.32, in Dafny

This project models the parts of the kernel's block layer and crypto API whose
correctness does not show from reading one function, and proves what they promise.
`dafny verify dfyconfig.toml` checks all of it.

What is modelled, file by file:

- **Building requests** (`Segments`, `Requests`, `RequestRuns`, `RequestPool`,
  `RequestMerges`, `RequestObject`, `RequestLimits`). Bios are merged into requests at the back, at the
  front, and request with request, while physical segments are counted incrementally. The
  main theorem is that the cheap count always bounds the scatter-gather list that is built
  in the end. It rests on the minimality of the greedy mapping and on a grouping that
  every request carries as its justification. When merges happen, and that no run of them
  exceeds the limits of the queue, is told from the bios.
- **Completing requests** (`Completion`, `RequestLife`). Partial completion is exact and
  compositional, and failing a request up to the next boundary always makes progress,
  whatever part of it is done. Over whole lives of bios, from submission through merging to
  the last byte, each ends once.
- **Barriers** (`Barrier`, `BarrierInvariant`, `BarrierSafety`, `BarrierStages`,
  `BarrierProgress`, `BarrierQueue`). The drain, pre-flush, barrier, post-flush sequence as a
  step relation over submit, dispatch, fetch, complete and requeue: safety over every run,
  that a barrier ends having been carried out as its data and the queue's mode demand, and
  that the protocol never comes to a standstill.
- **The deadline scheduler** (`RequestLists`, `Deadline`, `DeadlineInvariant`,
  `DeadlineDelay`, `DeadlineFairness`, `DeadlinePlace`, `DeadlineBatch`, `DeadlineObject`).
  Agreement of its lists, forced drain, the one-way sweep of a batch and where the next one
  begins, and a bound on the dispatch calls an expired request can still wait.
- **The CFQ scheduler** (`Cfq`, `CfqInvariant`, `CfqRuns`, `CfqFifo`, `CfqChoice`,
  `CfqObject`, `ThinkTime`). Agreement of trees, FIFOs, caches and counters over every run,
  forced dispatch, that late requests are served first, why two neighbours are enough to
  find the best request left, and the decaying mean of think times.
- **The elevator core** (`DispatchSort`, `MergeHash`), **recursive submission**
  (`Submission`) and **tags** (`Tags`, `TagQueue`).
- **Camellia** (`Words`, `Camellia`, `CamelliaRfc`, `CamelliaTables`). The cipher on absorbed
  and transformed subkeys against the cipher of RFC 3713, which is written down on 64-bit
  numbers with operations of its own, and the routine that rewrites the subkeys.
- **CBC** (`Cbc`, `CbcBuffers`), section 6.2 of NIST SP 800-38A, in place and out of
  place.
- **Dependent algorithms** (`Spawns`, `SpawnRegistry`). The iterative walk that kills the
  instances depending on an algorithm that is unregistered.

The form is the same throughout. Operations are functions on a value that holds the state,
so that whole runs can be spoken about. Code that updates state in place is modelled again
as a class, or as methods on arrays, and each method is proved to compute the function of
the same operation. `Common` holds what the parts share.

Red-black trees are abstracted to their in-order sequences; `elv_rb_add` and the descent
into the service tree are kept as searches that rely on the order. Times are integers that
do not decrease and do not wrap. Each section that runs under the queue lock is one step.

Properties that turned out not to hold as one might expect are stated with their exact
condition:

- reads can starve in the deadline scheduler if and only if `writes_starved` is zero
  (`DeadlineFairness.ReadsServedIff`);
- when two requests with exact segment counts are merged, the queue clusters, the end sizes
  fit and the last bio of the first comes without data, the contiguity test says yes without
  looking at a piece; the joint count is then too low if and only if the last piece of one
  does not run on into the first piece of the other (`RequestLimits.JointCountIff`);
- a bio that adjoins a request and keeps it within the sector limit is let in if and only if
  the limit cut off to 16 bits allows it too (`RequestMerges.AdmittedIff`);
- completing a request in two steps gives the start sector of completing it in one if and
  only if the two byte counts lose no sector between them (`Completion.UpdateComposes`);
- growing a tag map leaves room for every tag if and only if the map is shared or had no more
  tags than twice the number of requests the queue allows now (`Tags.RoomIff`);
- a merge of two requests keeps discards apart from other requests if and only if they were
  apart before (`RequestLimits.KindKeptIff`).

## Model

| member | source | states |
|---|---|---|
| `Segments.CountCutsValid` | linux-2.6.32-hardened-r22/block/blk-merge.c:12-70 | the grouping the counting loop finds respects the size limit, the window and physical contiguity, so it is one of the groupings a list may have |
| `Segments.MapCutsValid` | linux-2.6.32-hardened-r22/block/blk-merge.c:118-171 | the same for the grouping the mapping loop chooses |
| `Segments.OneEach` | linux-2.6.32-hardened-r22/block/blk-merge.c:12-70 | a queue that does not cluster gets a segment for every piece, and the counting loop opens one at every piece in or behind a high page |
| `Segments.CountAgrees` | linux-2.6.32-hardened-r22/block/blk-merge.c:12-171 | without high pages the counting loop finds the segments that the mapping loop makes |
| `Segments.GreedyStaysAhead` | linux-2.6.32-hardened-r22/block/blk-merge.c:118-171 | the greedy mapping is minimal: against every valid grouping of every prefix it has used fewer segments, or as many with a last one no longer |
| `Segments.Concat` | linux-2.6.32-hardened-r22/block/blk-merge.c:203-272 | two valid groupings laid end to end are valid and their counts add up, with the sizes of the outer segments |
| `Segments.Join` | linux-2.6.32-hardened-r22/block/blk-merge.c:274-312 | if the two middle segments may run together and fit, joining them is valid and saves exactly one segment; what the first and last segment then measure |
| `Segments.EntriesCover` | linux-2.6.32-hardened-r22/block/blk-merge.c:118-171 | the entries of a valid grouping are as many as its segments and name exactly the bytes of the pieces, in order |
| `Segments.EntriesFit` | linux-2.6.32-hardened-r22/block/blk-merge.c:118-171 | no entry exceeds the maximal segment size unless a single piece does, and none crosses a window of the segment boundary mask |
| `RequestRuns.RecalcSegOk` | linux-2.6.32-hardened-r22/block/blk-merge.c:12-75 | a recount is justified by an actual grouping whose outer segments are within the sizes noted on the first and last bio |
| `RequestRuns.InitGood` | linux-2.6.32-hardened-r22/block/blk-core.c:1110-1150 | a request made from one bio is good: contiguous extent, justified count, failfast bits of the bio or all of them when it reads ahead; hard and soft barrier as the bio and its kind say, and never merged then |
| `RequestRuns.BackMergeGood` | linux-2.6.32-hardened-r22/block/blk-core.c:1183-1203 | a back merge keeps the request good and adds exactly that bio, or is refused and leaves it good; within the segment limits. Good includes that a request that is not mixed has the failfast bits of all its bios but those that read ahead, and that no other bio loses the bits it was submitted with |
| `RequestRuns.FrontMergeGood` | linux-2.6.32-hardened-r22/block/blk-core.c:1205-1236 | the same for a front merge, which also moves the start sector and takes over the bio's failfast bits |
| `RequestRuns.JoinSegOk` | linux-2.6.32-hardened-r22/block/blk-merge.c:274-312 | joining two justified chains with one segment saved is justified by a grouping of the whole, with the sizes recorded on both chains |
| `RequestRuns.AttemptMergeGood` | linux-2.6.32-hardened-r22/block/blk-merge.c:363-434 | merging two requests leaves one good request with the bios of both in order, within the limits; a refusal leaves both good |
| `RequestPool.StepKeepsInv` | linux-2.6.32-hardened-r22/block/blk-core.c:1153-1236 | every submission, merge and start keeps all requests good and the bios spread over them without loss or doubling |
| `RequestPool.RunKeepsInv` | linux-2.6.32-hardened-r22/block/blk-core.c:1153-1236 | the same over every run from the empty queue |
| `RequestPool.SegmentCountBoundsList` | linux-2.6.32-hardened-r22/block/blk-merge.c:12-171 | in every state of every run the cached count bounds the list `blk_rq_map_sg` builds, and that list names exactly the bytes of the request |
| `RequestPool.BiosAreKept` | linux-2.6.32-hardened-r22/block/blk-core.c:1181-1236 | in every state of every run each submitted bio is in exactly one request, and each request is one contiguous extent of one direction and disk with the sizes adding up |
| `RequestMerges.MatchedIff` | linux-2.6.32-hardened-r22/block/elevator.c:74-130 | a bio is matched to the end of a request if and only if it begins where the last bio ends, to the front if and only if it ends where the first begins, and the request is open and of the same kind, direction, device and integrity setting |
| `RequestMerges.AdmittedIff` | linux-2.6.32-hardened-r22/block/blk-merge.c:203-272 | a matched bio is let in if and only if sectors and segments stay within the limits, the limit on sectors cut off to 16 bits |
| `RequestMerges.CutOffRefuses` | linux-2.6.32-hardened-r22/block/blk-merge.c:225-272 | with a limit of 65536 sectors no bio is ever let in |
| `RequestMerges.JoinedIff` | linux-2.6.32-hardened-r22/block/blk-merge.c:274-434 | two requests are merged if and only if both are open, agree in direction, device and integrity setting, one begins where the last bio of the other ends, and sectors and segments are within the limits |
| `RequestMerges.LimitsHold` | linux-2.6.32-hardened-r22/block/blk-merge.c:203-434 | in every state of every run a request made by merging, and the list the driver maps for it, is within the limits of the queue on sectors and segments |
| `RequestLimits.DatalessCountIff` | linux-2.6.32-hardened-r22/block/blk-merge.c:88-112 | the corner of a whole request without data in front of one with an exact count: the joint count bounds the list if and only if the queue does not cluster or the end segments are together too long |
| `RequestLimits.DatalessUndercounts` | linux-2.6.32-hardened-r22/block/blk-merge.c:88-112 | an instance in which the joint count is zero and the list has one entry |
| `RequestLimits.MapSeam` | linux-2.6.32-hardened-r22/block/blk-merge.c:118-171 | pieces that do not run on into each other are mapped on each side as if alone |
| `RequestLimits.SumBounds` | linux-2.6.32-hardened-r22/block/blk-merge.c:274-312 | two justified counts together bound the list of both chains, whichever bios come without data |
| `RequestLimits.JointCountBounds` | linux-2.6.32-hardened-r22/block/blk-merge.c:88-112 | two requests with justified counts, whichever of their bios come without data: the joint count bounds the list unless the contiguity test answered without looking at a piece and the last piece of one does not run on into the first of the other; in particular whenever the queue does not cluster or the end sizes are together too long |
| `RequestLimits.JointCountIff` | linux-2.6.32-hardened-r22/block/blk-merge.c:88-112 | if both counts are those of the lists, the joint count bounds the list if and only if the test did look at a piece, or said no, or the last piece of one does run on into the first of the other |
| `RequestLimits.GuessedRightly` | linux-2.6.32-hardened-r22/block/blk-merge.c:88-112 | an instance with a bio without data between two pieces that run on: the test guesses, the joint count is one, and there is a seam |
| `RequestLimits.KindKeptIff` | linux-2.6.32-hardened-r22/block/blk-merge.c:363-434 | a merge of two requests, each all discards or all not, is of one kind if and only if the two kinds agree; the code does not compare them |
| `RequestLimits.DiscardMeetsWrite` | linux-2.6.32-hardened-r22/block/blk-merge.c:363-434 | an instance in which a discard and an ordinary write are merged |
| `RequestLimits.BioMergesKeepKind` | linux-2.6.32-hardened-r22/block/elevator.c:74-108 | merges of a bio the elevator admitted keep a request of one kind |
| `RequestObject.CountSegments` | linux-2.6.32-hardened-r22/block/blk-merge.c:12-70 | the counting loop returns the count of the greedy grouping and notes the sizes of its outer segments on the chain |
| `RequestObject.RecountSegments` | linux-2.6.32-hardened-r22/block/blk-merge.c:77-86 | a stale bio is recounted alone |
| `RequestObject.Request.constructor` | linux-2.6.32-hardened-r22/block/blk-core.c:1110-1150 | a bio that meets its submitter's obligations makes a good request: one extent of exactly that bio, with a count that bounds its list |
| `RequestObject.Request.RecalcSegments` | linux-2.6.32-hardened-r22/block/blk-merge.c:72-75 | the object afterwards is exactly what the specification of the operation gives for the object before |
| `RequestObject.Request.SetMixedMerge` | linux-2.6.32-hardened-r22/block/blk-merge.c:323-342 | the object afterwards is exactly what the specification of the operation gives for the object before: the failfast bits go to every bio, once |
| `RequestObject.Request.BackMerge` | linux-2.6.32-hardened-r22/block/blk-core.c:1183-1203 | the object afterwards is exactly what the specification of the operation gives for the object before, with the low-level test |
| `RequestObject.Request.FrontMerge` | linux-2.6.32-hardened-r22/block/blk-core.c:1205-1236 | the object afterwards is exactly what the specification of the operation gives for the object before, with the low-level test |
| `RequestObject.Request.LlMerge` | linux-2.6.32-hardened-r22/block/blk-merge.c:225-272 | `ll_back_merge_fn` and `ll_front_merge_fn` in place, with the sector limit kept in 16 bits |
| `RequestObject.Request.NewHwSegment` | linux-2.6.32-hardened-r22/block/blk-merge.c:203-223 | the object afterwards is exactly what the specification of the operation gives for the object before: both segment limits, and the mark on refusal |
| `RequestObject.Request.AttemptMerge` | linux-2.6.32-hardened-r22/block/blk-merge.c:363-434 | the object afterwards is exactly what the specification of the operation gives for the object before on both requests |
| `RequestObject.Request.LlMergeRequests` | linux-2.6.32-hardened-r22/block/blk-merge.c:274-312 | the verdict and the sizes noted on both chains are those of the specification, also when the merge is refused after they were noted |
| `RequestObject.Request.MapSg` | linux-2.6.32-hardened-r22/block/blk-merge.c:118-171 | for a request with a justified count, good or partly done, an array of `nr_phys_segments` entries is never overrun, and what is written names exactly the bytes of the request |
| `RequestObject.Request.UpdateRequest` | linux-2.6.32-hardened-r22/block/blk-core.c:1951-2081 | the object afterwards is exactly what the specification of the operation gives for the object before: the bios that end, the chain that is left, sector, length and failfast bits; for discards that cover more than their payload too, as long as the bytes do not end behind the payload of one |
| `RequestObject.Request.ErrBytes` | linux-2.6.32-hardened-r22/block/blk-core.c:1681-1706 | the loop sums the leading bios that are as eager to fail as the request |
| `RequestObject.Request.FailToEnd` | linux-2.6.32-hardened-r22/block/blk-core.c:1681-1706 | failing a request boundary by boundary terminates, whatever part of it completed before, having ended every bio exactly once and in order, discards included |
| `Completion.AdvanceSplits` | linux-2.6.32-hardened-r22/block/blk-core.c:1980-2053 | completing n bytes ends the longest prefix of bios that fits and trims the next by exactly what is over; it leaves nothing exactly when no bio is left |
| `Completion.AdvanceExact` | linux-2.6.32-hardened-r22/block/blk-core.c:1980-2053 | something is left exactly if fewer bytes completed than there are, the sizes left add up, and what is left of bios as long as their pieces is exactly the byte suffix |
| `Completion.AdvanceComposes` | linux-2.6.32-hardened-r22/block/blk-core.c:1980-2053 | for all a and b, completing a and then b bytes ends the same bios in the same order as completing a + b and leaves the same chain but for the sector of its first bio, which is the same if and only if the two cuts are not in one bio or their remainders modulo 512 together stay below 512 |
| `Completion.SectorLost` | linux-2.6.32-hardened-r22/block/blk-core.c:133-166 | two cuts of 256 bytes in one bio of 1024 leave it one sector behind one cut of 512 |
| `Completion.UpdateGood` | linux-2.6.32-hardened-r22/block/blk-core.c:1951-2081 | a part completed of a good request leaves a good request if and only if it was whole sectors |
| `Completion.UpdateServable` | linux-2.6.32-hardened-r22/block/blk-core.c:1951-2081 | any completion, of whole sectors or not, leaves a request whose count bounds its list, whose length is that of its bios and which can be failed from its front, and says exactly whether bytes are left |
| `Completion.UpdateComposes` | linux-2.6.32-hardened-r22/block/blk-core.c:1951-2081 | for all a and b, two completions in a row equal one of the sum on the whole request, but for the sector it starts at, which is the same if and only if the remainders of a and b modulo 512 together stay below 512, and for that of its first bio, with its own condition |
| `Completion.WholeSectorsCompose` | linux-2.6.32-hardened-r22/block/blk-core.c:1951-2081 | if the first completion of a good request is whole sectors the two are equal, start sectors included |
| `Completion.ErrBytesProgress` | linux-2.6.32-hardened-r22/block/blk-core.c:1681-1706 | of every request with bytes left, mixed or not and however many completed before, the bytes to fail are positive, within the request, and those of whole bios that were all submitted as eager to fail as the request says or read ahead, and the next bio is not as eager |
| `Completion.ErrBytesWhole` | linux-2.6.32-hardened-r22/block/blk-core.c:1681-1706 | of a good request they are whole sectors |
| `Completion.FailStep` | linux-2.6.32-hardened-r22/block/blk-core.c:2062-2066 | one error completion ends at least one bio and none that was submitted less eager to fail unless it reads ahead, keeps the rest in order and leaves a request that can be failed on, and a good one if it was good |
| `RequestLife.QueueSized` | linux-2.6.32-hardened-r22/block/blk-core.c:1153-1236 | no submission or merge changes the size or the pieces of a bio, so what completion relies on holds of every request built |
| `RequestLife.UpdateIds` | linux-2.6.32-hardened-r22/block/blk-core.c:1951-2081 | the bios a completion ends and those it leaves are the bios of the request |
| `RequestLife.LifeKeepsInv` | linux-2.6.32-hardened-r22/block/blk-core.c:1951-2081 | over every run of submissions, merges, starts and completions by any numbers of bytes, queued requests are good, started ones servable, and every bio is queued, with the driver or ended |
| `RequestLife.EveryBioEndsOnce` | linux-2.6.32-hardened-r22/block/blk-core.c:1951-2081 | in every such run a bio submitted once is queued, with the driver or ended, in one place only, and has ended once no request is left |
| `RequestLife.EndedAreSubmitted` | linux-2.6.32-hardened-r22/block/blk-core.c:1951-2081 | in every such run bios end at most as often as they were submitted, and as often once no request is left |
| `RequestLife.FailingProgresses` | linux-2.6.32-hardened-r22/block/blk-core.c:1681-1706 | in every such run every request with the driver, however much of it is done, can be failed up to its next boundary: the bytes to fail end between two bios, failing them ends at least one bio and none that was submitted less eager to fail unless it reads ahead, and the rest stays in order and can be failed on |
| `RequestLife.ServedListFits` | linux-2.6.32-hardened-r22/block/blk-merge.c:118-171 | in every such run the count of a request that is partly done bounds the list built from what is left of it |
| `Barrier.RequeueIndex` | linux-2.6.32-hardened-r22/block/elevator.c:650-678 | a requeued request goes in front of the first one that is not due before it |
| `BarrierInvariant.SubmitInv` | linux-2.6.32-hardened-r22/block/elevator.c:632-648 | submitting an ordinary request to the elevator keeps the protocol invariant |
| `BarrierInvariant.SubmitSoftInv` | linux-2.6.32-hardened-r22/block/elevator.c:695-730 | so does submitting a request with a soft barrier, at the back of the list, once the elevator is drained |
| `BarrierInvariant.SubmitBarrierInv` | linux-2.6.32-hardened-r22/block/elevator.c:695-730 | so does submitting a barrier, which flips the colour and goes to the back of the list once the elevator is drained |
| `BarrierInvariant.DispatchInv` | linux-2.6.32-hardened-r22/block/elevator.c:461-473 | dispatching from the scheduler keeps it |
| `BarrierInvariant.HandOverInv` | linux-2.6.32-hardened-r22/block/blk-core.c:1848-1894 | handing the head to the driver when it is due keeps it |
| `BarrierInvariant.GivenIsDue` | linux-2.6.32-hardened-r22/block/blk-barrier.c:235-279 | what `blk_do_ordered` lets pass is due |
| `BarrierInvariant.OpenedInv` | linux-2.6.32-hardened-r22/block/blk-barrier.c:153-233 | `start_ordered`, which replaces the barrier by its proxies, keeps it |
| `BarrierInvariant.RequeueInv` | linux-2.6.32-hardened-r22/block/elevator.c:539-554 | a requeue at any time keeps it |
| `BarrierInvariant.PassedOver` | linux-2.6.32-hardened-r22/block/elevator.c:650-678 | looking for its place a requeued request passes only proxies and requests of the drained side |
| `BarrierInvariant.CompleteFsInv` | linux-2.6.32-hardened-r22/block/elevator.c:823-853 | completing an ordinary request keeps it, closing the drain stage when it was the last |
| `BarrierInvariant.CompleteProxyInv` | linux-2.6.32-hardened-r22/block/blk-barrier.c:91-129 | completing a proxy closes its stage and, with the last, ends the barrier |
| `BarrierInvariant.PartialInv` | linux-2.6.32-hardened-r22/block/blk-core.c:160-164 | a part of the barrier proxy that completes, with or without an error, keeps the invariant, the recorded error being the first one reported |
| `BarrierInvariant.AllStagesOver` | linux-2.6.32-hardened-r22/block/blk-barrier.c:91-111 | when all stages are over nothing submitted before the barrier is left and no proxy is about |
| `BarrierInvariant.NothingToDrain` | linux-2.6.32-hardened-r22/block/elevator.c:838-852 | if the head is past the drain stage nothing on the list is left to drain |
| `BarrierSafety.StepInv` | linux-2.6.32-hardened-r22/block/blk-barrier.c:55-279 | every interleaving step keeps the invariant |
| `BarrierSafety.RunInv` | linux-2.6.32-hardened-r22/block/blk-barrier.c:55-279 | so does every run, in every drain mode |
| `BarrierSafety.DriverAlwaysSafe` | linux-2.6.32-hardened-r22/block/blk-barrier.c:153-279 | in every state of every run nothing queued after a barrier is with the driver before that barrier has ended; a proxy is there alone, with everything submitted before and every earlier stage complete |
| `BarrierSafety.StagesOnce` | linux-2.6.32-hardened-r22/block/blk-barrier.c:91-111 | in a state with a sequence running no proxy with the driver is of a stage already closed, and the head of the list is never behind the running stage |
| `BarrierSafety.HeadNeverBehind` | linux-2.6.32-hardened-r22/block/blk-barrier.c:235-279 | in every state of every run the head of the list belongs to the running stage or a later one |
| `BarrierSafety.StagesClosedOnce` | linux-2.6.32-hardened-r22/block/blk-barrier.c:98-99 | in every run, no call that closes stages, be it for a proxy, for the drain or for stages that are skipped, names one that is closed already |
| `BarrierSafety.BarriersEndInOrder` | linux-2.6.32-hardened-r22/block/blk-barrier.c:91-111 | barriers end one at a time, in order, once each, with the first error of their sequence, errors of parts of the barrier included, after everything submitted before them; which requests have come back then is the subject of BarrierStages.BarrierIsCarriedOut |
| `BarrierSafety.ErrorsReported` | linux-2.6.32-hardened-r22/block/blk-barrier.c:91-135 | the error that counts after each step: none when a sequence begins, then the first that a part of the barrier or a proxy ends with |
| `BarrierSafety.InFlightIs` | linux-2.6.32-hardened-r22/block/blk-core.c:1848-1863 | in every state of every run the count of requests in flight is that of the fs requests with the driver and the write of the barrier, without the flushes |
| `BarrierSafety.ShownStays` | linux-2.6.32-hardened-r22/block/blk-core.c:1760-1790 | a request that the driver has been shown stays at the head until it is fetched or one is given back |
| `BarrierStages.ProxyIsNeeded` | linux-2.6.32-hardened-r22/block/blk-barrier.c:153-233 | in every state of every run a proxy is with the driver only if the mode of the queue and the data of the running barrier call for it |
| `BarrierStages.BarrierIsCarriedOut` | linux-2.6.32-hardened-r22/block/blk-barrier.c:91-233 | in every run, when a barrier ends, exactly the requests have come back for it that the mode of the queue and its data call for: pre-flush unless the queue only drains, the write of its data if it has any, post-flush after such a write if the queue flushes |
| `BarrierProgress.RunDrains` | linux-2.6.32-hardened-r22/block/elevator.c:823-855 | in every run, while requests from before a barrier are awaited, one is with the driver or first on the list |
| `BarrierProgress.NeverStuck` | linux-2.6.32-hardened-r22/block/blk-barrier.c:235-278 | in every state of every run with nothing at the driver and something to do, the next fetch hands a request over or ends a barrier |
| `BarrierProgress.WorkIsBounded` | linux-2.6.32-hardened-r22/block/blk-barrier.c:91-278 | from every state of every run a driver that only fetches and completes does so a bounded number of times |
| `BarrierProgress.AllIsDone` | linux-2.6.32-hardened-r22/block/blk-barrier.c:91-278 | and when it can do nothing more every barrier submitted has ended and every request that has left the elevator is complete |
| `BarrierQueue.RequestQueue.NextRequest` | linux-2.6.32-hardened-r22/block/blk.h:54-68 | the fetch loop ends; it is a path of protocol steps; what it finds is due, and fetching at the end of that path gives exactly it; it finds nothing only if there is nothing, the elevator declined to dispatch, or a running sequence holds the head back |
| `BarrierQueue.RequestQueue.RequeueRequest` | linux-2.6.32-hardened-r22/block/elevator.c:650-678 | the search loop finds the specified place |
| `Camellia.TableF` | linux-2.6.32-hardened-r22/crypto/camellia.c:359-376 | the table form of F equals the P function applied to the S-boxes of section 2.4.1 of RFC 3713, for all S-boxes |
| `Camellia.RoundAddsKey` | linux-2.6.32-hardened-r22/crypto/camellia.c:870-885 | a round with a transformed key adds the plain key behind F |
| `Camellia.FLAffine` | linux-2.6.32-hardened-r22/crypto/camellia.c:854-868 | FL of a sum is FL of one summand plus a linear image of the other |
| `Camellia.FLInvAffine` | linux-2.6.32-hardened-r22/crypto/camellia.c:854-868 | the same for FLINV |
| `Camellia.RoundsEquiv` | linux-2.6.32-hardened-r22/crypto/camellia.c:896-915 | six rounds on absorbed keys equal six textbook rounds up to the pending keys |
| `Camellia.FlsEquiv` | linux-2.6.32-hardened-r22/crypto/camellia.c:916-924 | an FL layer carries the pending keys through |
| `Camellia.EncryptIsRfc` | linux-2.6.32-hardened-r22/crypto/camellia.c:887-940 | for all subkeys, blocks and both lengths the cipher on the rewritten table equals the cipher with explicit whitening and keys added before F, which CamelliaRfc.HalvesAreStd identifies with that of RFC 3713 |
| `Camellia.DecryptUndoes` | linux-2.6.32-hardened-r22/crypto/camellia.c:942-995 | decryption with the same table undoes encryption, for every table |
| `Camellia.DecryptInvertsRfc` | linux-2.6.32-hardened-r22/crypto/camellia.c:942-995 | so it inverts the cipher of RFC 3713 |
| `CamelliaRfc.FIsStd` | linux-2.6.32-hardened-r22/crypto/camellia.c:359-376 | F on halves is the F function of section 2.4.1 of RFC 3713 on 64-bit numbers |
| `CamelliaRfc.FLIsStd` | linux-2.6.32-hardened-r22/crypto/camellia.c:854-868 | FL and FLINV on halves are those of sections 2.4.2 and 2.4.3 |
| `CamelliaRfc.HalvesAreStd` | linux-2.6.32-hardened-r22/crypto/camellia.c:887-940 | the cipher on halves is that of sections 2.3.1 and 2.3.2 |
| `CamelliaRfc.CipherIsStd` | linux-2.6.32-hardened-r22/crypto/camellia.c:887-995 | for all S-boxes, subkeys, blocks and both lengths the cipher of the kernel on its rewritten table is the cipher of RFC 3713 on the plain subkeys, and its decryption undoes that |
| `CamelliaTables.DoEncrypt` | linux-2.6.32-hardened-r22/crypto/camellia.c:887-940 | the object afterwards is exactly what the specification of the operation gives for the object before on the word array, for both lengths |
| `CamelliaTables.DoDecrypt` | linux-2.6.32-hardened-r22/crypto/camellia.c:942-995 | the object afterwards is exactly what the specification of the operation gives for the object before on the word array, for both lengths |
| `CamelliaTables.RoundRight` | linux-2.6.32-hardened-r22/crypto/camellia.c:870-885 | the object afterwards is exactly what the specification of the operation gives for the object before |
| `CamelliaTables.FlsAt` | linux-2.6.32-hardened-r22/crypto/camellia.c:854-868 | the object afterwards is exactly what the specification of the operation gives for the object before |
| `CamelliaTables.AbsorbKw2` | linux-2.6.32-hardened-r22/crypto/camellia.c:387-430 | the object afterwards is exactly what the specification of the operation gives for the object before on the two subkey arrays |
| `CamelliaTables.AbsorbKw4` | linux-2.6.32-hardened-r22/crypto/camellia.c:416-468 | the object afterwards is exactly what the specification of the operation gives for the object before on the two subkey arrays |
| `CamelliaTables.WriteBack` | linux-2.6.32-hardened-r22/crypto/camellia.c:510-559 | the object afterwards is exactly what the specification of the operation gives for the object before: the end of the table for both lengths |
| `CamelliaTables.InvertRoundKeys` | linux-2.6.32-hardened-r22/crypto/camellia.c:561-577 | the closing loop transforms the round keys and no other |
| `CamelliaTables.LayerCancels` | linux-2.6.32-hardened-r22/crypto/camellia.c:387-559 | a constant that has passed an FL layer cancels against one that has not |
| `CamelliaTables.TableIsClosed` | linux-2.6.32-hardened-r22/crypto/camellia.c:381-578 | whatever the subkeys, all absorbed constants cancel and the finished table is the closed form the cipher theorem needs |
| `CamelliaTables.SetupTail` | linux-2.6.32-hardened-r22/crypto/camellia.c:381-578 | the whole routine in place produces that table |
| `DeadlineInvariant.MoveKeeps` | linux-2.6.32-hardened-r22/block/deadline-iosched.c:206-222 | moving a request to the dispatch list keeps tree, FIFO, cached next and `nr_sorted` in agreement; where the batch stands then is the subject of DeadlineBatch.MoveOn |
| `RequestLists.LatterIsSuccessor` | linux-2.6.32-hardened-r22/block/deadline-iosched.c:65-74 | the request behind another on the tree has the lowest sector above it |
| `RequestLists.Descend` | linux-2.6.32-hardened-r22/block/elevator.c:360-381 | the descent ends at the request of the same sector, if there is one, and otherwise at the one place that keeps the order |
| `DeadlineInvariant.MakeRoomKeeps` | linux-2.6.32-hardened-r22/block/deadline-iosched.c:76-84 | the alias loop repeats at most once: after one dispatch the sector is free |
| `DeadlineInvariant.SubmitKeeps` | linux-2.6.32-hardened-r22/block/deadline-iosched.c:100-113 | adding a request keeps the invariant, in particular the FIFO ordered by deadline |
| `DeadlineInvariant.FrontKeeps` | linux-2.6.32-hardened-r22/block/deadline-iosched.c:156-168 | repositioning after a front merge keeps it |
| `DeadlineInvariant.MergeKeeps` | linux-2.6.32-hardened-r22/block/deadline-iosched.c:170-189 | merging two requests keeps it, with deadline and FIFO place passed on when earlier |
| `DeadlineInvariant.DispatchKeeps` | linux-2.6.32-hardened-r22/block/deadline-iosched.c:245-327 | a dispatch call keeps it and moves exactly the chosen request |
| `DeadlineInvariant.ChosenIsQueued` | linux-2.6.32-hardened-r22/block/deadline-iosched.c:245-327 | a dispatch call finds a queued request exactly when a FIFO is not empty |
| `DeadlineInvariant.DispatchConserves` | linux-2.6.32-hardened-r22/block/deadline-iosched.c:245-327 | dispatching neither loses nor repeats a request and lowers `nr_sorted` by one until it is zero |
| `DeadlineInvariant.StepKeeps` | linux-2.6.32-hardened-r22/block/deadline-iosched.c:76-327 | every step of every run keeps the invariant |
| `DeadlineInvariant.StepCarried` | linux-2.6.32-hardened-r22/block/deadline-iosched.c:104-193 | what each step leaves of sector, length and deadline: those of the submission, the new start after a front merge, the earlier deadline of two merged requests; no other request changes |
| `DeadlineBatch.MoveOn` | linux-2.6.32-hardened-r22/block/deadline-iosched.c:195-222 | a dispatch leaves the batch at the request that followed on the tree, the other direction without one, and everything else in place |
| `DeadlineBatch.RemoveOn` | linux-2.6.32-hardened-r22/block/deadline-iosched.c:86-95 | taking a request away moves a batch that was to go on with it to the one that followed |
| `DeadlineBatch.Sweep` | linux-2.6.32-hardened-r22/block/deadline-iosched.c:242-327 | a batch that opens with a request dispatches it and then, in ascending order and without leaving any out, those above it, until it has dispatched `fifo_batch` or none is left |
| `DeadlineBatch.NextIsTaken` | linux-2.6.32-hardened-r22/block/deadline-iosched.c:242-327 | what the next call takes: while the batch lasts the lowest sector above the last one; when it has run out still that one if the direction stays and nothing in it is late; otherwise the earliest deadline of the direction chosen |
| `DeadlineDelay.DispatchPays` | linux-2.6.32-hardened-r22/block/deadline-iosched.c:261-324 | every dispatch call lowers the delay measure of a waiting direction |
| `DeadlineFairness.ExpiredIsServed` | linux-2.6.32-hardened-r22/block/deadline-iosched.c:228-327 | once a deadline has passed, the request or the one it was merged into is dispatched within n * period + 1 calls, n the requests with a deadline as early, whatever arrives or merges |
| `DeadlineFairness.StepDelay` | linux-2.6.32-hardened-r22/block/deadline-iosched.c:76-327 | no step of a run lengthens the wait of expired requests, and a dispatch call shortens it |
| `DeadlineFairness.RunCares` | linux-2.6.32-hardened-r22/block/deadline-iosched.c:170-222 | through every run the data of a request stays queued with a deadline no later, or has been dispatched |
| `DeadlineFairness.ReadsServedIff` | linux-2.6.32-hardened-r22/block/deadline-iosched.c:270-279 | every expired read of every reachable state is served within some number of dispatch calls, whatever happens meanwhile, if and only if `writes_starved` is not zero |
| `DeadlineFairness.StuckFor` | linux-2.6.32-hardened-r22/block/deadline-iosched.c:270-279 | with `writes_starved` zero, runs of any length in which an expired read is passed over |
| `DeadlinePlace.IndexIsServed` | linux-2.6.32-hardened-r22/block/deadline-iosched.c:228-327 | an expired request at FIFO index k has left the FIFO after (k + 1) * period + 1 dispatch calls, the period being (writes_starved + 1) * max(1, fifo_batch) for writes; unless merged away it has been dispatched |
| `DeadlineObject.DeadlineData.RbAdd` | linux-2.6.32-hardened-r22/block/elevator.c:360-382 | nothing changes if the descent finds an alias; otherwise the request is linked where the order wants it |
| `DeadlineObject.DeadlineData.RemoveRequest` | linux-2.6.32-hardened-r22/block/deadline-iosched.c:86-124 | the object afterwards is exactly what the specification of the operation gives for the object before |
| `DeadlineObject.DeadlineData.MoveRequest` | linux-2.6.32-hardened-r22/block/deadline-iosched.c:194-222 | the object afterwards is exactly what the specification of the operation gives for the object before |
| `DeadlineObject.DeadlineData.AddRqRb` | linux-2.6.32-hardened-r22/block/deadline-iosched.c:76-84 | the alias loop on the object: the object afterwards is exactly what the specification of the operation gives for the object before |
| `DeadlineObject.DeadlineData.AddRequest` | linux-2.6.32-hardened-r22/block/deadline-iosched.c:100-113 | the object afterwards is exactly what the specification of the operation gives for the object before, and the invariant holds again |
| `DeadlineObject.DeadlineData.MergedRequest` | linux-2.6.32-hardened-r22/block/deadline-iosched.c:156-168 | the object afterwards is exactly what the specification of the operation gives for the object before, and the invariant holds again |
| `DeadlineObject.DeadlineData.MergeRequests` | linux-2.6.32-hardened-r22/block/elevator.c:524-537 | the object afterwards is exactly what the specification of the operation gives for the object before, and the invariant holds again |
| `DeadlineObject.DeadlineData.CheckFifo` | linux-2.6.32-hardened-r22/block/deadline-iosched.c:228-239 | the head is expired exactly when some request of the FIFO is |
| `DeadlineObject.DeadlineData.SelectDirection` | linux-2.6.32-hardened-r22/block/deadline-iosched.c:266-296 | the direction of a new batch and the starvation count |
| `DeadlineObject.DeadlineData.DispatchRequests` | linux-2.6.32-hardened-r22/block/deadline-iosched.c:245-327 | the object afterwards is exactly what the specification of the operation gives for the object before, and the invariant holds again; the result tells whether anything was queued |
| `DeadlineObject.DeadlineData.Drain` | linux-2.6.32-hardened-r22/block/elevator.c:556-568 | forced dispatching terminates with `nr_sorted` zero, empty lists, and every queued request on the dispatch list exactly once |
| `CfqChoice.ChooseIsFirst` | linux-2.6.32-hardened-r22/block/cfq-iosched.c:333-420 | of two requests the one is chosen that comes first in an order told by flags and sectors alone: sync before async, metadata before data, then ahead of the head upwards, behind it within reach downwards, one ahead before one behind unless it is more than the penalty times as far, out of reach last from the lowest up |
| `CfqChoice.ChooseFlags` | linux-2.6.32-hardened-r22/block/cfq-iosched.c:346-353 | the one chosen is sync if either is, and metadata if one of those is that were left then |
| `CfqChoice.ChooseCommutes` | linux-2.6.32-hardened-r22/block/cfq-iosched.c:333-420 | the choice between two requests at different sectors does not depend on their order, and exactly one of two different ones comes first |
| `CfqChoice.ChooseTransitive` | linux-2.6.32-hardened-r22/block/cfq-iosched.c:333-420 | the order of service is transitive |
| `CfqChoice.AddKeepsBest` | linux-2.6.32-hardened-r22/block/cfq-iosched.c:721-725 | choosing between the cached next request and a new one gives the best of the whole tree, if the cached one was |
| `CfqChoice.NextOfBest` | linux-2.6.32-hardened-r22/block/cfq-iosched.c:454-475 | when the best request of a tree is taken, choosing between its two neighbours, going round at the end, gives the best of all that are left |
| `CfqInvariant.FindNextOk` | linux-2.6.32-hardened-r22/block/cfq-iosched.c:453-475 | another request of the queue is found exactly when there is one |
| `CfqInvariant.SortedInsert` | linux-2.6.32-hardened-r22/block/cfq-iosched.c:536-572 | insertion keeps the service tree ordered by class and key |
| `CfqInvariant.TreeAddOk` | linux-2.6.32-hardened-r22/block/cfq-iosched.c:492-573 | moving a busy queue keeps the tree in order, each busy queue on it once, and the leftmost cache empty or right |
| `CfqInvariant.AddRrOk` | linux-2.6.32-hardened-r22/block/cfq-iosched.c:654-662 | joining the round robin keeps tree, flag, cache and `busy_queues` in agreement |
| `CfqInvariant.DelRrOk` | linux-2.6.32-hardened-r22/block/cfq-iosched.c:668-683 | leaving it keeps them in agreement |
| `CfqRuns.RemoveKeeps` | linux-2.6.32-hardened-r22/block/cfq-iosched.c:786-801 | removing a request keeps the invariant; a queue that runs empty leaves the service tree |
| `CfqRuns.DispatchKeeps` | linux-2.6.32-hardened-r22/block/cfq-iosched.c:1128-1142 | dispatching a request keeps it, with flight counters up to date |
| `CfqRuns.MakeRoomKeeps` | linux-2.6.32-hardened-r22/block/cfq-iosched.c:711-716 | one dispatched alias is enough to make room |
| `CfqRuns.InsertKeeps` | linux-2.6.32-hardened-r22/block/cfq-iosched.c:2160-2174 | inserting a request keeps it |
| `CfqRuns.RepositionKeeps` | linux-2.6.32-hardened-r22/block/cfq-iosched.c:736-741 | repositioning after a front merge keeps it, also when the only request of a queue moves |
| `CfqRuns.MergeKeeps` | linux-2.6.32-hardened-r22/block/cfq-iosched.c:828-842 | merging two requests of a queue keeps it |
| `CfqRuns.CompleteKeeps` | linux-2.6.32-hardened-r22/block/cfq-iosched.c:2201-2219 | completing a request keeps the counters right |
| `CfqRuns.ResortKeeps` | linux-2.6.32-hardened-r22/block/cfq-iosched.c:639-648 | a new service position for a busy queue keeps it |
| `CfqRuns.StepKeeps` | linux-2.6.32-hardened-r22/block/cfq-iosched.c:426-801 | every step of every run keeps it |
| `CfqRuns.AlwaysAgrees` | linux-2.6.32-hardened-r22/block/cfq-iosched.c:426-801 | in every state of every run a queue is on the service tree iff it is marked busy iff its tree is not empty iff it has a next request, FIFO and tree agree, and `busy_queues`, `queued`, `rq_queued`, `dispatched`, `sync_flight` and the leftmost cache are right |
| `CfqFifo.StepCarried` | linux-2.6.32-hardened-r22/block/cfq-iosched.c:700-850 | what each step leaves of sector, length, deadline and flags of every request |
| `CfqFifo.RunFifos` | linux-2.6.32-hardened-r22/block/cfq-iosched.c:2160-2174 | over every run that puts requests on queues of their own kind every FIFO is in order of deadlines |
| `CfqFifo.LateIsServed` | linux-2.6.32-hardened-r22/block/cfq-iosched.c:1147-1166 | in every such run a dispatch that looks at the FIFO takes a request whose time has come if there is one, and of those one with the earliest deadline; otherwise the cached one |
| `CfqRuns.PreemptsFirst` | linux-2.6.32-hardened-r22/block/cfq-iosched.c:518-522 | a queue added to the front is the next to be served, unless the first is of a better class |
| `CfqRuns.DispatchConserves` | linux-2.6.32-hardened-r22/block/cfq-iosched.c:1128-1142 | dispatching neither loses nor repeats a request |
| `CfqObject.CfqData.RbFirst` | linux-2.6.32-hardened-r22/block/cfq-iosched.c:426-435 | the object afterwards is exactly what the specification of the operation gives for the object before: the first queue, with the cache filled |
| `CfqObject.CfqData.HangQueue` | linux-2.6.32-hardened-r22/block/cfq-iosched.c:536-572 | the descent finds the place, and never turning right means first |
| `CfqObject.CfqData.ServiceTreeAdd` | linux-2.6.32-hardened-r22/block/cfq-iosched.c:524-572 | the object afterwards is exactly what the specification of the operation gives for the object before |
| `CfqObject.CfqData.AddCfqqRr` | linux-2.6.32-hardened-r22/block/cfq-iosched.c:654-662 | the object afterwards is exactly what the specification of the operation gives for the object before |
| `CfqObject.CfqData.DelCfqqRr` | linux-2.6.32-hardened-r22/block/cfq-iosched.c:668-683 | the object afterwards is exactly what the specification of the operation gives for the object before |
| `CfqObject.CfqData.RemoveRequest` | linux-2.6.32-hardened-r22/block/cfq-iosched.c:786-801 | the object afterwards is exactly what the specification of the operation gives for the object before |
| `CfqObject.CfqData.DispatchRq` | linux-2.6.32-hardened-r22/block/cfq-iosched.c:1128-1142 | the object afterwards is exactly what the specification of the operation gives for the object before |
| `CfqObject.CfqData.AddRqRb` | linux-2.6.32-hardened-r22/block/cfq-iosched.c:703-734 | the alias loop on the object: the object afterwards is exactly what the specification of the operation gives for the object before |
| `CfqObject.CfqData.InsertRequest` | linux-2.6.32-hardened-r22/block/cfq-iosched.c:2160-2174 | the object afterwards is exactly what the specification of the operation gives for the object before, and the invariant holds again |
| `CfqObject.CfqData.MergedRequest` | linux-2.6.32-hardened-r22/block/cfq-iosched.c:818-826 | the object afterwards is exactly what the specification of the operation gives for the object before, and the invariant holds again |
| `CfqObject.CfqData.MergeRequests` | linux-2.6.32-hardened-r22/block/cfq-iosched.c:828-842 | the object afterwards is exactly what the specification of the operation gives for the object before, and the invariant holds again |
| `CfqObject.CfqData.ForcedDispatchCfqq` | linux-2.6.32-hardened-r22/block/cfq-iosched.c:1231-1242 | one queue is emptied, FIFO included, and counted |
| `CfqObject.CfqData.ForcedDispatch` | linux-2.6.32-hardened-r22/block/cfq-iosched.c:1248-1262 | terminates with every queue empty, no queue busy, the counters zero, and every queued request handed over exactly once |
| `ThinkTime.DriftBounded` | linux-2.6.32-hardened-r22/block/cfq-iosched.c:1943-1952 | for histories of any length the accumulated rounding of both sums stays bounded |
| `ThinkTime.MeanBounded` | linux-2.6.32-hardened-r22/block/cfq-iosched.c:1943-1952 | for every history of samples in [m, M] the divisor is in [32, 249] and the mean in [m, M + (7M + 128) / 32] |
| `ThinkTime.IoContext.UpdateThinkTime` | linux-2.6.32-hardened-r22/block/cfq-iosched.c:1943-1952 | the object afterwards is exactly what the specification of the operation gives for the object before, with the sample cut off at twice the idle slice |
| `DispatchSort.InsertKeeps` | linux-2.6.32-hardened-r22/block/elevator.c:417-453 | insertion keeps every run of same-kind requests in elevator order, equal sectors in order of arrival, and passes no started, barrier, other-direction or other-discard request |
| `DispatchSort.RunSorted` | linux-2.6.32-hardened-r22/block/elevator.c:417-453 | any two requests of a run are in order when neighbours are |
| `DispatchSort.InsertAllSorts` | linux-2.6.32-hardened-r22/block/elevator.c:417-453 | at a fixed boundary any sequence of insertions gives a list with every run in order, without loss or doubling |
| `DispatchSort.DispatchList.Sort` | linux-2.6.32-hardened-r22/block/elevator.c:417-453 | the backward search finds the specified place |
| `DispatchSort.DispatchList.AddTail` | linux-2.6.32-hardened-r22/block/elevator.c:461-473 | a batch added at the tail in upward order leaves a list in elevator order at the boundary it reaches, wherever the boundary was before |
| `DispatchSort.TailSorted` | linux-2.6.32-hardened-r22/block/elevator.c:461-473 | the same for one addition, with what makes the next one possible |
| `DispatchSort.TailSortedIff` | linux-2.6.32-hardened-r22/block/elevator.c:461-473 | a list in order at the new boundary stays so if and only if the last request of the run does not start inside the one added |
| `MergeHash.FindAgrees` | linux-2.6.32-hardened-r22/block/elevator.c:334-354 | a lookup succeeds if and only if some queued request that may be merged ends at the sector, returns such a request, and keeps the table right while dropping stale entries |
| `MergeHash.RepositionKeeps` | linux-2.6.32-hardened-r22/block/elevator.c:328-332 | a request whose end has moved is in the bucket of its new end |
| `MergeHash.StepKeeps` | linux-2.6.32-hardened-r22/block/elevator.c:309-537 | every insert, merge, dispatch and lookup keeps each mergeable request in the bucket of its end sector; front merges leave the key |
| `MergeHash.RunKeeps` | linux-2.6.32-hardened-r22/block/elevator.c:309-537 | so does every run |
| `MergeHash.SearchKeeps` | linux-2.6.32-hardened-r22/block/elevator.c:334-354 | a lookup drops only entries that may not be merged |
| `MergeHash.ForbiddenNeverFound` | linux-2.6.32-hardened-r22/block/elevator.c:334-354 | a request marked not to be merged is never found again in any run |
| `MergeHash.CacheIsLatest` | linux-2.6.32-hardened-r22/block/elevator.c:476-540 | in every run the one-hit cache holds the request merged into last, unless it has gone since, or the first inserted into an empty cache |
| `MergeHash.DrainedOffersNothing` | linux-2.6.32-hardened-r22/block/elevator.c:556-630 | a barrier insert drains the scheduler, in whatever order it hands its requests over; after that neither hash nor one-hit cache holds anything |
| `MergeHash.NoneFromBefore` | linux-2.6.32-hardened-r22/block/elevator.c:476-509 | a request that is known and not queued is never offered again, in any run |
| `MergeHash.NoneAcrossBarrier` | linux-2.6.32-hardened-r22/block/elevator.c:476-630 | in no run behind a barrier insert is a request offered that was known before it |
| `MergeHash.Table.Find` | linux-2.6.32-hardened-r22/block/elevator.c:334-354 | the bucket walk returns and leaves what the specified search does |
| `Submission.HandledIsByLevel` | linux-2.6.32-hardened-r22/block/blk-core.c:1501-1539 | the first-in-first-out order of flattened submission is level order over the whole device stack |
| `Submission.HandledOnce` | linux-2.6.32-hardened-r22/block/blk-core.c:1501-1539 | each bio is handled exactly once: the same bios as in nested order |
| `Submission.Task.Enqueue` | linux-2.6.32-hardened-r22/block/blk-core.c:1503-1508 | storing through the tail pointer appends to the linked list |
| `Submission.Task.Handle` | linux-2.6.32-hardened-r22/block/blk-core.c:1501-1509 | bios submitted while one is handled are queued, none is handled |
| `Submission.Task.Dequeue` | linux-2.6.32-hardened-r22/block/blk-core.c:1529-1534 | taking the first bio off keeps list and tail pointer right |
| `Submission.Task.HandleAll` | linux-2.6.32-hardened-r22/block/blk-core.c:1529-1537 | the loop terminates with the list empty, everything on it and everything submitted meanwhile handled in order of submission |
| `Submission.Task.Submit` | linux-2.6.32-hardened-r22/block/blk-core.c:1501-1539 | the bio and everything submitted meanwhile is handled in that order, and the task is left inactive with an empty list |
| `Tags.TagsDiffer` | linux-2.6.32-hardened-r22/block/blk-tag.c:336-384 | live requests hold different tags |
| `Tags.StepKeeps` | linux-2.6.32-hardened-r22/block/blk-tag.c:219-384 | every start, end and resize keeps map bit, index entry and live request in agreement, and no live request loses or changes its tag |
| `Tags.RoomIff` | linux-2.6.32-hardened-r22/block/blk-tag.c:106-137 | after a resize there is room for every tag of the old map if and only if the map does not grow, is shared, or had no more tags than twice the number of requests the queue allows now |
| `Tags.GrowingShrinks` | linux-2.6.32-hardened-r22/block/blk-tag.c:219-264 | an instance in which a map of three tags with the last one live is to grow to four and gets room for two |
| `Tags.BusyIsStartOrder` | linux-2.6.32-hardened-r22/block/blk-tag.c:219-384 | over every run the busy list read backwards is the order in which the live requests were started |
| `Tags.StepReserves` | linux-2.6.32-hardened-r22/block/blk-tag.c:352-364 | async requests never hold the last two tags, or the second of two |
| `Tags.SyncFindsTag` | linux-2.6.32-hardened-r22/block/blk-tag.c:352-364 | in every run from an empty map without a resize a sync request finds a tag while fewer than two sync requests are live, or none if there are two tags only |
| `Tags.AsyncStaysBelow` | linux-2.6.32-hardened-r22/block/blk-tag.c:352-364 | in every run from an empty map without a resize no async request holds one of the last two tags, or the second of two |
| `Tags.RefusedIff` | linux-2.6.32-hardened-r22/block/blk-tag.c:352-372 | a sync request gets the lowest free tag, an async one the lowest free tag not kept; it gets none if and only if there is none, or more async requests are in flight than there are tags not kept |
| `Tags.ResizedIff` | linux-2.6.32-hardened-r22/block/blk-tag.c:219-270 | after a resize a sync request finds a tag if and only if one below the new depth is free, a shared map that would have to grow keeping its depth |
| `TagQueue.Queue.constructor` | linux-2.6.32-hardened-r22/block/blk-tag.c:106-137 | an empty map of the clamped depth |
| `TagQueue.Queue.PickTag` | linux-2.6.32-hardened-r22/block/blk-tag.c:352-372 | the tag the specification gives, which Tags.RefusedIff pins down |
| `TagQueue.Queue.StartTag` | linux-2.6.32-hardened-r22/block/blk-tag.c:336-384 | the object afterwards is exactly what the specification of the operation gives for the object before on the arrays |
| `TagQueue.Queue.EndTag` | linux-2.6.32-hardened-r22/block/blk-tag.c:281-315 | the object afterwards is exactly what the specification of the operation gives for the object before on the arrays |
| `TagQueue.Queue.ResizeTags` | linux-2.6.32-hardened-r22/block/blk-tag.c:219-264 | says exactly when the old map would be copied into a smaller one; otherwise the object afterwards is exactly what the specification of the operation gives for the object before: a smaller depth, an error for a shared map, or a larger map with the old entries copied |
| `TagQueue.Queue.InvalidateTags` | linux-2.6.32-hardened-r22/block/blk-tag.c:398-404 | every tag is free and the requests are at the head of the queue in the order they were started |
| `Cbc.RoundTrip` | linux-2.6.32-hardened-r22/crypto/cbc.c:42-167 | decryption undoes encryption for every block cipher, and both end with the same chaining value |
| `Cbc.EncryptedAt` | linux-2.6.32-hardened-r22/crypto/cbc.c:42-112 | every ciphertext block is the cipher applied to the byte-wise sum of the plaintext block and the ciphertext block before it, or the initial value |
| `Cbc.DecryptedAt` | linux-2.6.32-hardened-r22/crypto/cbc.c:114-191 | every plaintext block is the byte-wise sum of the inverse cipher applied to the ciphertext block and the ciphertext block before it, or the initial value |
| `Cbc.EncryptSplit` | linux-2.6.32-hardened-r22/crypto/cbc.c:90-112 | work split at any block boundary gives the same bytes and chaining value |
| `Cbc.DecryptSplit` | linux-2.6.32-hardened-r22/crypto/cbc.c:169-191 | the same for decryption |
| `Cbc.ChunksEncrypt` | linux-2.6.32-hardened-r22/crypto/cbc.c:90-112 | any division into whole-block chunks equals the whole |
| `Cbc.ChunksDecrypt` | linux-2.6.32-hardened-r22/crypto/cbc.c:169-191 | the same for decryption |
| `Cbc.ChunkedRoundTrip` | linux-2.6.32-hardened-r22/crypto/cbc.c:90-191 | however both sides are divided, decryption gives the plaintext back |
| `CbcBuffers.XorInto` | linux-2.6.32-hardened-r22/crypto/algapi.c:891-907 | the ranges may lie in one buffer if they do not overlap |
| `CbcBuffers.EncryptSegment` | linux-2.6.32-hardened-r22/crypto/cbc.c:42-64 | out of place: ciphertext, chaining value and bytes left over |
| `CbcBuffers.EncryptInPlace` | linux-2.6.32-hardened-r22/crypto/cbc.c:66-88 | in place: the same three results as out of place |
| `CbcBuffers.DecryptSegment` | linux-2.6.32-hardened-r22/crypto/cbc.c:114-138 | out of place: plaintext, chaining value and bytes left over |
| `CbcBuffers.DecryptInPlace` | linux-2.6.32-hardened-r22/crypto/cbc.c:140-167 | in place from the last block to the first: the same three results as out of place |
| `Spawns.ClosedIsReachable` | linux-2.6.32-hardened-r22/crypto/algapi.c:131-178 | a closed set of reachable spawns is the set of all reachable spawns |
| `Spawns.PushKeeps` | linux-2.6.32-hardened-r22/crypto/algapi.c:150-165 | descending to the next user keeps the walk invariant |
| `Spawns.PopKeeps` | linux-2.6.32-hardened-r22/crypto/algapi.c:84-105 | taking a finished spawn off the stack keeps it |
| `Spawns.WalkEnds` | linux-2.6.32-hardened-r22/crypto/algapi.c:131-178 | when nothing is left the spawns collected are exactly the reachable ones |
| `Spawns.WalkEmpties` | linux-2.6.32-hardened-r22/crypto/algapi.c:131-178 | the finished walk has emptied the lists of the algorithm and of what depends on it, and no other |
| `SpawnRegistry.Registry.WalkUsers` | linux-2.6.32-hardened-r22/crypto/algapi.c:131-170 | the walk terminates on every graph, cyclic ones too, collects each reachable spawn once, and meets its assertion if and only if the algorithm depends on itself |
| `SpawnRegistry.Registry.Descend` | linux-2.6.32-hardened-r22/crypto/algapi.c:151-165 | the inner loop terminates with the list it is at empty, having turned only to new reachable spawns |
| `SpawnRegistry.Registry.RemoveSpawn` | linux-2.6.32-hardened-r22/crypto/algapi.c:107-129 | the object afterwards is exactly what the specification of the operation gives for the object before, with each early return |
| `SpawnRegistry.Registry.KillInstances` | linux-2.6.32-hardened-r22/crypto/algapi.c:172-177 | an instance with several spawns dies once |
| `SpawnRegistry.Registry.RemoveSpawns` | linux-2.6.32-hardened-r22/crypto/algapi.c:131-178 | without a replacement: the walk, then the deaths; user lists, targets, the dead, the destroyed and what stays registered |
| `SpawnRegistry.Registry.RemoveAlg` | linux-2.6.32-hardened-r22/crypto/algapi.c:373-385 | refused if not registered; otherwise exactly the algorithm and the instances that depend on it die, their user lists are empty, and every other list, spawn and algorithm is as before |

## Left out

- The daemon and test programs of the repository, and all of the kernel outside the files
  cited above: they would add only plumbing.
- Key schedules of Camellia (`camellia_setup128` and `camellia_setup256`): the cipher
  theorem is for all subkeys, so it does not depend on how they are derived. S-boxes are
  parameters.
- The child block cipher of CBC is a parameter; the scatter walk of `blkcipher_walk` is
  represented by a division into chunks. The mask `nbytes & (bsize - 1)` is modelled as
  the remainder, which it equals because the template admits only block sizes that are
  powers of two.
- CbcBuffers.EncryptSegment: called with at least one block, as the scatter walk ensures;
  the source, destination and chaining buffers are different arrays.
- Integer widths, except the 16-bit `max_sectors` of bio merges: sizes, sectors, jiffies,
  counters and the CFQ service keys do not wrap.
- Bios are values inside a request: sharing of one bio by two chains is not expressible.
  Bounce pages, integrity data beyond the flag, and I/O statistics are left out.
- RequestObject.Request.MapSg: the loop over the pieces only; padding and the drain buffer
  are left out, as is the end mark on the last entry.
- RequestPool.SegmentCountBoundsList: bios without data must be barriers; what happens
  otherwise is the subject of RequestLimits.JointCountBounds and RequestLimits.JointCountIff.
- RequestLimits.JointCountIff: when a bio with data meets one without, the source compares
  with a piece that is not there; the model says not contiguous.
- RequestObject.Request.UpdateRequest: a completion that ends inside a discard behind its
  payload is left out, as are bios of size zero and empty pieces; the source then walks past
  the last piece. The bio error state is left out.
- Completion.UpdateServable: the same.
- Completion.UpdateGood: the same.
- Completion.AdvanceComposes: stated for every number of bytes, but a faithful account of
  the source only where neither cut is inside a discard behind its payload.
- Completion.UpdateComposes: the same.
- RequestLife.LifeKeepsInv: the same, and empty barriers, which have no bytes to complete.
- BarrierSafety.DriverAlwaysSafe: ordering by drain, in all its flush modes; ordering by
  tag, requests that are not filesystem requests, insertion at the front and merging while
  a barrier runs are left out. Requeues and errors are included.
- BarrierQueue.RequestQueue.NextRequest: when the elevator declines is free in the model.
- BarrierProgress.AllIsDone: for a driver that gives nothing back; requests the elevator still
  holds are not counted, since the model leaves open when it dispatches.
- DeadlineFairness.ExpiredIsServed: the tunables are fixed over a run.
- DeadlineBatch.NextIsTaken: while nothing is submitted or merged between the two calls.
- CfqFifo.LateIsServed: requests are put on queues of their own kind, as `cfq_set_request`
  chooses them; the flag that limits the look at the FIFO to once a slice is a parameter.
- CfqRuns.AlwaysAgrees: priority trees, cooperating queues, idling timers, changes of
  priority and the pending-metadata count are left out. The service key of a queue and the
  choice of the queue to serve are free in the model, so every policy is covered.
- CfqRuns.DispatchKeeps: the requests in flight are listed in the order they leave the
  scheduler; where `elv_dispatch_sort` puts them is the subject of `DispatchSort`.
- CfqChoice.NextOfBest: for the requests of one queue that are alike in being sync and
  metadata, while the head stays where it is.
- CfqObject.CfqData.ServiceTreeAdd: the key is a parameter; how the source computes it
  from slices is left out.
- ThinkTime.MeanBounded: the seek-distance mean, which has the same form, is left out.
- MergeHash.FindAgrees: the hash function is a parameter; front-merge candidates of the
  schedulers are left out.
- Tags.StepKeeps: a growing resize of a map that is not shared must leave room for the old
  map after the depth has been clamped to twice the number of requests: the source otherwise
  copies past the end of the new one, and TagQueue.Queue.ResizeTags says when. Concurrent use
  of a shared map is left out.
- Tags.SyncFindsTag: for runs without a resize, since a smaller depth moves the tags kept.
- TagQueue.Queue.InvalidateTags: while no barrier is in progress.
- Submission.Task.Handle: a driver is represented by the bios it submits; remapping, the
  checks in front of it and the loop that retries are left out.
- SpawnRegistry.Registry.RemoveSpawns: replacement by a new algorithm, and with it the
  branch of `crypto_more_spawns` that restores spawns, is left out. The mask test is shown
  never to hold a spawn back.
- SpawnRegistry.Registry.RemoveSpawn: reference counts, notification and destruction are
  left out.
