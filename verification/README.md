# Slipstream sync engine: verified model

Slipstream downloads compact Zcash blocks in parallel, hands them to a scanner
in order, grafts commitments into a wallet's shard trees, and reports progress
and quiescence to the host app. This project models the parts of it that are
state machines or algorithms, and proves what they promise.

- **Ordered fetch** (`FetchPlan`, `StreamPump`, `Continuity`, `FetchProtocol`
  and the `Fetch*` proofs). Workers, admission gate, reorder stage, byte-budgeted
  queue and consumer are one step system; every theorem is about every
  interleaving. `FetchDelivery` says what holds for streams that deliver any
  blocks whatever, `FetchWellBehaved` and `FetchTermination` what holds when a
  stream yields consecutive heights from where it was opened, never past its
  chunk's end, and then ends, breaks or goes silent at any point. `FetchBounds`
  and `FetchRetries` hold for any streams: what is buffered and held in bytes, and
  when a worker gives up.
- **Graft accumulator, restart and sweep** (`GraftBuffer`, `ShardAccumulator`,
  `AccumulatorLaws`, `ShardVerdicts`, `CrashResume`, `PendingRows`, `RescanWalks`,
  `GraftSweep`). Commitments are split into shards of 65,536 positions, buffered,
  built or closed; a restarted range resumes a buffered run; the sweep decides
  which blocks to scan again.
- **Batched Merkle hashing** (`PrimeField`, `SinsemillaMessage`, `Sinsemilla`,
  `ChordLaw`, `BatchSinsemilla`, `LookupBuild`). The reference is the Sinsemilla hash with
  incomplete addition (section 5.4.1.9 of the Zcash Protocol Specification) and
  the Orchard Merkle hash (section 5.4.1.3). Field elements are integers modulo a
  prime `p`; that `p` is prime is the only thing assumed about it besides its
  size, and it is a hypothesis of the theorems, not an axiom.
- **Host-facing state** (`DownloadFailures`, `FailureReports`, `ProgressPermille`,
  `ProgressRounds`, `StopQuiescence`, `EventRing`, `Calendar`). Clocks are
  arguments; concurrent threads are steps of a step system.

Four guarantees hold of the code under a condition only. Each has a concrete
failing case and the exact condition.

- A successful fetch covers its plan if and only if the first block received is
  the plan's first one (`OkFetchExactIff`, `FirstBlockUnchecked`): nothing checks
  the height of the first block.
- Restarting a range restores the accumulator if and only if what was fed does not
  end on a shard boundary and the store flag says whether the store holds content
  of the shard, from before the range or built by it (`CrashResumeEquivalence`,
  `BoundaryCutReached`).
- Scanned stretches are ascending and disjoint if and only if no pending range
  that ends before it starts leaps back over the gap in front of it
  (`StretchesIff`, `MalformedOverlaps`). Their heights are right in any case.
- A progress re-baseline is undone by a poll that read before it and folds after
  it, if and only if that poll read above the new seed (`StaleFold`,
  `StaleFoldMasks`).

One more difference: the comments of `batch_sinsemilla.rs` say non-canonical
nodes take the scalar path; the code takes it for degenerate chains only, and
the model does the same.

## Model

| member | source | states |
|---|---|---|
| FetchPlanning.ChunkCountBounds | core/src/fetch.rs:135-137 | a chunk index is counted exactly when its first block is in the range; there is always a chunk |
| FetchPlanning.ChunksTile | core/src/fetch.rs:135-148 | the plan chunks are non-empty, follow each other without gap or overlap, start at the plan's start and end at its end |
| FetchPlanning.WorkersBound | core/src/fetch.rs:150-153 | the worker count is the largest number within the streams asked for, at least one, and the chunks there are |
| StreamPump.ChunkSplitter.Push | core/src/fetch.rs:283-295 | yields the accumulated blocks exactly when the next block would overflow the budget; nothing is lost or reordered |
| StreamPump.ChunkSplitter.TakePartial | core/src/fetch.rs:309-316 | hands over everything accumulated and starts again from empty |
| StreamPump.TakeBlock | core/src/fetch.rs:558-585 | a block goes into the splitter and what it yields, or what has waited too long, comes out, as one turn of the pump says |
| StreamPump.Emit | core/src/fetch.rs:417-452 | a hand-on appends the sub-chunk and moves the cursor past it; a failed one changes nothing |
| StreamPump.PumpBlockStream | core/src/fetch.rs:501-586 | the loop over the splitter computes the item-by-item meaning of the pump while the reorder stage takes its sub-chunks; once it is gone the pump has handed on exactly the first ones it took and the cursor stands right after them |
| StreamPump.PumpContinues | core/src/fetch.rs:501-586 | on a well-behaved stream an attempt continues its plan chunk exactly: dense indices, consecutive heights, the last mark only where the chunk ends, every sub-chunk within budget or a single block |
| StreamPump.PumpConserves | core/src/fetch.rs:462-586 | on any stream whatever, every block received is handed on, in order, and the attempt completes exactly when the stream ends cleanly on the chunk's end; only a tail that ends the chunk without a clean end is kept back, and it fits one sub-chunk |
| StreamPump.SplitsGreedily | core/src/fetch.rs:283-295 | while no block comes late, no sub-chunk had room for the block that follows it |
| StreamPump.LateHandsOn | core/src/fetch.rs:564-584 | a late block that is not the chunk's last leaves nothing waiting from before it, and waits itself only where the blocks before it filled a sub-chunk |
| StreamPump.RunAttempt | core/src/fetch.rs:589-632 | an attempt is a failed open, which changes nothing, or the pump on what was served; it keeps the run exact, reports progress exactly when the cursor moved, leaves the cursor after everything delivered unless that ends the chunk without a clean end, and completes exactly on a clean end there |
| StreamPump.RetryLoop | core/src/fetch.rs:655-711 | attempts stay within the budget of the blocks not handed on; the whole chunk is one exact run; every attempt but the last was followed by another, and the loop gives up only when the connection did not come back or the last retries + 1 attempts each left the chunk where it was |
| StreamPump.FetchPlanChunk | core/src/fetch.rs:655-711 | a chunk of B blocks completes or fails after at most B times (retries + 1) stream attempts; what was handed on is one dense, exact run; it gives up only on a lost connection or after retries + 1 attempts in a row that handed on nothing |
| ChainContinuity.VerifyExtendsRun | core/src/verify.rs:34-67 | a batch passes after a linked run if and only if the longer run is linked and its heights fit 32 bits; the frontier is then the longer run's |
| ChainContinuity.VerdictMeaning | core/src/verify.rs:34-67 | which check refuses a block after a linked run: too high for 32 bits, not the next height, or the next height naming another parent |
| ChainContinuity.Continuity.VerifyBlocks | core/src/verify.rs:34-67 | accepts exactly the batches that verify; on failure the frontier stands after the last good block |
| FetchSteps.RunKeeps | core/src/fetch.rs:640-951 | every reachable state keeps the protocol invariant: channel order, claims, release cursor, buffer contents, permit and queue accounting, linkage of what was delivered |
| FetchBounds.BufferBounded | core/src/fetch.rs:345-386 | in every reachable state every buffered sub-chunk but the next to release holds permits for its bytes, at least one and no more, and their bytes, each counted up to the cap, together fit the cap of eight split budgets; the next one is in the buffer only while the stage drains |
| FetchBounds.WaitingBufferBounded | core/src/fetch.rs:896-948 | so the bytes of the whole buffer are bounded whenever the stage waits, for an arrival or for queue budget |
| FetchBounds.BufferedBytes | core/src/fetch.rs:330-386 | where no block exceeds the split budget, the bytes buffered ahead never exceed eight split budgets, whatever the streams deliver |
| FetchBounds.AdmittedIff | core/src/fetch.rs:366-386 | in every reachable state a worker ahead of the floor is admitted exactly while its bytes, up to the cap, fit beside everything that holds permits, and the floor's worker always is |
| FetchBounds.QueueBounded | core/src/chunk.rs:124-149 | in every reachable state the bytes of the chunks the consumer holds, each counted up to the budget, fit the queue's budget, and the chunk in hand is let in exactly while its own fit beside their permits |
| FetchBounds.ChannelBounded | core/src/fetch.rs:1075-1076 | the channel never holds more than one sub-chunk per worker |
| FetchBounds.FailureRecorded | core/src/fetch.rs:953-963 | over every run, a fetch that a worker fails records one past the last delivered block, or the plan's start, as long as that is in the plan; one that the release stage fails records none |
| FetchRetries.RunTallies | core/src/fetch.rs:672-706 | in every reachable running state a worker's attempt number is one more than the attempts in a row on its chunk that failed without handing on anything, counted off the run's steps, and those are at most the retries |
| FetchRetries.GivesUpIff | core/src/fetch.rs:683-706 | over every run, a worker that opens, streams or sends fails the fetch exactly when that step ends the last of retries + 1 attempts in a row on its chunk that handed on nothing |
| FetchProgress.NeverStuck | core/src/fetch.rs:640-951 | in every reachable running state some worker, the release stage or the consumer can step, without any stream above the floor and without an attempt failing |
| FetchProgress.AdvancesSafely | core/src/fetch.rs:640-951 | those steps never give the download up; the fetch runs on, completes, or refuses blocks that do not continue the chain |
| FetchProgress.NeverIncomplete | core/src/fetch.rs:1117-1122 | a fetch that ends without a failure has released every plan chunk, whatever the streams delivered |
| FetchDelivery.DeliveredLinked | core/src/fetch.rs:896-948 | for any streams, everything handed to the queue is height-consecutive and hash-linked wherever a parent hash is present |
| FetchDelivery.OkFetchAnyStream | core/src/fetch.rs:529-536 | for any streams, a successful fetch ends each plan chunk at its end and covers every chunk after the first exactly |
| FetchDelivery.OkFetchExactIff | core/src/verify.rs:43-45 | for any streams, a successful fetch covers its plan exactly if and only if its first block is the plan's first |
| FetchDelivery.FirstBlockUnchecked | core/src/verify.rs:43-45 | a fetch that succeeds without having delivered the plan's first block |
| FetchWellBehaved.OrderedExactDelivery | core/src/fetch.rs:850-951 | with well-behaved streams, what the queue has received is always the plan's blocks from its start without gap or repeat, the release cursor is the next one, and a successful fetch delivered the whole plan |
| FetchWellBehaved.SubChunksExact | core/src/fetch.rs:417-452 | every sub-chunk ever sent is non-empty, within budget or a single block, densely indexed, and marked last exactly when it ends its chunk |
| FetchTermination.StepLowers | core/src/fetch.rs:640-951 | with well-behaved streams every step that does not end the fetch lowers a bound on the steps left |
| FetchTermination.FetchTerminates | core/src/fetch.rs:1050-1138 | with well-behaved streams, however they break and are retried, every run stops within a number of steps the plan alone fixes |
| GraftBuffer.RetentionRoundTrip | core/src/graft.rs:125-167 | a stored retention reads back if and only if its checkpoint height fits 32 bits |
| GraftBuffer.AppendAt | core/src/graft.rs:170-208 | appending replaces exactly the keys of the rows and touches no other |
| Accumulation.ShardAccumulator.constructor | core/src/graft_accumulator.rs:131-156 | the seeded state |
| Accumulation.ShardAccumulator.EnterShard | core/src/graft_accumulator.rs:160-259 | close on transition: a clean shard is closed whole, a noted one builds what is pending |
| Accumulation.ShardAccumulator.AbsorbSpan | core/src/graft_accumulator.rs:160-259 | build, build on first note, or buffer |
| Accumulation.ShardAccumulator.FeedItems | core/src/graft_accumulator.rs:160-249 | the loop over shard spans computes the feed the laws below are about |
| Accumulation.ShardAccumulator.FinishRange | core/src/graft_accumulator.rs:252-259 | what is pending is built, never closed clean, and nothing stays open |
| AccumulatorLaws.Conservation | core/src/graft_accumulator.rs:131-259 | over any feeds and the finish, the built and closed rows in emission order are the resumed run followed by every fed row, each position once and ascending |
| AccumulatorLaws.ClosesAreComplete | core/src/graft_accumulator.rs:160-249 | a clean close carries all rows of its shard in the range and no other shard's |
| AccumulatorLaws.BufferingInMemory | core/src/graft_accumulator.rs:160-249 | while a shard buffers, its rows in memory are the resumed run plus every row buffered for it, at most a shard's worth |
| AccumulatorLaws.NoteSafety | core/src/graft_accumulator.rs:160-259 | the row of an owned note is built by the call that reports it, and its shard is never closed clean, before or after |
| ShardVerdicts.CleanCloseIff | core/src/graft_accumulator.rs:160-249 | over any seed and feeds, a shard is closed clean if and only if the range entered it and went on to a later one, no call reported a note among the positions of it that it fed, and it is not the start's shard with the store flag set |
| ShardVerdicts.RowFate | core/src/graft_accumulator.rs:215-244 | a row is built by the very call that feeds it when its shard had content in the store or has a note reported by that call or an earlier one, and buffered by that call otherwise |
| AccumulatorLaws.OffBoundaryIff | core/src/graft_accumulator.rs:160-249 | the open shard is the next position's unless what was fed ends exactly on a shard boundary |
| AccumulatorLaws.PassthroughIff | core/src/graft_accumulator.rs:160-249 | over any feeds the open shard passes rows through exactly when the store held content of it at the seed or the range built some of it |
| CrashResume.ResumableRun | core/src/graft_accumulator.rs:88-115 | finds the longest contiguous run that ends on the frontier leaf right before the start, and whether any row was left out |
| CrashResume.ResumesOwnForkOnly | core/src/graft_accumulator.rs:99-109 | something is resumed exactly when the buffer holds the very commitment the chain state ends on, right before the start, with the same hash |
| CrashResume.ResumableUnique | core/src/graft_accumulator.rs:68-115 | there is only one such run |
| CrashResume.RangeMirrors | core/src/graft.rs:26-45 | over any feeds the committed buffer table mirrors the accumulator's open shard |
| PendingRows.TableHoldsPending | core/src/graft.rs:26-45 | after any committed calls, of all positions a range has seen, resumed or fed, the table holds exactly those still pending in the open shard: every built or closed row is gone |
| CrashResume.SeedMirrors | core/src/graft.rs:308-325 | a seed from the loaded shard, with the positions to be fed again deleted, starts mirrored |
| CrashResume.ResumeRestores | core/src/graft_accumulator.rs:88-115 | from a mirrored table and the true frontier leaf the resumable run is the open shard's rows |
| CrashResume.CrashResumeEquivalence | core/src/graft_accumulator.rs:131-259 | a restart restores the pre-cut state if and only if the feeds did not end on a shard boundary and the store flag says whether the store holds content of the next position's shard, from before the range or built by it; the rest of the range then emits what the uncut one would |
| CrashResume.SeenLeafIsTrue | core/src/graft_accumulator.rs:88-115 | the frontier leaf of the last position the range saw is the one a restart needs |
| CrashResume.BoundaryCutDropsClose | core/src/graft_accumulator.rs:160-249 | from any boundary cut of a buffering shard, the uncut range closes the finished shard with its next feed and a restarted one never does |
| CrashResume.BoundaryCutReached | core/src/graft_accumulator.rs:160-249 | such a cut: a range from position 0 after one whole shard without a note |
| CrashResume.CrashBeforeCommit | core/src/graft.rs:170-208 | rows appended by a call that did not commit leave the table mirrored |
| CrashResume.StaleRunRebuilt | core/src/graft.rs:31-39 | after a crash between a commit and its deletes, a later range that resumes the stale rows on a shard with store content resumes the very rows that were seen at those positions and builds them again with its first span |
| RescanWalks.FirstBlockPast | core/src/graft.rs:583-601 | the binary search finds the first block past a position, and finds it exactly when the stretch's end and the search path have known sizes |
| RescanWalks.VisitStretch | core/src/graft.rs:506-577 | what either walk reads of one stretch, from known sizes only, is what the true sizes say; it fails exactly when a size it reads is missing |
| RescanWalks.WalkFromOldest | core/src/graft.rs:550-577 | it places a run exactly when every stretch up to the one the run ends in is known as far as a visit reads it, and then returns the reference ranges |
| RescanWalks.WalkFromNewest | core/src/graft.rs:506-545 | it places a run exactly when every stretch down to the one the run is seen to begin in is known as far as a visit reads it, and then returns the same ranges |
| RescanWalks.RescansFor | core/src/graft.rs:487-501 | a run is placed exactly when one of the walks can, in particular when every size is known, and whichever does, the ranges are the same |
| RescanWalks.RescansAreReached | core/src/graft.rs:468-577 | height by height, the ranges are the blocks a forward scan of the run would reach |
| RescanWalks.RescansOrdered | core/src/graft.rs:468-577 | the ranges are non-empty, ascending, disjoint and inside the stretches |
| RescanWalks.RescansSound | core/src/graft.rs:468-577 | every scanned block that holds a position of the run is in a range |
| GraftSweep.ContiguousRuns | core/src/graft.rs:331-340 | maximal runs: separated by gaps, covering exactly the positions |
| GraftSweep.FirstSeeders | core/src/graft.rs:356-373 | a shard is trusted to exactly the first range that seeds it with no unknown start before it |
| GraftSweep.StrandedRuns | core/src/graft.rs:383-389 | every position is in a stranded run except those bridged to the position a seed resumes at |
| GraftSweep.CoverIff | core/src/graft.rs:435-439 | the window check accepts exactly one row per position of the run, in order |
| GraftSweep.ScannedStretches | core/src/graft.rs:443-466 | the heights of the span that no pending range covers, in non-empty stretches within it, ordered when the pending ranges are well formed |
| GraftSweep.StretchesIff | core/src/graft.rs:443-466 | the stretches are ascending and disjoint if and only if no pending range leaps back over the gap in front of it |
| GraftSweep.MalformedOverlaps | core/src/graft.rs:443-466 | a range that ends before it starts and makes two stretches overlap |
| GraftSweep.SweepRescansRun | core/src/graft.rs:443-577 | stretches and walks together: a scanned block that holds a position of the run is scanned again, and no unscanned one is |
| GraftSweep.PlanRescans | core/src/graft.rs:443-577 | the two steps together, on values: the run is placed exactly when one of the walks can on the scanned stretches, in particular when every size of the span is known, with the reference ranges: ordered, holding every scanned block with a position of the run and no unscanned one |
| PrimeField.Inverse | core/src/batch_sinsemilla.rs:125-125 | every non-zero residue of a prime has an inverse |
| PrimeField.NoZeroDivisors | core/src/batch_sinsemilla.rs:112-125 | a product of non-zero residues of a prime is non-zero, so the shared inversion never fails |
| SinsemillaMessage.BitOfBytes | core/src/batch_sinsemilla.rs:93-98 | bit i of a node's integer is bit i mod 8 of byte i / 8 |
| SinsemillaMessage.BitsRoundTrip | core/src/batch_sinsemilla.rs:85-98 | an integer below 2^len is the value of its low len bits |
| SinsemillaMessage.SpreadBits | core/src/batch_sinsemilla.rs:88-98 | the 520 bits filled from bytes are the level and node integers' bits |
| SinsemillaMessage.ReadPiece | core/src/batch_sinsemilla.rs:99-108 | ten bits are read as one little-endian integer |
| SinsemillaMessage.ChunkIndices | core/src/batch_sinsemilla.rs:88-110 | the chunk indices computed from bytes are the ten-bit pieces of the message over the integers the nodes encode |
| SinsemillaMessage.MessageIsInteger | core/src/batch_sinsemilla.rs:85-110 | the pieces of a message are the base-1024 digits of level + 2^10 left + 2^265 right |
| ChordLaw.AddIsChord | core/src/batch_sinsemilla.rs:171-185 | on any curve y^2 = x^3 + k the sum of two points with different x is the one point c with x^3 + k - L(x)^2 = (x - a.x)(x - b.x)(x - c.x) for every x and c.y = -L(c.x), L the line through them with any integer for its slope; it is on the curve |
| ChordLaw.ChainOnCurve | core/src/batch_sinsemilla.rs:136-190 | a domain whose points are on the curve has every chain on it |
| Sinsemilla.BottomIffDegenerate | core/src/batch_sinsemilla.rs:162-166 | a chain is undefined exactly when one of its additions meets two points sharing an x |
| Sinsemilla.CombineValue | core/src/batch_sinsemilla.rs:207-241 | the combine is zero where an addition of its chain is undefined, and the x of the chain's end everywhere else |
| Sinsemilla.EncodingRoundTrip | core/src/batch_sinsemilla.rs:232-241 | element and canonical 32-byte encoding determine each other |
| BatchSinsemilla.BatchInvert | core/src/batch_sinsemilla.rs:114-131 | in place, every element becomes its own inverse, with one inversion |
| BatchSinsemilla.Lanes.Gather | core/src/batch_sinsemilla.rs:146-169 | each lane gets its half-step's operand and a non-zero denominator, and dies exactly when the addition is undefined |
| BatchSinsemilla.Lanes.Advance | core/src/batch_sinsemilla.rs:171-185 | each live lane moves to its chain's next half-step and stashes the accumulator after a first half |
| BatchSinsemilla.WalkBatch | core/src/batch_sinsemilla.rs:136-190 | for any batch, each result is that of its own message's scalar chain: none exactly when it is undefined, else its x |
| BatchSinsemilla.CombineChunk | core/src/batch_sinsemilla.rs:212-227 | one batch of any width gives each pair its own value |
| BatchSinsemilla.BatchCombine | core/src/batch_sinsemilla.rs:211-228 | on canonical nodes the batched value is the scalar combine |
| BatchSinsemilla.OrchardCombineBatch | core/src/batch_sinsemilla.rs:195-228 | for any number of pairs, each canonical pair gets the encoded Merkle combine |
| LookupBuild.KeyInjective | core/src/lookup_build.rs:54-60 | a key stands for one level and one pair of elements |
| LookupBuild.LookupTransparent | core/src/lookup_build.rs:73-83 | with any sound table, or none, the looked-up combine is the plain combine |
| LookupBuild.LevelParents | core/src/lookup_build.rs:103-107 | one batch call yields the encoded combine of every pair of a level |
| LookupBuild.RecordLevel | core/src/lookup_build.rs:103-118 | one level adds exactly its pairs' keys, each with its combine, and yields the parents |
| LookupBuild.PrecomputeShardMap | core/src/lookup_build.rs:89-123 | ends for every leaf count with a table of exactly the padded tree's pairs, each mapped to its combine |
| LookupBuild.TableIsTree | core/src/lookup_build.rs:89-123 | those keys are exactly the pairs, level by level, of the complete tree over the leaves and uncommitted leaves to their right that stand above some leaf |
| LookupBuild.BuildTransparent | core/src/lookup_build.rs:127-137 | any tree built through a sound table and converted is the tree built directly |
| LookupBuild.LookupThread.BuildChunk | core/src/lookup_build.rs:153-180 | a chunk's tree, address and checkpoints are the plain ones, the converted tree always fits its address, and the thread's table is gone afterwards |
| LookupBuild.LookupThread.BuildSubtrees | core/src/lookup_build.rs:142-183 | the lookup build gives the same located subtrees and checkpoints as the plain build, chunk by chunk |
| LookupBuild.SubtreesSplit | core/src/lookup_build.rs:142-183 | cutting the leaves after whole chunks cuts the result there, at the right positions, and what fits one chunk is built as one |
| DownloadFailures.FailureRuns.NoteGaveUp | core/src/events.rs:416-471 | the recorded run stays; over the bound the least recently failed other run goes |
| DownloadFailures.FailureRuns.NotePassCompleted | core/src/events.rs:473-477 | every run ends |
| DownloadFailures.FailureRuns.BeginSession | core/src/events.rs:489-502 | every run ends |
| DownloadFailures.FailureRuns.NoteAttemptFailed | core/src/events.rs:509-517 | runs end unless the download gave up in this attempt |
| DownloadFailures.FailureRuns.NoteBlocksReleased | core/src/events.rs:526-556 | exactly the runs at released blocks end |
| DownloadFailures.FailureRuns.DownloadFailureSecs | core/src/events.rs:591-602 | the longest time since a live run's first give-up, 0 without one |
| DownloadFailures.BoardOk | core/src/events.rs:416-450 | after any history with a non-decreasing clock: at most eight runs, each under its own block, with since at most last at most since + 600 (streak - 1) below saturation |
| DownloadFailures.RecordedStays | core/src/events.rs:440-450 | the run just recorded is never the one evicted |
| DownloadFailures.FindLeastRecent | core/src/events.rs:440-450 | the lowest block among the least recently failed runs other than the recorded one |
| DownloadFailures.FlagIsBlame | core/src/events.rs:509-517 | the attempt flag is set exactly when the download gave up since the last pass, session or attempt boundary |
| DownloadFailures.RunHasWitness | core/src/events.rs:416-556 | every run on the board counts exactly the give-ups at its block since one that no release, completed pass, new session or blameless failure has followed |
| DownloadFailures.FailureIsReal | core/src/events.rs:591-602 | a non-zero report names a block with two give-ups and nothing ending the run between them and now, and counts from the first |
| FailureReports.EvictionIff | core/src/events.rs:440-450 | least-recent eviction read off the history: a give-up elsewhere leaves a run in place while fewer than eight other blocks are failing since its clock or later, and drops it once eight are failing since after it; exact when no other block failed in that second |
| FailureReports.CrowdedOut | core/src/events.rs:440-450 | eight other blocks failing since later leave no room for a run |
| FailureReports.FailureIsReported | core/src/events.rs:591-602 | conversely a block stuck that way is reported for at least its whole span, over any life of the record, while at no give-up elsewhere eight other blocks were failing as recently |
| ProgressPermille.BlendMonotone | core/src/ffi_handle.rs:579-610 | with saturating arithmetic the blend is monotone in fetched and scanned, at most 1000 and never below the pass start |
| ProgressPermille.PassIsWorkDone | core/src/ffi_handle.rs:579-592 | the pass value is the rounded-down permille of the blocks fetched and the blocks scanned since the baseline, each capped at the total, out of twice the total |
| ProgressPermille.HalfWay | core/src/ffi_handle.rs:579-592 | everything fetched and nothing scanned, or the reverse, reads 500; both read 1000 |
| ProgressPermille.StretchIsInterpolation | core/src/ffi_handle.rs:599-610 | with a start, the value is the start plus the pass's permille, rounded down, of what the start leaves open |
| ProgressPermille.SeedIsPosition | core/src/scheduler.rs:74-86 | there is a global position exactly with a birthday at or below a known tip; it is the rounded-down permille of the blocks from birthday to tip that are not left to scan, at most 1000 |
| ProgressRounds.CountersCount | core/src/events.rs:764-772 | in every reachable state the counters are the blocks fetched and scanned since the pass began, and a pass that just began reads 0 |
| ProgressRounds.FloorStep | core/src/events.rs:639-676 | one step alone lowers the floor, the last store of a re-baselining round; it then equals the seed and the start, and the blend too if no block was counted since the baseline |
| ProgressRounds.NeverRegresses | core/src/ffi_handle.rs:579-614 | over any interleaving of passes, bumps, rounds and polls the reported value stays within 1000 and never falls between re-baselines |
| ProgressRounds.RebaselineWindow | core/src/scheduler.rs:125-178 | a poll inside a re-baselining round, once rebased, reads nothing above the floor if no block was counted since the baseline |
| ProgressRounds.WindowBumpExceeds | core/src/scheduler.rs:125-178 | a run in which blocks counted inside that window are read above the floor |
| ProgressRounds.RebaselineSticks | core/src/scheduler.rs:147-178 | after a re-baseline every poll reports the seed until the counters move, if they have not moved since the baseline and no earlier poll still has a higher value to fold |
| ProgressRounds.StaleFold | core/src/ffi_handle.rs:611-614 | a poll that read before the lowering undoes it exactly when it read above the seed |
| ProgressRounds.StaleFoldMasks | core/src/ffi_handle.rs:611-614 | a run in which that happens |
| ProgressRounds.Progress.PermilleFloor | core/src/events.rs:639-644 | folds a clamped value and returns the floor |
| ProgressRounds.Progress.RebaselineFloorIfScopeExpanded | core/src/events.rs:669-676 | lowers the floor exactly when the seed is far below it |
| ProgressRounds.Progress.UpdatePassProgress | core/src/scheduler.rs:95-187 | its sequence of stores is the round of the interleaved model |
| ProgressRounds.RoundMeaning | core/src/scheduler.rs:95-187 | what a round leaves: more than 50 below the floor, the wallet's position becomes floor, start and reading; otherwise the pass reads its completed blocks out of those and what is left, the first start stays, and the floor holds the position |
| ProgressRounds.Progress.ProgressPermille | core/src/ffi_handle.rs:579-614 | a snapshot is a read and a fold; it reports the floor |
| StopQuiescence.RunKeeps | core/src/ffi_handle.rs:332-393 | every reachable state: unfinished passes are in the slot or on record, gates are counted, a settled stop has no pass running |
| StopQuiescence.NeverForgotten | core/src/ffi_handle.rs:332-363 | an aborted unfinished pass is on record, in every reachable state |
| StopQuiescence.GatesSuffice | core/src/events.rs:886-900 | the writer count never falls below the commits in flight or a pass's gates |
| StopQuiescence.QuiescentIsQuiet | core/src/ffi_handle.rs:395-428 | a quiescent report means every pass ever spawned has finished, no commit is in flight and none can begin |
| StopQuiescence.QuietUntilStart | core/src/ffi_handle.rs:444-543 | and that stays so over any steps until the next pass is spawned |
| StopQuiescence.RefusalHasReason | core/src/ffi_handle.rs:332-393 | a settle poll ends settled exactly when nothing on record runs and refused exactly at its deadline with something running, a drain poll the same for held gates, and the report says so |
| StopQuiescence.EveryStartSpawns | core/src/ffi_handle.rs:509-530 | over every run each start spawns one pass, whatever its quiesce reports, and a stop spawns none |
| StopQuiescence.PassRecord.Settle | core/src/ffi_handle.rs:332-359 | settled exactly when every pass on record was seen finished; the others stay on record |
| EventRing.Ring.Push | core/src/ffi_handle.rs:181-198 | overflow evicts the oldest droppable event, a critical one only when nothing else is left |
| EventRing.PushKeepsCritical | core/src/ffi_handle.rs:173-198 | while fewer than 64 critical events are in the ring a push loses none of them |
| EventRing.FullRingDropsOldest | core/src/ffi_handle.rs:173-198 | a ring of 64 critical events loses its oldest with any push |
| EventRing.PushLoses | core/src/ffi_handle.rs:181-198 | a push with room appends; a push at the bound loses exactly one event, the oldest droppable one, or the oldest of all when every event is critical |
| EventRing.RingIsLatest | core/src/ffi_handle.rs:173-198 | after any history the ring is the history without its first c critical and first d droppable events, in order, and c + d is no more than the bound requires |
| EventRing.CriticalSuffix | core/src/ffi_handle.rs:173-198 | after any history the ring is within its bound and its critical events are the history's latest, all of them while fewer than 64 |
| Calendar.YearOfEraHolds | core/src/engine.rs:93-94 | the divisions find the one year of the 400-year era that holds the day |
| Calendar.EpochDay | core/src/engine.rs:83-99 | day 0 is 1970-01-01 |
| Calendar.NextNumberNextDay | core/src/engine.rs:83-99 | every day number gives a valid date and the next number the next Gregorian day |
| Calendar.CivilIsGregorian | core/src/engine.rs:83-99 | the divisions agree with counting the calendar day by day from 1970-01-01 |
| Calendar.FormatIsCalendar | core/src/engine.rs:83-99 | for every timestamp a real date, and time fields in range that recombine to the seconds of the day |

## Left out

- Network code: gRPC, Tor, TLS, connectors, probes and the endpoint failover loop are not modelled.
- SQLite statements, migrations and the scan queue: the graft buffer is a map from shard and position to row.
- persist, scheduler loop, scan, session and enhancement: only the order of commits, deletes and stores that the modelled parts rely on is used.
- Upstream cryptography and tree code: hash_to_curve, curve constants and the point group beyond incomplete addition are not modelled; the points Q and S are parameters, and `LookupBuild.Builder` stands for the upstream tree builder as any function from leaves to a tree of hash terms, so a builder that compares hashes is not covered.
- scalar_combine on non-canonical nodes: it returns zeros by design and is modelled so; no equality is claimed there.
- WireDetector, worst_window_mbps, end_check, statistics, command line, configuration and logging: easy members, or floating-point policy.
- The release stage and the workers of the fetch are steps on values, not classes: update in place is not captured, atomicity of each step is taken as given.
- Memory orderings of atomics: each store or load is one step; a poll reads all fields in one step and folds in another. An admission that waited may take permits after its chunk has become the floor; the wait itself is not a step.
- The stop request counter for a wallet change is not modelled: it shortens the wait, it does not decide the verdict.
- GraftSweep.ScannedStretches: ordering is stated for well-formed pending ranges; the exact condition is in GraftSweep.StretchesIff.
- FetchTermination.FetchTerminates: is about well-behaved streams only; a stream that delivers blocks without end can keep a worker busy for ever.
- FailureReports.FailureIsReported: needs that the map never had to drop the block's run, because an evicted run starts over; FailureReports.EvictionIff says when it does, up to give-ups at several blocks in one and the same second, where the lowest block goes first.
- GraftSweep.PlanRescans: needs stretches in order, by the exact condition of GraftSweep.StretchesIff; what the walks do on overlapping stretches is not modelled.
- ProgressRounds.RebaselineWindow: the condition, that no block is counted inside the window, is sufficient; WindowBumpExceeds shows it is needed. A poll that reads some fields before a store and some after it is not covered.
- ProgressPermille.PassIsWorkDone: is about totals up to 2^64 / 2000 blocks, as are HalfWay, RoundMeaning and the bracket of SeedIsPosition; beyond that the 64-bit arithmetic saturates and only the bounds of BlendMonotone are stated.
- StreamPump.RetryLoop: is about well-behaved streams; FetchRetries.GivesUpIff says when a worker gives up for any.
- Calendar.FormatIsCalendar: states the fields, not the zero-padded text they are printed as.
