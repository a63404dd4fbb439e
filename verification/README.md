# Models of the IKET lab's cross-GPU protocols and sweep tooling

This project models five parts of the repository and proves what each of them is for. All of it
is Dafny; `dafny verify dfyconfig.toml` checks the whole project.

* **The cross-rank MoE combine** (`scripts/nvls_combine_proto.py`). `CombineMachine` is a state
  machine: W ranks, each with one in-order stream of kernels; the work items of a kernel (one per
  16-byte chunk) happen in any order; ranks interleave freely; a reader loads its operands one by
  one into registers before it stores. `CombineOrder` shows what barriers order, `CombineRefinement`
  relates every reachable memory to a serial run of the stream, `CombineTheorems` draws the
  conclusions: both paths compute the same sum, a stream is race-free exactly when barriers separate
  its conflicting kernels, nothing gets stuck. `CombineHost` is `main()` as a class that enqueues the
  stream, `CombineKernels` the kernels as loops over CTAs, threads and predicated passes,
  `CombineIndex` the routing and address arithmetic. `CombineGrid` joins them: the routed lists are
  the state machine's owners and a write kernel is its Write; `CombineIterations` runs both paths
  on the ranks' buffers. `CombineCounterexample` is the run that goes wrong without pacing, and the
  exact guard against it.
* **The in-place two-shot all-reduce** (`patches/iket-instrumentation.diff`, the hunks of
  `gemm_allreduce_two_shot.py`). `TwoShot` is the tile-flag protocol of one CTA index over all ranks
  and any number of launches, lifted to the whole grid; `TwoShotProgress` shows that the grid always
  runs on.
* **The MXFP8 quantisation kernel** (same diff, the `DataPreprocess` hunks). `QuantPipeline` is the
  cp.async group counting, `QuantBlocks` the paired-lane block maximum, the power-of-two scale and
  the stores.
* **The resumable sweep** (`scripts/megamoe_sweep.py`, `scripts/megamoe_bf_worker.py`,
  `scripts/megamoe_bf_gen.py`). `Ledger` is the CSV ledger and its resume key, `Worker` a session's
  events and everything a watchdog kill can leave of them, `Lockstep` the collectives of all ranks,
  `Sweep`, `SweepTheorems` and `SweepCounts` the batch loop over arbitrary sequences of session
  outcomes, `SweepResults` what the ledger's rows say of the sessions and what a later sweep leaves
  out, `Orchestrator` the whole sweep as a class, `CandidateGen` the ranking of ledger rows and
  the stage-3 candidates.
* **The Latin-square driver and the trace report** (`scripts/mnnvl_protocols_iket_driver.py`,
  `scripts/mnnvl_protocol_report.py`). `LatinSquare` is the design, `Manifest` the text of the
  manifest lines and the regular expression that reads them, `LatinDriver` the driver and its log,
  `ProtocolReport` the cursor that maps launches to executions, `ProtocolTraces` the traces that the
  instrumented kernels record, `ProtocolResults` what the tables hold in the end.

`Arith`, `Folds`, `Memory`, `Optional` and `Sequences` hold shared definitions.

## Where the code and its documentation disagree

* The sweep documents its resume key as skipping finished candidates
  (`scripts/megamoe_sweep.py:298-307`). `load_done` hands the CSV text of the paced column to
  `bool()`, and `bool("false")` is true, so an unpaced candidate is never skipped and a paced one is
  skipped as soon as its unpaced twin has finished. `Ledger.ResumeRightIff` gives the exact condition
  under which the key does what it is meant to do, `Ledger.UnpacedRerunsExample` an input where it
  does not, `CandidateGen.Stage3ResumeSwapsTwins` what that means for stage 3.
* Rows written by the worker always carry closure "view", rows written by the orchestrator the
  candidate's closure (`Orchestrator.WorkerRowFoundIff`, `Orchestrator.OwnRowFoundIff`).
* The orchestrator looks for rank 0's reference output only, while every rank looks for its own;
  `Lockstep.SessionCompletesIff` says when that leaves a session stuck.
* `OffsetsExactIff`, `EveryExpertHomedIff`, `FlagsBoundedIff`, `BatchSizeBelowOne` and `BlockFitsIff`
  state the exact ranges in which the respective code does what it is for.

## Model

| member | source | states |
|---|---|---|
| CombineOrder.OrderedRun | scripts/nvls_combine_proto.py:193-201 | In every reachable state a barrier slot counts exactly the ranks that arrived, and no rank is past a barrier some rank has not reached |
| CombineOrder.SeparatedNeverRaces | scripts/nvls_combine_proto.py:401-406 | With a barrier between any two conflicting kernels, no two ranks are ever inside conflicting kernels at once |
| CombineRefinement.PInvStep | scripts/nvls_combine_proto.py:149-162 | Every step keeps each rank's copy of P equal to what a serial run up to its position gives, plus the contributions of the atomic adds done so far, in any order |
| CombineRefinement.PeerPStable | scripts/nvls_combine_proto.py:401-409 | While a rank is in the read of a run_nvls that a barrier guards, every peer's copy of P holds that peer's complete part of this round |
| CombineRefinement.NvlsInvStep | scripts/nvls_combine_proto.py:165-190 | For a guarded run_nvls every step keeps: what its reader has loaded are the peers' complete parts, and y, once stored, is their sum |
| CombineRefinement.StagingStep | scripts/nvls_combine_proto.py:97-122 | Every step keeps: a staging cell holds the contribution once its one writer has pushed it, and its old value until then |
| CombineRefinement.PeerStagingStable | scripts/nvls_combine_proto.py:396-399 | From the barrier of a run_baseline on, every staged row holds its pair's contribution, whatever pushes overlap it |
| CombineRefinement.BaseInvStep | scripts/nvls_combine_proto.py:125-146 | From that barrier on every step keeps: what any reduce has loaded are contributions, and y, once stored, is their slot-ascending fold |
| Folds.PartitionFold | scripts/nvls_combine_proto.py:306-314 | Summing per owning rank and then over ranks gives the same as summing over the top-k slots, for every routing |
| Folds.FoldSpells | scripts/nvls_combine_proto.py:134-142 | In the free monoid a fold spells its sequence out: every term once, in order, for every sequence |
| CombineTheorems.NvlsCombineCorrect | scripts/nvls_combine_proto.py:401-409 | In every legal run of any stream, y on the home rank is the sum of the token's contributions after a run_nvls, if a barrier stands between its read and the next change to P |
| CombineTheorems.BaselineCombineCorrect | scripts/nvls_combine_proto.py:396-399 | In every legal run of any stream, paced or not, y after a run_baseline is the slot-ascending fold of the contributions and stays it; no law of the payload's addition is assumed |
| CombineTheorems.NvlsAddsSlots | scripts/nvls_combine_proto.py:401-409 | Under the same conditions y after a run_nvls is zero with the token's contributions added one by one, slot 0 first, in terms of the payload's addition alone |
| CombineTheorems.BaselineAddsSlots | scripts/nvls_combine_proto.py:396-399 | The same of y after a run_baseline, in every legal run of any stream and for any addition |
| CombineTheorems.BaselineSpellsSlots | scripts/nvls_combine_proto.py:134-142 | With a letter per (token, slot, chunk) as contribution and concatenation as addition, y after a run_baseline spells the token's letters in slot order |
| CombineTheorems.RaceFreeIffSeparated | scripts/nvls_combine_proto.py:401-406 | With two or more ranks, no reachable state has conflicting kernels overlapping if and only if a barrier separates every two of them |
| CombineTheorems.CanRunTo | scripts/nvls_combine_proto.py:193-201 | From every reachable state the run can go on until every rank has finished: no rank waits at a barrier for good |
| CombineHost.SeparatedAppend | scripts/nvls_combine_proto.py:391-417 | Enqueueing a kernel keeps a stream separated if and only if nothing since the last barrier conflicts with it |
| CombineHost.GoodWarm | scripts/nvls_combine_proto.py:457-460 | Any number of unpaced alternations of the two paths stays separated: each path's barrier slot protects the other path's buffer |
| CombineHost.MainIsSeparated | scripts/nvls_combine_proto.py:419-495 | For every iteration count the whole stream of main() is separated and uses each slot once, 4*iters + 8 flag slots in all |
| CombineHost.MainTimes | scripts/nvls_combine_proto.py:443-483 | For each of main()'s nine benches and each of its iterations: between two successive host barriers, numbered through the run, the stream holds exactly the kernels timed there, with the flag slot they use |
| CombineHost.MainCheckPasses | scripts/nvls_combine_proto.py:420-440 | Where main() compares y with its reference, both paths' y hold the reference, under every interleaving, and the baseline's y holds it to the end |
| CombineHost.NvlsBackToBackUnseparated | scripts/nvls_combine_proto.py:402-406 | Two unpaced run_nvls in a row are never separated |
| CombineHost.BaselineBackToBackUnseparated | scripts/nvls_combine_proto.py:396-399 | Neither are two unpaced run_baseline: a push overlaps a fold (with equal values, see BaselineCombineCorrect) |
| CombineHost.HostProgram.BarrierKernel | scripts/nvls_combine_proto.py:391-394 | Each call uses a fresh flag slot |
| CombineHost.HostProgram.Call | scripts/nvls_combine_proto.py:396-417 | Each call enqueues its kernels in order and advances the slot counter if it has a barrier |
| CombineHost.HostProgram.Bench | scripts/nvls_combine_proto.py:443-455 | Each timed call is preceded by a host barrier |
| CombineHost.HostProgram.Run | scripts/nvls_combine_proto.py:419-495 | main() enqueues exactly that stream; no slot assertion fails and 4*iters + 8 of the 4*iters + 64 slots are used |
| CombineCounterexample.ReaderMissesPeer | scripts/nvls_combine_proto.py:402-406 | For any problem and any two adjacent run_nvls some run gives any chosen reader a y from which any chosen peer's part is missing |
| CombineCounterexample.ReaderSeesNextRound | scripts/nvls_combine_proto.py:401-409 | For any problem and stream: if no barrier stands between a read and the next change to P, some run gives any chosen reader a sum with any chosen peer's part from after that change |
| CombineCounterexample.NvlsOnlyUnpacedCanBeWrong | scripts/nvls_combine_proto.py:402-406 | A concrete instance: y is 0 where the contributions sum to 7 |
| CombineCounterexample.NvlsRightIffGuarded | scripts/nvls_combine_proto.py:401-409 | On a concrete two-rank problem, for every stream: a run_nvls stores the reference in every run if and only if a barrier stands between its read and the next change to P |
| CombineIndex.EveryExpertHomedIff | scripts/nvls_combine_proto.py:295-307 | Every expert has a home rank if and only if the rank count divides the expert count |
| CombineIndex.ExpertsOfRank | scripts/nvls_combine_proto.py:295-306 | Rank r holds exactly the experts from r * per to (r + 1) * per - 1 |
| CombineIndex.RoutedProblemValid | scripts/nvls_combine_proto.py:300-307 | Then the routing gives every (token, slot) exactly one owner among the ranks |
| CombineIndex.RoutePairs | scripts/nvls_combine_proto.py:306-310 | A rank's pair list holds every pair routed to it, once, in row-major order, and no other |
| CombineIndex.ChunkVisitedOnce | scripts/nvls_combine_proto.py:118-120 | For any chunk and thread counts the predicated passes visit each chunk exactly once |
| CombineIndex.PushTargetInBounds | scripts/nvls_combine_proto.py:112-116 | Push targets lie inside the home rank's staging |
| CombineIndex.PushTargetInjective | scripts/nvls_combine_proto.py:112-116 | Different pairs have different targets |
| CombineIndex.PushTargetSurjective | scripts/nvls_combine_proto.py:112-116 | Every staging row of every rank is some pair's target |
| CombineIndex.OffsetsExactIff | scripts/nvls_combine_proto.py:114-146 | All byte offsets computed in Int32 are exact if and only if m <= 24966 |
| CombineIndex.StoreCellIff | scripts/nvls_combine_proto.py:145 | Byte b of y lies in the 16-byte cell of exactly one (row, chunk): cells do not overlap, follow each other row by row, and fill the buffer |
| CombineIndex.ReduceCellIff | scripts/nvls_combine_proto.py:136-139 | The same of the (token, slot, chunk) cells of the staging buffer |
| CombineIndex.PushMeetsReduce | scripts/nvls_combine_proto.py:114-139 | A push writes each chunk at the address where the reduce of the home rank reads it, that of the pair's staging row |
| CombineIndex.Int32Wraps | scripts/nvls_combine_proto.py:114-146 | The Int32 result is the one 32-bit value congruent to the exact one |
| CombineKernels.PushCta | scripts/nvls_combine_proto.py:108-122 | One CTA copies its row and nothing else |
| CombineKernels.PushGrid | scripts/nvls_combine_proto.py:97-122 | Every pair's row reaches its staging row and every other staging row keeps its content |
| CombineKernels.FoldColumn | scripts/nvls_combine_proto.py:134-142 | The accumulation loop is the slot-ascending fold |
| CombineKernels.ReduceCta | scripts/nvls_combine_proto.py:125-146 | One CTA leaves the fold of each chunk in its token's y row |
| CombineKernels.WriteCta | scripts/nvls_combine_proto.py:149-162 | One CTA adds its row into P, each chunk exactly once |
| CombineKernels.WriteGrid | scripts/nvls_combine_proto.py:149-162 | Over the grid every cell of P gains the listed contributions of its token |
| CombineKernels.WriteKernelIsMaskedSum | scripts/nvls_combine_proto.py:149-162 | What the loop over a list adds to a cell is the sum of the token's contributions over the listed slots, whatever the order of the list |
| CombineKernels.LoadBatch | scripts/nvls_combine_proto.py:178-184 | A thread's batched loads hold the switch sums of its chunks |
| CombineKernels.ReadCta | scripts/nvls_combine_proto.py:165-190 | One CTA leaves the sum over all ranks of each chunk in its token's y row |
| CombineGrid.ListsArePairList | scripts/nvls_combine_proto.py:306-310 | The routed lists of a rank are in range and repeat no pair, as the kernels need |
| CombineGrid.ListedIsOwned | scripts/nvls_combine_proto.py:306-314 | A slot of a token is listed on exactly the rank that owns it |
| CombineGrid.WriteKernelIsWrite | scripts/nvls_combine_proto.py:149-162 | What the write kernel adds on a rank takes P from its value before the state machine's Write to its value after it |
| CombineGrid.ReduceGrid | scripts/nvls_combine_proto.py:125-146 | Over the grid every token's y row holds the folds of its staged rows |
| CombineGrid.ReadGrid | scripts/nvls_combine_proto.py:165-190 | Over the grid every token's y row holds the sums over all copies |
| CombineIterations.RunBaseline | scripts/nvls_combine_proto.py:396-399 | From routed lists and contribution rows, push and reduce on every rank leave the reference in every rank's y: zero with the token's contributions added one by one, slot 0 first |
| CombineIterations.RunNvls | scripts/nvls_combine_proto.py:401-409 | From the same inputs, zero, write and read on every rank leave the same sum in every rank's y |
| TwoShot.FlagInvStep | patches/iket-instrumentation.diff:147-225 | Every step keeps: a flag copy counts exactly the arrivals not yet reset, and no rank is more than one launch ahead |
| TwoShot.DataInvStep | patches/iket-instrumentation.diff:195-208 | Every step keeps: an element of C is the old sum, then the rank's own partial, then the new sum, in step with the owner's store |
| TwoShot.AllReduceCorrect | patches/iket-instrumentation.diff:175-225 | In every run, once a rank has left the final barrier every element of its C is the sum of all ranks' partials of that launch: zero with each rank's partial added once |
| TwoShot.GridAllReduceCorrect | patches/iket-instrumentation.diff:147-225 | The same for the whole grid, in any interleaving of CTAs and ranks |
| TwoShot.FlagsNeverOverflow | patches/iket-instrumentation.diff:178-185 | Over any number of launches no flag copy exceeds W |
| TwoShot.FlagsResetBetweenLaunches | patches/iket-instrumentation.diff:150-159 | Before the first arrival of a launch every copy of the tile's flag is 0 |
| TwoShot.FlagsBoundedIff | patches/iket-instrumentation.diff:215-223 | With two or more ranks the bound holds in all runs if and only if the CTA owns at least one tile |
| TwoShot.GridNeverStuck | patches/iket-instrumentation.diff:178-193 | In every reachable state of the grid some step is enabled |
| TwoShot.StaysEnabled | patches/iket-instrumentation.diff:178-225 | In every reachable state no rank's step takes away another's: an enabled step, waiting and leaving included, stays enabled until it is taken |
| TwoShotProgress.GridCanRunTo | patches/iket-instrumentation.diff:178-225 | From every reachable state the grid can run on until every CTA of every rank has left any given launch |
| QuantPipeline.GroupsEqualRounds | patches/iket-instrumentation.diff:914-936 | For every hidden divisible by 16 and every thread count, as many groups are committed as there are quantisation rounds |
| QuantPipeline.CpAsync.WaitGroup | patches/iket-instrumentation.diff:991-993 | wait_group(n) returns when all but the last n groups have landed |
| QuantPipeline.LoadPhase | patches/iket-instrumentation.diff:960-975 | Group k holds exactly the chunks of the two load rounds that feed quantisation round k |
| QuantPipeline.RunThread | patches/iket-instrumentation.diff:990-993 | After round j's dummy commit and wait, the thread's groups 0 to j have landed |
| QuantPipeline.RoundReadsHaveLanded | patches/iket-instrumentation.diff:990-1010 | After the CTA sync of round j every load chunk that any thread reads in round j has landed |
| QuantPipeline.ElementLanded | patches/iket-instrumentation.diff:960-1010 | Every element of the row is read in one round by one thread, and by then its load chunk has landed for the thread that copied it |
| QuantPipeline.ReadsAreElements | patches/iket-instrumentation.diff:990-1005 | What a thread reads in a round is exactly the load chunks of its 16-element vector |
| QuantBlocks.PairIsBlock | patches/iket-instrumentation.diff:1005-1016 | The maximum of a lane and its partner is the absolute maximum of the 32-element block, or of the final half block |
| QuantBlocks.ButterflyReachesPartner | patches/iket-instrumentation.diff:1015 | With an even thread count the offset-1 shuffle reaches the partner chunk in every round |
| QuantBlocks.Shuffle | patches/iket-instrumentation.diff:1015-1016 | Both lanes of a pair obtain the same block maximum |
| QuantBlocks.QuantRound | patches/iket-instrumentation.diff:1005-1043 | A round extends the finished prefix by exactly its own chunks and scale entries |
| QuantBlocks.QuantToken | patches/iket-instrumentation.diff:990-1043 | Every stored element times its block's stored scale is the element it came from, sign included; the stored exponent is the least in the format whose scale covers the block, capped at the largest; each chunk and each entry is stored exactly once |
| QuantBlocks.ScaleExpIsLeast | patches/iket-instrumentation.diff:1018-1024 | The stored exponent is the least power of two in the format that reaches absmax / limit |
| QuantBlocks.AccScaleIsReciprocal | patches/iket-instrumentation.diff:1025 | The multiplier is exactly the reciprocal of the stored scale; the clamp never bites |
| QuantBlocks.ClampBitesIff | patches/iket-instrumentation.diff:1025 | In any format the multiplier is at most the clamp, and is the reciprocal exactly when that is within the clamp |
| QuantBlocks.E8M0Valid | patches/iket-instrumentation.diff:1023-1025 | E8M0, whose exponents are the biased bytes 0 to 254, with the largest finite float as clamp meets the conditions of these results |
| QuantBlocks.ElementWithinLimit | patches/iket-instrumentation.diff:1018-1033 | Every scaled element of a block whose scale is in range is at most the fp8 limit |
| QuantBlocks.BlockFitsIff | patches/iket-instrumentation.diff:1018-1033 | All scaled elements of a block are at most the limit if and only if its scale is in range |
| QuantBlocks.HalfScaleOverflows | patches/iket-instrumentation.diff:1018-1019 | With half the scale the largest element would exceed the limit |
| Ledger.LoadDone | scripts/megamoe_sweep.py:71-96 | A key is in the result if and only if some row filed under it has a skippable status; its value is the last such status |
| Ledger.DoneAppend | scripts/megamoe_sweep.py:71-96 | Appending rows removes no key and adds exactly the keys of the new rows |
| Ledger.DoneOrderFree | scripts/megamoe_sweep.py:71-96 | The keys do not depend on the order of the rows |
| Ledger.SkippedExactly | scripts/megamoe_sweep.py:67-96 | As written, unpaced candidates are never skipped, paced ones as soon as either twin has finished |
| Ledger.ResumeRightIff | scripts/megamoe_sweep.py:298-307 | The exact condition under which a candidate is skipped if and only if it has finished |
| Ledger.PacedNeverReruns | scripts/megamoe_sweep.py:298-307 | A finished paced candidate never reruns, whatever is appended |
| Ledger.ParsedKeyResumes | scripts/megamoe_sweep.py:298-307 | With the paced column parsed, exactly the finished candidates are skipped |
| Ledger.UnpacedRerunsExample | scripts/megamoe_sweep.py:67-68 | A finished unpaced candidate that reruns and an unfinished paced one that is skipped |
| Ledger.BitexactText | scripts/megamoe_sweep.py:159-163 | The bitexact column reads true only if both comparisons matched, and is blank only if neither was made |
| Worker.SessionPrefix | scripts/megamoe_bf_worker.py:270-430 | Any prefix of a session: rows of the first candidates in order, and a heartbeat of the last emitter or the next candidate |
| Worker.SessionOutcome | scripts/megamoe_bf_worker.py:270-426 | Whenever a session dies or is killed: at most one row per candidate, an in-order prefix of the batch, FAIL_CUDA only last; a blamed config has a row or is next |
| Worker.SeenAndBlamed | scripts/megamoe_sweep.py:228-274 | The orchestrator sees exactly the rows emitted before the session's end, and blames a config iff its beat is the last one before the watchdog decides |
| Worker.OutsideNoConfig | scripts/megamoe_sweep.py:240-250 | Before the first candidate and after the last no config is blamed |
| Worker.StatusMeans | scripts/megamoe_bf_worker.py:283-426 | A row's status and the events before it: FAIL iff the second compile barrier was not passed, COMPILED iff it was in a compile-only session, else FAIL_CUDA iff the bench phases raised and OK iff they did not |
| Worker.OkMeansAllEvents | scripts/megamoe_bf_worker.py:283-400 | Before an OK row: a beat per phase, four barriers and one per paced repetition, one reduction of the medians and one per comparison |
| Worker.PlacesAreOnTheWay | scripts/megamoe_bf_worker.py:325-395 | Up to every place where the bench phases can raise, a candidate has made a prefix of its full events, of the stated length |
| Worker.Session.Step | scripts/megamoe_bf_worker.py:283-426 | One trip of the candidate loop with its continue and break paths, event by event |
| Worker.Session.Run | scripts/megamoe_bf_worker.py:270-430 | The loop's events are those of the specification |
| Lockstep.CompletesIffEqual | scripts/megamoe_bf_worker.py:283-430 | All ranks' collectives can be matched to the end if and only if the ranks call the same sequence |
| Lockstep.SessionCompletesIff | scripts/megamoe_bf_worker.py:259-265 | Ranks that agree on each candidate's outcome and on the place in the loop where it fails finish a session if and only if they agree on having a reference output or no candidate they reach compares with it |
| Sweep.SessionPossible | scripts/megamoe_bf_worker.py:270-426 | What the batch loop may assume of any session |
| Sweep.SettleUsesAttempts | scripts/megamoe_sweep.py:392-422 | Each pass over a non-empty chunk strictly lowers the sum over pending of 2 - attempts |
| SweepTheorems.NothingLost | scripts/megamoe_sweep.py:345-422 | For every sequence of session outcomes the pending list is the group without the ledgered candidates, in order; on completion every candidate has a row |
| SweepTheorems.SessionBound | scripts/megamoe_sweep.py:347-354 | With batch size B >= 1 a group of n candidates takes at most floor(2n/B) + 2 sessions and, without a batch limit, completes |
| SweepTheorems.BatchLimit | scripts/megamoe_sweep.py:348-350 | A batch limit is never exceeded, and ends the loop exactly when it is used up with candidates pending |
| SweepCounts.OneRowEach | scripts/megamoe_sweep.py:371-422 | On completion every candidate has exactly one new row, or two if the watchdog blamed it after it had emitted its row |
| SweepCounts.AbortedMeansTwoLostChunks | scripts/megamoe_sweep.py:392-412 | A config has an ABORTED row if and only if exactly two chunks contained it and neither yielded a row for it |
| SweepCounts.BatchSizeBelowOne | scripts/megamoe_sweep.py:347-356 | With a batch size below 1 a non-empty group always ends on an empty chunk |
| SweepResults.RowsAreAccurate | scripts/megamoe_sweep.py:371-416 | However the loop ends: every new row is one a session emitted, unchanged, or a HANG row of a blamed candidate or an ABORTED row, with that candidate's columns; no emitted row is missing; a config has a HANG row if and only if the watchdog blamed it |
| SweepResults.ResultWasEmitted | scripts/megamoe_sweep.py:371-372 | A new row that is neither HANG nor ABORTED, OK above all, was emitted by a session for that config with that status and those figures |
| SweepResults.LogIsSessions | scripts/megamoe_sweep.py:362-370 | The logged sessions are those of the loop's chunks, one per environment, in order |
| SweepResults.LaterSweepSkips | scripts/megamoe_sweep.py:71-96 | What a later sweep leaves out after a group has run, in terms of its sessions: paced candidates with an OK result, a compile-only one in a compile-only pass, a failure if failures are not retried, or a hang if hangs are not |
| Orchestrator.EveryGroupLedgered | scripts/megamoe_sweep.py:341-422 | Over all groups the ledger is only appended to, and a completed sweep has a row for every candidate of every group |
| Orchestrator.SweepBatchLimit | scripts/megamoe_sweep.py:348-350 | The batch limit holds for all groups together |
| Orchestrator.InvalidStaysOut | scripts/megamoe_sweep.py:307-330 | A paced candidate ledgered as invalid is left out from then on, whatever the options |
| Orchestrator.WorkerRowFoundIff | scripts/megamoe_bf_worker.py:274-282 | A worker's row is found again under its candidate's key if and only if the candidate is paced and of closure view |
| Orchestrator.OwnRowFoundIff | scripts/megamoe_sweep.py:375-412 | A row the orchestrator writes itself is found again if and only if the candidate is paced |
| Orchestrator.Sweeper.Classify | scripts/megamoe_sweep.py:298-330 | Finished candidates are dropped, the others split into invalid and runnable |
| Orchestrator.Sweeper.SortedGroups | scripts/megamoe_sweep.py:336-341 | Each group key once, in sorted order |
| Orchestrator.Sweeper.RunGroup | scripts/megamoe_sweep.py:345-422 | The batch loop computes the specified loop, and terminates; every new row is traced to a session or to the watchdog as in SweepResults.RowsAreAccurate, HANG exactly for the blamed configs |
| Orchestrator.Sweeper.RunSweep | scripts/megamoe_sweep.py:287-423 | Only unfinished candidates are treated, invalid ones get their rows first, and on completion every other one has a new row; every new row has the columns of such a candidate, INVALID only for invalid ones, and no OK in a compile-only sweep, no COMPILED in a full one |
| CandidateGen.BestByKnobs | scripts/megamoe_bf_gen.py:124-128 | The dict maps each knob string to the first of its fastest rows |
| CandidateGen.LoadOkRows | scripts/megamoe_bf_gen.py:110-129 | On a ledger of workers' results: the ranking holds only unpaced OK results of the stages and token count with a median whose copy and view comparisons both matched, one per knob string, sorted by median, each the first of its fastest; and every such result's knobs are in it with a time no slower |
| CandidateGen.PrefixIsBest | scripts/megamoe_bf_gen.py:174 | An eligible row whose knobs are not in a prefix is at least as slow as everything in it |
| CandidateGen.NormalizeKnobs | scripts/megamoe_bf_worker.py:57-66 | The loop drops meta keys and turns exactly the three lists into tuples |
| CandidateGen.WorkerGetsKnobsIff | scripts/megamoe_bf_gen.py:74-75 | Through JSON, which turns tuples into lists at every depth, the worker gets exactly the generator's dict, if and only if tuples and lists sit under the right keys, hold no tuples, and no key is a meta key |
| CandidateGen.GeneratedArrives | scripts/megamoe_bf_gen.py:84-100 | Every dict of the shape stages 1 and 2 generate reaches the worker as it was generated |
| CandidateGen.SameKnobsIff | scripts/megamoe_bf_worker.py:60-66 | Two dicts from JSON run as the same knobs if and only if they differ at most in meta keys |
| CandidateGen.GenStage3 | scripts/megamoe_bf_gen.py:173-195 | Over that ranking, stage 3 holds exactly the 12 cells of each of the best eight: at 64 and 128 tokens, unpaced and paced, three repetitions, with the row's knobs and the repetition number, in loop order; or the exit when there is none |
| CandidateGen.IdInjective | scripts/megamoe_bf_gen.py:187-188 | A candidate's cell can be read back from its config id |
| CandidateGen.IdText | scripts/megamoe_bf_gen.py:187-188 | The text of a stage-3 config id |
| CandidateGen.SameKeyIff | scripts/megamoe_bf_gen.py:184-194 | For any JSON that reads back what it wrote with lists for tuples: two stage-3 candidates share a ledger key if and only if they agree on tokens, pacing, repetition and base knobs |
| CandidateGen.Stage3Distinct | scripts/megamoe_bf_gen.py:173-195 | Built from distinct finalists, stage-3 candidates have pairwise distinct ids and ledger keys |
| CandidateGen.RepsRunSameKnobs | scripts/megamoe_bf_gen.py:12-14 | All repetitions of a finalist reach the worker, through JSON, as the knobs of the row it came from |
| CandidateGen.Stage3ResumeSwapsTwins | scripts/megamoe_bf_gen.py:181-184 | On resume a finished unpaced stage-3 candidate reruns and its paced twin is skipped |
| LatinSquare.OrdersAreLatin | scripts/mnnvl_protocols_iket_driver.py:43-48 | For every n each order and each position's column is a permutation of the protocols, doubled at n = 2 |
| LatinSquare.OrderAt | scripts/mnnvl_protocols_iket_driver.py:43-48 | Order k runs the protocols in turn from number k on and around |
| LatinSquare.Balanced | scripts/mnnvl_protocols_iket_driver.py:43-48 | Every protocol runs equally often in every position |
| LatinSquare.PositionEffectsCancel | scripts/mnnvl_protocols_iket_driver.py:9-11 | If a span is a protocol's base plus a position effect, summed spans differ by the repetition count times the difference of the bases, whatever the effects |
| Manifest.LineRoundTrip | scripts/mnnvl_protocol_report.py:31-46 | Reading a printed line gives back the execution, whatever follows the protocol's word |
| Manifest.LineText | scripts/mnnvl_protocols_iket_driver.py:137-153 | The text of a manifest line |
| Manifest.LineFoundBehind | scripts/mnnvl_protocol_report.py:34-36 | The pattern finds the execution behind any text that a launcher prints in front of the line |
| Manifest.PosIntOf | scripts/mnnvl_protocol_report.py:43 | A position is read as a natural number or its negation |
| Manifest.ParseManifest | scripts/mnnvl_protocol_report.py:29-52 | The loop collects the matching lines in order and keeps the second half exactly when both halves count the same executions |
| Manifest.SecondPassIff | scripts/mnnvl_protocol_report.py:47-51 | A dry and a real pass, complete or not, are cut to the real one if and only if they are equally long |
| LatinDriver.FitsWorkspace | scripts/mnnvl_protocols_iket_driver.py:73-83 | No execution exceeds its protocol's workspace |
| LatinDriver.RunsIffFits | scripts/mnnvl_protocols_iket_driver.py:73-124 | For every cap >= m a protocol runs at m if and only if it is one of ll, bt, ht and m is within its workspace, bt up to 1024; they run in that order |
| LatinDriver.ShapeExecutions | scripts/mnnvl_protocols_iket_driver.py:128-156 | The executions of a shape one by one: a warmup per protocol, then order after order, position after position |
| LatinDriver.PlanNumbered | scripts/mnnvl_protocols_iket_driver.py:91-156 | The executions of a run are numbered consecutively from 0 |
| LatinDriver.LogReads | scripts/mnnvl_protocol_report.py:34-46 | A log with other lines that do not match the pattern, whoever printed them, reads back as exactly the logged executions |
| LatinDriver.RunWarmups | scripts/mnnvl_protocols_iket_driver.py:128-143 | Each warmup is logged before its check; the first failing check ends the run |
| LatinDriver.RunSquare | scripts/mnnvl_protocols_iket_driver.py:145-156 | All orders and positions are logged in sequence |
| LatinDriver.Drive | scripts/mnnvl_protocols_iket_driver.py:91-159 | A complete run logs exactly the plan and passed every check; an aborted one logs a prefix of it that ends with the first warmup whose check failed |
| LatinDriver.OtherLinesHarmless | scripts/mnnvl_protocol_report.py:34-46 | Any line that does not match, put anywhere into a run's log, leaves it a log of that run; the two results below hold of such logs |
| LatinDriver.DriverToReport | scripts/mnnvl_protocol_report.py:47-52 | The log of a dry and a real run, other lines included, parses to exactly the real pass when both got equally far, and is left whole otherwise |
| LatinDriver.SinglePassUncut | scripts/mnnvl_protocol_report.py:47-52 | The log of one run, complete or aborted, other lines included, is never cut |
| ProtocolReport.GroupAssertIff | scripts/mnnvl_protocol_report.py:95-99 | The set assertion means: at least one launch, and all of the entry's protocol |
| ProtocolReport.FitsGroup | scripts/mnnvl_protocol_report.py:91-99 | In a fitting trace each execution's group is its own launches, as many as its protocol makes |
| ProtocolReport.WallsSpan | scripts/mnnvl_protocol_report.py:69-71 | The extremes of the launches' walls are the extremes of all their warps |
| ProtocolReport.SpanIsWidest | scripts/mnnvl_protocol_report.py:100-101 | A span is the widest distance from a start to an end among the warps of the execution's launches |
| ProtocolReport.GroupSpan | scripts/mnnvl_protocol_report.py:100-101 | A group's span is last warp end minus first warp start, and fails exactly on a launch without warps |
| ProtocolReport.Report.AddTrace | scripts/mnnvl_protocol_report.py:83-113 | A trace is accepted if and only if it has no launches, which skips it, or its launch protocols are the manifest's expansion, nothing missing or left over, and every launch has a warp; then its latin spans are pooled |
| ProtocolReport.Report.Pool | scripts/mnnvl_protocol_report.py:102-104 | A span goes to the end of its per-key and its per-position bucket |
| ProtocolResults.GroupsPartitionLaunches | scripts/mnnvl_protocol_report.py:90-94 | The cursor groups of a fitting trace partition its launches in order |
| ProtocolTraces.RecordedFits | scripts/mnnvl_protocol_report.py:8-12 | The trace of a run, each execution recording its protocol's kernels under their marks, fits the run's manifest |
| ProtocolTraces.GroupIsOwn | scripts/mnnvl_protocol_report.py:89-99 | In such a trace the cursor gives each execution exactly the launches it made |
| ProtocolTraces.PlanTraceFits | patches/iket-instrumentation.diff:1-141 | A trace of the driver's plan, as the instrumented kernels record it, is accepted |
| ProtocolResults.UnfinishedPassRejected | scripts/mnnvl_protocol_report.py:89-113 | With a manifest left whole, of a complete pass and part of another, no trace of the plan or of a part of it is accepted |
| ProtocolResults.EveryBucketSameSize | scripts/mnnvl_protocol_report.py:102-104 | For every protocol whose workspace the shape fits: each position bucket gets one span per listing of the shape, or two when only ll and ht run it; the protocol gets three or four in all |
| ProtocolResults.KeyIsUnionOfPositions | scripts/mnnvl_protocol_report.py:102-104 | Each per-key bucket is the union of its per-position buckets |
| ProtocolResults.ReportedDifference | scripts/mnnvl_protocols_iket_driver.py:9-11 | End to end for one trace: for any two protocols that run a shape, the reported sums differ by repetitions times the difference of their own times |
| ProtocolResults.PooledDifference | scripts/mnnvl_protocol_report.py:115-119 | The same pooled over all traces, each with position effects of its own |

## Left out

* GPU weak memory and floating point: memory is sequentially consistent, payloads are an abstract
  commutative monoid (any type with an addition for the baseline), scales and elements are exact
  rationals, `data_rcp_limit` is exactly 1 / limit and the reciprocal of a power of two is exact. The
  fp32 accumulation and the bf16 and fp8 conversions are therefore not modelled.
* Memory granularity: a 16-byte chunk is read, added and written as one unit. The in-switch sum is
  folded over the ranks in ascending order; any order is equal for a commutative payload.
* The body of `sm_wise_inter_gpu_multimem_barrier` is not part of this model: a slot is a counter that
  releases at W. The combine uses each slot once; the two-shot launches share one end flag, so there
  leaving resets a rank's copy to 0, like the tile flags. The end-flag bound in `FlagsNeverOverflow`
  and `FlagsBoundedIff` rests on that. `torch.cuda.synchronize` followed by `dist.barrier` is one host
  barrier.
* Results of `run_nvls_hot` (garbage by its own comment), allocation, compilation, timing and medians
  of the combine prototype; the zeroing before its first barrier is the initial state.
* The two-shot kernel outside the visible hunks (lock bodies, tile scheduler, GEMM mainloop) is not
  part of this model; any tile order is covered, because element steps of all consumed tiles may
  interleave.
* The `hidden % 16` and thread-count checks of the quantisation kernel are preconditions; routing
  repack, swizzles and address alignment are left out.
* File I/O, torn result lines, the GPU gate, commit hashes, timestamps, watchdog time budgets and
  docker of the sweep. The markers `(bootstrap)` and `(end)` are constructors, so no config can be
  named like them. An exception after an OK row has been emitted is not modelled, nor are the numbers
  in worker rows.
* Stages 1 and 2 of candidate generation and `check_invalid`: finite products with fixed grids.
* The order of equal medians in the ranking, which the source leaves to a stable sort.
* Regular-expression classes and int() are those of ASCII digits, letters and underscore; the
  per-phase and spin tables and all printing of the report.
* The LL, BT and HT kernels, `comm_skew_table.py` and the other drivers.
- CandidateGen.Stage3Distinct: assumes that JSON reading gives back what was written, with lists for tuples at every depth, and that the ledger's knob texts were written by the sweep for stages 1 and 2, because JSON text is a foreign format here.
- QuantPipeline.CpAsync.WaitGroup: leaves open which further groups have landed, because the hardware does; the body lands all of them.
