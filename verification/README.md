# Replayor: verified model

Replayor replays the blocks of a source chain against an execution engine and records how
the engine performs. This project models the parts on which the result of a run depends and
proves that a run replays exactly the intended blocks and reports correct numbers.

- **The block pipeline** (`Pipeline`, `Cancellation`, `FetchRange`): the loader with its 25 fetch workers,
  the mapper and the submitter as a state machine over atomic steps, joined by two bounded
  channels. A scheduler may interleave the steps in any way.
- **One benchmark run** (`Engine`, `Stats`, `Benchmark`, `Replay`, `Service`): the fields of
  the benchmark updated in place by the goroutines' steps, `addBlock` against an engine that
  may build anything and fail any call, the monitor, the two phases of the service, and a
  cancellation at any moment. The class refines the state machine: every state it is ever in
  is one the machine can reach.
- **The statistics writer** (`Monitor`): submitter and monitor interleaved at each access to
  the head, the records and storage.
- **Opcode gas** (`CallTree`, `OpCodeTable`, `BlockStats`, `Trace`): the one-pass attribution
  over a flat execution log against a recursive call tree.
- **Storage changes** (`StorageDiff`): merging nested maps and counting, against sets of
  (account, slot) pairs; and what both traces add to a block's record (`BlockEnrichment`).
- **The stress strategy** (`Stress`, `StressChain`, `StressBlocks`, `EndToEnd`): nonces,
  ordering and gas packing, against a chain that accepts a transaction only with its
  sender's next nonce; and the strategy inside the pipeline, where the mapper runs ahead.

Unsigned 64-bit arithmetic wraps around as in Go (`Uint64`). Nondeterministic answers of the
outside world are steps in the state machines and oracle functions elsewhere; the scheduler
of a run is a nondeterministic choice. `dafny verify dfyconfig.toml` checks everything.

Some properties one might expect do not hold of the code. For each there is an exact condition
and a lemma at a concrete input:

- Cancelling can leave the loader or the mapper blocked for ever exactly when the run asks
  for more than 25 blocks (`CancellationLeaksIff`; `StrandedExample`).
- A range can be replayed exactly when it is empty or the whole batches that cover it end
  below block 2^63, since block numbers are unsigned but the source is asked for signed ones
  (`RangeReplayedIff`; `EdgeExample`). Hence the loop variable never wraps (`NeverWraps`).
- The opcode buckets of a transaction add up to the gas used exactly when missing and
  overcharged gas cancel out (`AttributionExactIff`). Gas is missing when a contract creation
  runs code or a call loses gas; it is overcharged when an opcode runs out of gas. Without
  the one kind, the sum is exact exactly without the other (`AttributionExactWhen`;
  `CreationUndercounts`, `OutOfGasOvercounts`). The unsigned subtractions stay exact exactly
  when each creation's own cost covers the gas it forwards (`NoSubtractionWrapsIff`).
- A write can mark a block that storage does not hold: whenever there is a block, if saves
  can fail (`UnsavedIff`); and even if none fails, exactly when the run leaves the write
  interval (`StaleIff`; `StaleExamples`).
- The storage packer takes a nonce before it signs, so a chain accepts its calls exactly when
  no signing succeeds after one that failed (`StorageCallsAcceptedIff`, for a whole run
  `StorageRunAcceptedIff`; `RejectedExample`). The ERC20 and ETH packers take it afterwards
  and have no such gap.
- Gas targets from 2^63 on turn negative, and the budget loops then emit nothing
  (`Erc20FillsTarget`, `EthFillsTarget`; `HugeTargetExample`).
- The storage packer gives each call the whole gas target as its limit, so the limits of a
  block add up to at most the target exactly when at most one call is signed; with all signed,
  when the target is less than the cost of two (`StorageGasWithinTargetIff`; `OverfullExample`).
- `AccountsChanged` counts all accounts exactly when every account of a pre state is in some
  post state; otherwise it can even be below `StorageTriesChanged` (`AccountsCompleteIff`;
  `DestroyedExample`).

Where the code disagrees with what it says of itself, the model follows the code: the log
line at `packages/stats/storage.go:81` reports a successful write whether or not an attempt
succeeded, and the comment at `packages/strategies/stress.go:440` speaks of filling a block
until the gas target is met, which a failed signing prevents.

## Model

| member | source | states |
|---|---|---|
| Pipeline.StepKeepsInv | packages/replayor/benchmark.go:62-102 | every step of every goroutine keeps the stages filled end to end with consecutive blocks; nothing is sent on and nothing closes a closed channel, so only a failing fetch or addBlock panics |
| Pipeline.PanicsIff | packages/replayor/benchmark.go:62-102 | in any state at all, a step panics exactly on a failing fetch or addBlock, or when it sends on or closes a channel that is closed |
| Pipeline.NilBlockIsDropped | packages/replayor/benchmark.go:281-287 | a nil block on the input channel is taken off it, and nothing else changes |
| Pipeline.SubmitsConsecutiveBlocks | packages/replayor/benchmark.go:259-274 | in every reachable state, cancelled or not, addBlock was given exactly the next consecutive blocks, none past the end, and the strategy a longer run of the same blocks; remaining and submitted add up |
| Pipeline.StepRefinesSequentialLoop | packages/replayor/benchmark.go:301-308 | each step of the pipeline is a step of the sequential loop over start..end or leaves that loop where it is |
| Pipeline.SubmitterReplaysAll | packages/replayor/benchmark.go:259-274 | a submitter that returns without cancellation was given all of start..end, and the remaining count is 0 |
| Pipeline.OvershootFits | packages/replayor/benchmark.go:361-362 | once the submitter has stopped on the first block past the end, nothing more is fetched and at most 23 blocks are left anywhere, fewer than the output channel holds |
| Pipeline.NothingLeftToAdd | packages/replayor/benchmark.go:259-274 | once every block has been added, no step of any goroutine, cancelled or not, adds another |
| Pipeline.LoaderProgress | packages/replayor/benchmark.go:62-102 | a loader that has not left can always move, unless it sends on a full channel |
| Pipeline.Progress | packages/replayor/benchmark.go:301-308 | without cancellation no reachable unfinished state is stuck |
| Pipeline.MeasureFalls | packages/replayor/benchmark.go:62-102 | every step, failures and cancellation included, lowers a measure over unfetched, unsent and queued blocks |
| Pipeline.RunsAreBounded | packages/replayor/benchmark.go:301-308 | hence a run of any schedule has at most 152 steps a batch and 5 more |
| Pipeline.UndisturbedRunCompletes | packages/replayor/benchmark.go:276-299 | a run without failures or cancellation, continued to its end, has replayed start..end in order, closed both channels, emptied the first, and left exactly the overshoot in the second |
| Cancellation.BlockedShape | packages/replayor/benchmark.go:276-299 | the exact states in which no goroutine can move: only after a cancellation, with the submitter gone and the loader or the mapper waiting on a full channel |
| Cancellation.CancellationLeaksIff | packages/replayor/benchmark.go:95-97 | cancelling can leave a goroutine blocked for ever if and only if the run asks for more than 25 blocks; the schedule has every fetch answered before the cancellation |
| FetchRange.LoopEndsIffNoWrap | packages/replayor/benchmark.go:63 | the arithmetic of the loop header alone: it covers the range, and ends after the last batch if and only if its variable does not wrap there |
| FetchRange.CursorIs | packages/replayor/benchmark.go:63 | in every reachable state the loader's variable is the one that LoopEndsIffNoWrap speaks of |
| FetchRange.NeverWraps | packages/replayor/benchmark.go:50-54 | in no reachable state, whatever the range, has that variable wrapped: a worker fails first, on a number from 2^63 on, which the source is asked for as a negative one |
| FetchRange.LoaderLeavesIff | packages/replayor/benchmark.go:62-102 | so a loader that tests its range leaves the loop if and only if it has sent the last batch it needs |
| FetchRange.RangeReplayedIff | packages/replayor/benchmark.go:50-102 | for every start and count: some undisturbed run replays the whole range if and only if it is empty or the whole batches that cover it end below block 2^63 |
| FetchRange.EdgeExample | packages/replayor/benchmark.go:62-90 | after block 2^63 - 26 a single block can be replayed, after block 2^63 - 25 it cannot, because of the blocks fetched past the end |
| Cancellation.StrandedExample | packages/replayor/benchmark.go:95-97 | twenty-six blocks are enough to leave the loader blocked |
| Benchmark.Benchmark.constructor | packages/replayor/benchmark.go:346-375 | the start state is the initial state of the pipeline, under a context that may be done already, and ready to run when the current block is the engine's head |
| Benchmark.Benchmark.TestRange | packages/replayor/benchmark.go:62-67 | the loop test refines the state machine: 25 workers started, or the input channel closed |
| Benchmark.Benchmark.FetchOk | packages/replayor/benchmark.go:74-90 | a worker, in any order, stores its block at its own index |
| Benchmark.Benchmark.SendIncoming | packages/replayor/benchmark.go:95-98 | one block sent; after the last of a batch the loop variable moves on by 25 |
| Benchmark.Benchmark.MapReceive | packages/replayor/benchmark.go:276-296 | a received block goes to the strategy, and the end of the input closes the output |
| Benchmark.Benchmark.SubmitReceive | packages/replayor/benchmark.go:259-267 | a block up to the end goes to addBlock; the first one past it, or the end of the channel, stops the submitter |
| Benchmark.Benchmark.BuildBlock | packages/replayor/benchmark.go:114-230 | the engine is asked once, for exactly the attributes and Holocene parameters of the block; it yields the payload if and only if every call succeeds and the strategy accepts what was built on the head; the chain grows by it then, or if just the last answer is missing; a rejected payload is never handed to the engine; the timings are the clock's differences around each call |
| Benchmark.Benchmark.AddBlock | packages/replayor/benchmark.go:104-236 | it succeeds exactly when that does; then the payload is the head, its hash the next parent, and exactly its record was added, with its timings and what its receipts and traces say; otherwise nothing is recorded |
| Benchmark.Benchmark.SubmitFinish | packages/replayor/benchmark.go:268-269 | addBlock and the count-down keep chain, records and remaining count in step |
| Benchmark.Benchmark.SomeoneReady | packages/replayor/benchmark.go:301-308 | while a goroutine runs and nobody cancels, some goroutine of the running program can move |
| Benchmark.Benchmark.Tick | packages/replayor/benchmark.go:323-337 | the gap a tick computes is the true difference, never wrapped, and after it the gap is under 100, or the last written block is the head, or there is no record; storage then holds all records if the gap was at least 100 and one of three attempts succeeded, else what it held before |
| Benchmark.Benchmark.LoaderStep | packages/replayor/benchmark.go:62-102 | the loader and its workers move in any order within the pipeline's rules; the only failure is a fetch of a block in the fetched range |
| Benchmark.Benchmark.Run | packages/replayor/benchmark.go:301-342 | under any scheduler, any ticks and a cancellation at any moment, Run returns, even if goroutines are stuck; it is kept from returning by itself only by a failure, which it names; uncancelled, all of start..end were submitted, the chain has grown by `count` accepted blocks, each the one the engine answered with, the engine was asked for exactly the attributes of start..end in order, once each, there is one record for each, and the final write was made and holds them all if an attempt succeeded; cancelled or failed, chain, requests and records are a prefix of that, and a final write, if made, covers what was recorded |
| Benchmark.Benchmark.RunOn | packages/replayor/benchmark.go:304-308 | what the goroutines still do after Run has returned keeps all of this; if the submitter is done they add nothing |
| Benchmark.Benchmark.RunOut | packages/replayor/benchmark.go:301-342 | both together: a named failure, or, uncancelled, all blocks added |
| Benchmark.ExtendsNumbers | packages/replayor/benchmark.go:226-230 | blocks built one on the other have consecutive numbers |
| Benchmark.GasLimitsAre | packages/replayor/benchmark.go:120-128 | the recorded gas limit is the unbounded sum of the transactions' gas limits modulo 2^64 |
| Benchmark.GasLimitsPermute | packages/replayor/benchmark.go:120-128 | and does not depend on the order of the transactions |
| Benchmark.RecordIs | packages/replayor/benchmark.go:226-235 | every record of a run has the number and hash of its block, the number and the gas sum of the transactions asked for, the timings by the clock of its own calls, and what its own receipts and traces say |
| Stats.StoredStats.RecordBlockStats | packages/stats/storage.go:62-64 | appends one record |
| Stats.StoredStats.Write | packages/stats/storage.go:66-82 | it succeeds if and only if one of three attempts does; storage then holds all records, else what it held before; the last record is marked as written either way |
| Replay.ReplayedBlockIsSource | packages/strategies/replay.go:36-47 | whatever the engine built, each block that replay added is the source block itself, with the attributes that were asked for |
| Replay.RequestIsSource | packages/replayor/benchmark.go:130-148 | replaying a block asks the engine for the source block's own attributes, and from Holocene on, and only then, for the parameters in its extra data |
| Replay.ReplayedChainIs | packages/strategies/replay.go:14-29 | the destination chain is always the initial chain and a run of consecutive source blocks |
| Replay.ReplayStartsIff | packages/replayor/benchmark.go:179-187 | replay can add a block at all if and only if the head it starts from is the source's own block before it |
| Replay.HashesAgree | packages/replayor/benchmark.go:114-118 | after every completed addBlock the head, the parent hash for the next block and the source block's hash agree |
| Replay.RecordsAreSource | packages/replayor/benchmark.go:226-235 | each record of a replay run has the number, hash, transaction count and gas sum (see `GasLimitsAre`) of its source block, and what its own receipts and traces add |
| Replay.HonestRunCannotFail | packages/replayor/benchmark.go:153-223 | with all fetches and reads answered and an engine that builds a chain on the head, no failure of a run can have happened, so it completes: when replaying that chain must be the source's own, under the stress strategy it can be any |
| Service.Service.WalkUp | packages/replayor/service.go:71-85 | the walk-up adds only source blocks, also when it is stopped and its goroutines go on, and asks for nothing but them, in order, once each; unless stopped or crashed it ends on the start block, unstopped in an honest world it does not crash, and it leaves the recorder alone |
| Service.RecordsAreOnePerBlock | packages/stats/storage.go:62-64 | the records of a run are one per block, numbered from the first block on without gaps |
| Service.Service.AwaitSync | packages/replayor/service.go:54-69 | asking for the head never changes it, and syncing is over if and only if one of 720 attempts says so |
| Service.Service.Record | packages/replayor/service.go:107-108 | the recorded phase asks for the strategy's blocks after the head, in order, once each, and records one entry per block, with that block's own parameters, clock, receipts and traces, all `BlockCount` of them unless it is stopped or crashes |
| Service.Service.MeasureBlocks | packages/replayor/service.go:87-108 | with the wrong head or an unknown strategy nothing is asked for or recorded; else the requests and records are those of the configured strategy, from the head on |
| Service.Service.Start | packages/replayor/service.go:40-113 | if it finishes without being stopped, the records are exactly one per block S+1..S+BlockCount in order, and saved if an attempt of the final write succeeded; stopped or crashed at any moment, they are the first of these, none of the walk-up; the engine is asked for the source blocks up to S and from S+1 on for those of the configured strategy, the source's own for replay and the generated ones for stress, in order, once each, and the records are of the latter; the error for a wrong start needs a stop, and then nothing was recorded; past the start block or without a strategy nothing is recorded; with the replay strategy the chain only ever grows by the source's own blocks; and with an engine that cooperates as in `HonestRunCannotFail` an unstopped service finishes, under either strategy |
| Monitor.RunKeepsInv | packages/replayor/benchmark.go:318-342 | every interleaving of submitter and monitor keeps records, head, remaining count and last written block in step |
| Monitor.RemainingAndRecorded | packages/replayor/benchmark.go:268-269 | between iterations of the submitter the remaining count and the number of records add up to the requested count; it never wraps and ends at 0 |
| Monitor.GapNeverWraps | packages/replayor/benchmark.go:334-335 | the subtraction that guards the periodic write is the true difference, however the submitter moved on in between |
| Monitor.TickOutcome | packages/replayor/benchmark.go:323-337 | when a tick ends, its gap was under 100, or the last written block is the last record, or there is no record |
| Monitor.FinalWriteCoversAll | packages/replayor/benchmark.go:320-322 | the write on completion covers every record: if it succeeds, storage holds all of start..end, whatever became of the periodic writes |
| Monitor.UnsavedIff | packages/stats/storage.go:66-82 | if saves can fail, some schedule marks a block that storage does not hold if and only if the run has a block |
| Monitor.StaleIff | packages/stats/storage.go:66-82 | even if every save succeeds, some schedule marks a block that was not in what it saved if and only if the run has a block and leaves the write interval |
| Monitor.StaleExamples | packages/stats/storage.go:66-82 | one block whose only write fails, and a hundred blocks all of whose writes succeed |
| CallTree.OnePassIsTreeRule | packages/replayor/trace.go:113-126 | looking at the next entry only gives every entry at any depth the self-gas of the recursive call tree |
| CallTree.ChargesTelescope | packages/replayor/trace.go:113-134 | for every call tree the charges add up to the frame's gas drop, short by exactly the gas of creations and of callees that lose gas, and over by exactly what last entries cost above their gas |
| CallTree.CallsBalanceIffOffset | packages/replayor/trace.go:113-134 | for every call tree, every call's charge plus all charges inside its callee is the caller's gas drop across the call, if and only if missing and overcharged gas offset each other at every call |
| CallTree.CallsBalanceIff | packages/replayor/trace.go:113-134 | if no callee runs out of gas, all calls balance if and only if no creation runs code and no callee loses gas; and if that holds, if and only if no callee runs out of gas |
| CallTree.NoWrapIff | packages/replayor/trace.go:121-125 | no charge is negative if and only if every creation's own cost covers the gas its code starts with, however frames end |
| CallTree.NestsIffTree | packages/replayor/trace.go:17-23 | a flat log nests if and only if it is the flattening of a call tree |
| CallTree.TreeIsParse | packages/replayor/trace.go:17-23 | a log that is the flattening of a tree nests, and Parse finds that tree |
| CallTree.TreeIsUnique | packages/replayor/trace.go:17-23 | a log is the flattening of at most one tree |
| Trace.TraceLogs | packages/replayor/trace.go:113-134 | the loop adds one count and the charge of every entry to the table and returns the last refund counter |
| Trace.TraceReceipt | packages/replayor/trace.go:67-140 | a receipt adds its intrinsic gas, its entries and its refund, or one UNKNOWN entry if a look-up failed |
| Trace.TracedBuckets | packages/replayor/trace.go:100-139 | for every table, a traced receipt gives each bucket the count and charges of the log entries of that name; TRANSACTION gains one and the gas limit less the first entry's gas, or all the trace's gas if the log is empty; REFUND gains one and the last entry's refund counter, or 0 |
| Trace.UntracedBuckets | packages/replayor/trace.go:67-98 | a receipt without transaction or trace gives one and its gas used to UNKNOWN, and nothing to any other bucket |
| Trace.EmptyLogGas | packages/replayor/trace.go:100-109 | a receipt with an empty log, as of a plain transfer, is attributed all of its trace's gas |
| Trace.ComputeOpCodes | packages/replayor/trace.go:51-60 | the table of a block is what all its receipts contribute |
| Trace.AttributedGasIs | packages/replayor/trace.go:100-134 | the transaction and opcode buckets of a receipt together are the gas limit minus the gas left after the last entry, short by the unattributed and over by the overcharged gas, modulo 2^64 |
| Trace.AttributionExactIff | packages/replayor/trace.go:100-134 | for every log with a call tree they are the gas used before refunds if and only if the missing gas minus the overcharged gas is a multiple of 2^64 |
| Trace.AttributionExactWhen | packages/replayor/trace.go:100-134 | they are exact if no creation runs code, no callee and not the transaction itself loses gas, and no last entry costs more than its gas; given that last condition only if the others hold, and given the others only if that one does |
| Trace.NoSubtractionWrapsIff | packages/replayor/trace.go:121-125 | no unsigned subtraction of the loop wraps if and only if every creation is covered; traces that run out of gas are included |
| Trace.CreationUndercounts | packages/replayor/trace.go:121-122 | three pushes and a creation that forwards 66933 gas make the sum of a transaction that used 53014 wrap below zero, and so does a salted creation after four pushes |
| Trace.OutOfGasOvercounts | packages/replayor/trace.go:113-134 | an addition for 3 gas with 2 left, without any call, makes the sum of a transaction that used 21005 come to 21006 |
| Trace.ReceiptOrderIrrelevant | packages/replayor/trace.go:56-58 | the table does not depend on the order of the receipts |
| Trace.BlockTableIsSum | packages/replayor/trace.go:128-131 | every bucket is the sum of the receipts' contributions to it |
| Trace.TotalCountIs | packages/replayor/trace.go:106-139 | all counts together are the log entries plus two for each traced receipt and one for each other |
| OpCodeTable.BucketIsSum | packages/replayor/trace.go:128-131 | a bucket holds the number of its contributions and their gas modulo 2^64, and exists only if there was one |
| OpCodeTable.OrderIrrelevant | packages/replayor/trace.go:128-131 | the table does not depend on the order of the contributions |
| OpCodeTable.AddEventsTotal | packages/replayor/trace.go:106-139 | the whole table grows by the gas and the number of the contributions |
| StorageDiff.MergeTraces | packages/replayor/trace.go:156-181 | the merged states hold between them exactly the slots touched by any transaction, and the merged post state its accounts, in any order of iteration |
| StorageDiff.CountSlots | packages/replayor/trace.go:187-204 | both loops together count every slot of either state once, and collect exactly the accounts that own one |
| StorageDiff.RecordStorageChanges | packages/replayor/trace.go:142-207 | the three counters are the numbers of distinct touched slots, of their accounts, and of accounts in a post state; a failed request changes nothing |
| StorageDiff.TriesAtMostSlots | packages/replayor/trace.go:206 | at most as many tries as slots are changed |
| StorageDiff.TouchedIff | packages/replayor/trace.go:160-181 | a slot is counted if and only if some transaction has it in its pre or post state |
| StorageDiff.TouchedTriesIff | packages/replayor/trace.go:185-206 | a trie is counted if and only if some transaction has a slot of its account in its pre or post state |
| StorageDiff.TraceOrderIrrelevant | packages/replayor/trace.go:160-181 | the counts depend on which transactions there are, not on their order |
| StorageDiff.AccountsCompleteIff | packages/replayor/trace.go:183 | the account counter is the number of accounts in any state if and only if every account of a pre state is in some post state, and it is then at least the number of changed tries |
| StorageDiff.DestroyedExample | packages/replayor/trace.go:183-206 | one account destroyed with its one slot: one trie and one slot change, but no account |
| BlockEnrichment.Enrich | packages/replayor/benchmark.go:238-257 | a record gets the sum of the receipts' gas, the share of successful ones, the opcode table and the storage counts, the latter only if asked for and found |
| BlockEnrichment.EnrichmentIs | packages/replayor/benchmark.go:238-257 | without receipts every figure is 0 and the opcode table is empty; with them the opcode table is, for every opcode, the sum of all receipts' contributions if it was asked for and empty otherwise; the three storage counters are those of the state diffs if they were asked for and found and 0 otherwise |
| BlockEnrichment.GasUsedIs | packages/replayor/benchmark.go:247-253 | the gas used is the unbounded sum of the receipts' gas modulo 2^64 |
| BlockEnrichment.SuccessRatioCounts | packages/replayor/benchmark.go:247-254 | the share times the number of receipts is the number of receipts that succeeded |
| BlockEnrichment.SuccessRatioIs | packages/replayor/benchmark.go:247-254 | the share is undefined exactly without receipts, and otherwise between 0 and 1: 1 exactly if all succeeded, 0 exactly if none did |
| BlockEnrichment.TotalIsAllButValidation | packages/replayor/benchmark.go:150-226 | each timing is the time between the looks at the clock around its call; the total is their sum, the time from the first look to the last less the first validation; by a clock that never goes back it is at most the elapsed time, and all of it if and only if that validation takes none |
| BlockEnrichment.OrderIrrelevantToRecord | packages/replayor/benchmark.go:238-257 | what a record gets does not depend on the order in which receipts and state diffs are reported |
| Stress.StressTest.CreateSignedTx | packages/strategies/stress.go:98-123 | the transaction carries the nonce that was next, which is used up even if signing fails |
| Stress.StressTest.PrepareDeployContract | packages/strategies/stress.go:68-96 | the contract address is that of the nonce in the deployment transaction |
| Stress.StressTest.PackErc20Transfer | packages/strategies/stress.go:377-438 | as many transfers as signings succeed, with consecutive nonces, and exactly that many nonces taken |
| Stress.StressTest.PackPrecompileTargeter | packages/strategies/stress.go:340-375 | one call with the next nonce, or a panic |
| Stress.StressTest.PackStorageStressor | packages/strategies/stress.go:285-338 | a nonce for every attempt, a transaction for every successful signing |
| Stress.StressTest.PackEthTransfer | packages/strategies/stress.go:441-511 | the outcome of the drawing loop for any sequence of draws and signings that lets it end |
| Stress.StressTest.BlockReceived | packages/strategies/stress.go:125-178 | the transactions of a block, the nonces and the contract address are those of the specification, panics included |
| StressChain.AcceptedNonces | packages/strategies/stress.go:98-123 | a chain that accepts a list has seen each signed nonce equal the number of the sender's earlier transactions |
| StressChain.RunDefinedIff | packages/strategies/stress.go:125-178 | over consecutive blocks the strategy runs without panic if and only if every block has a transaction, the first has two and its deployment is signed (unless plain transfers are packed), and after the funding phase the function is listed and a precompile call is signed |
| StressChain.StorageCallsAcceptedIff | packages/strategies/stress.go:313-334 | a chain accepts the storage packer's calls if and only if no signing succeeds after one that failed |
| StressChain.FundingAccepted | packages/strategies/stress.go:142-166 | a funding block is accepted whole: one deposit to its account and in the first block the contract under test, deployed at the remembered address |
| StressChain.PackAccepted | packages/strategies/stress.go:272-283 | a packed block of any kind is accepted and leaves chain and strategy with the same nonces; only the storage packer needs all its signings |
| StressChain.RunAccepted | packages/strategies/stress.go:125-178 | a chain accepts every transaction of a run over consecutive blocks, and ends with the strategy's nonces and contract |
| StressChain.RunNonces | packages/strategies/stress.go:98-123 | every nonce of a run is the number of earlier transactions of its sender, deposits included, and every contract call goes to the contract deployed with the deployer's nonce 1 |
| StressBlocks.BlockOrder | packages/strategies/stress.go:125-178 | all deposits come before all other transactions; up to the tenth block every source transaction is kept once, each class in order, the new deposit last and the deployment first in their classes; from the eleventh on exactly the source deposits survive, followed by what the packer makes |
| StressBlocks.OriginalsKept | packages/strategies/stress.go:135-169 | a source transaction is in the resulting block if and only if it is a deposit or the block is less than 11 after the start block |
| StressBlocks.DeploymentIs | packages/strategies/stress.go:68-96 | the first block's other transactions start with the deployment, for two million gas, of the bytecode for the configured test, at the address that is remembered |
| StressBlocks.FundingIs | packages/strategies/stress.go:180-209 | a funding block's last deposit mints 10^26 wei for its account |
| StressBlocks.PackedAre | packages/strategies/stress.go:272-283 | every packed transaction is what its test type asks for: a token transfer for 23000 gas with its nonce as seed, a call of the configured function with the target as gas limit, or a plain transfer for 21000 gas to another account |
| StressBlocks.PrecompileFillsTarget | packages/strategies/stress.go:340-375 | the precompile packer emits exactly one call, with the next nonce, of the configured function and with all of the target as gas |
| StressBlocks.RunFunds | packages/strategies/stress.go:180-209 | over a run the ten accounts are funded in order, each exactly once |
| StressBlocks.PackedAfterFunding | packages/strategies/stress.go:142-169 | every packed transaction has all ten deposits before it |
| StressBlocks.Erc20FillsTarget | packages/strategies/stress.go:377-438 | never more gas than the target; within one transfer of it if and only if the target is below 2^63 and every signing succeeds; as many nonces as transactions |
| StressBlocks.HugeTargetExample | packages/strategies/stress.go:383-390 | for a target of 2^63 the budget loop emits nothing |
| StressBlocks.RoundsAreSigned | packages/strategies/stress.go:474-476 | no plain transfer goes from an account to itself |
| StressBlocks.DrawingEndsIff | packages/strategies/stress.go:456-507 | the drawing loop ends if and only if the random source yields enough usable pairs |
| StressBlocks.EthFillsTarget | packages/strategies/stress.go:441-511 | never more gas than the target and one nonce for each transaction; there are floor(target / 21000) of them, or none from 2^63 on, if and only if every iteration with a usable pair and budget left is signed, and fewer otherwise |
| StressBlocks.StorageGasWithinTargetIff | packages/strategies/stress.go:298-334 | the storage packer takes one nonce per attempt and emits one call per successful signing, each with the whole target as its gas limit; the block stays within the target if and only if at most one signing succeeds, and, if all do, if and only if the target is less than the cost of two calls |
| StressBlocks.StorageCountIs | packages/strategies/stress.go:298-308 | the storage packer makes n attempts if and only if n calls at their assumed cost fit into the target and n + 1 do not |
| StressBlocks.FirstCalls | packages/strategies/stress.go:298-308 | the three smallest targets that make a call |
| StressBlocks.OverfullExample | packages/strategies/stress.go:298-334 | a target of ten million makes two calls of ten million each |
| StressBlocks.StorageRunAcceptedIff | packages/strategies/stress.go:313-334 | a chain accepts a whole storage run if and only if over all its blocks no signing succeeds after one that failed |
| StressBlocks.RejectedExample | packages/strategies/stress.go:313-334 | one failed signing before a successful one in the first packed block, and the chain rejects the run, however it goes on |
| StressBlocks.RunAcceptedIff | packages/strategies/stress.go:125-178 | a fresh chain accepts a run of any kind if and only if no storage signing succeeds after one that failed, and then has the strategy's nonces if and only if none failed |
| EndToEnd.SubmittedIsAccepted | packages/replayor/benchmark.go:276-299 | in every reachable state of the pipeline, however far the strategy has run ahead, a fresh chain accepts everything submitted so far if and only if no storage signing of those blocks succeeds after one that failed; its nonces are the strategy's at that block if and only if none failed |
| EndToEnd.MappedIsDefinedIff | packages/replayor/benchmark.go:276-299 | in every reachable state the strategy has come through all it was given, overshoot included, if and only if each of those blocks is one it can handle |
| EndToEnd.StressRequestIs | packages/strategies/stress.go:244-260 | a request of the stress strategy has the source block's attributes except for the transactions, the configured gas limit and a zero fee recipient |
| EndToEnd.RequestedIsAccepted | packages/replayor/benchmark.go:130-163 | the requests of a stress run carry, block for block, what the strategy made of the source blocks it was given; and a fresh chain accepts all of it if and only if no storage signing of those blocks succeeds after one that failed |
| EndToEnd.ServiceRunIsAccepted | packages/replayor/service.go:94-108 | and so it is for everything that a service configured for the stress strategy asks for after its walk-up, finished, stopped or crashed |

## Left out

- Benchmark.Benchmark.AddBlock: a collision of block hashes is excluded (`CollisionFree`); how a library reads the parameters in a block's extra data is a function; the share of successful transactions is a real number, not a rounded one.
- FetchRange.RangeReplayedIff: no block has a negative number; that client libraries take the numbers from -5 to -1 for names such as "latest" is not part of this model.
- Benchmark.Benchmark.Run: which blocking calls return early once the context is done is not modelled; the answers of a cancelled run are as arbitrary as those of any other.
- Service.Service.Start: after a stop, the walk-up's goroutines take their further steps before the second look at the head. Later ones do not run beside a benchmark in this model; by `NothingLeftToAdd` they could not add a block to it, since it starts only once all of the walk-up's blocks are there.
- Stats.StoredStats.Write: a write that fails is taken to leave storage as it was; how data is encoded, put on disk or sent to S3 is not modelled.
- Trace.AttributionExactIff: says nothing about the gas used after refunds, since the code records the last refund counter without the cap of EIP-3529.
- Stress.StressTest.CreateSignedTx: nonces are unbounded here, 64 bits wide in the code; values, fees, key material and the bytes of a call are left out.
- Stress.StressTest.BlockReceived: decoding the L1 attributes of the first transaction is taken to succeed.
- EndToEnd.RequestedIsAccepted: how a transaction is encoded is any lossless function; that an encoded transaction has the gas limit of the original is not used.
- StressBlocks.DrawingEndsIff: the number of draws is part of the oracle, since the code's loop has no bound of its own.
- The engine never reorganises its chain: a forkchoice update names the head or a child of it, as the code's own calls do.
- A source block is a function of its number: the source node answers honestly, and reorganisations of the source are not modelled.
- A strategy that panics ends the process; in the pipeline that is one more way to stop, like a failing fetch.
- The two tables of function names are an enumeration, and so is the strategy's name; configuration rejects a stress type of plain transfers, but the code has a default for it, which is modelled.
- Recording and writing statistics are atomic steps; the Go memory model's races on the slice are not modelled.
- RPC clients, retries, JWT, JSON, logging, metrics and flag parsing: input and output plumbing.
- Solidity sources, contract bytecode and the EVM beyond the gas bookkeeping of a trace.
