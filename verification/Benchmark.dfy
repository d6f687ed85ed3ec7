/**
 One benchmark run as the code runs it: the fields of the Benchmark struct, updated
 step by step by its goroutines under an arbitrary scheduler, with addBlock driving the
 engine and a monitor that writes the statistics from time to time. The context can be
 cancelled at any moment.
 */
module Benchmark {
  import opened Options
  import opened Uint64
  import opened Pipeline
  import opened Stats
  import opened Engine
  import opened BlockStats
  import OpCodeTable
  import opened BlockEnrichment

  /** Why a run ended early: a fetch failed, or the head could not be read at a tick, or addBlock failed. */
  datatype Failure = FetchFailed(block: nat) | HeadUnknown(tick: nat) | BlockFailed(block: nat)

  /** How Run returns: after the write on completion, or at once because the context was done. */
  datatype RunResult = Completed(saved: bool) | Interrupted | Crashed(why: Failure)

  /** What the outside world answers: whether a block can be fetched, whether the head can be read
      at the t-th tick, the engine's answers for a block, the receipts and traces found for it, and
      whether a storage attempt succeeds in the t-th write. */
  datatype World = World(
    fetches: nat -> bool,
    heads: nat -> bool,
    answers: nat -> Answers,
    lookups: nat -> Lookups,
    saves: nat -> nat -> bool)

  datatype LoaderAt = AtTest | AtFetch | AtSend | AtExit

  // ---------- What addBlock and a run do to the chain ----------

  ghost predicate CollisionFree(hash: Block -> Hash) {
    forall a, b :: hash(a) == hash(b) ==> a == b
  }

  function GasLimits(txs: seq<Tx>): u64 {
    if txs == [] then 0 else Add64(GasLimits(txs[..|txs| - 1]), txs[|txs| - 1].gas)
  }

  method SumGasLimits(txs: seq<Tx>) returns (gasLimit: u64)
    ensures gasLimit == GasLimits(txs)
  {
    gasLimit := 0;
    for i := 0 to |txs|
      invariant gasLimit == GasLimits(txs[..i])
    {
      assert txs[..i + 1][..i] == txs[..i];
      gasLimit := Add64(gasLimit, txs[i].gas);
    }
    assert txs[..|txs|] == txs;
  }

  /** The unbounded sum of the transactions' gas limits. */
  function TotalGas(txs: seq<Tx>): nat {
    if txs == [] then 0 else txs[0].gas + TotalGas(txs[1..])
  }

  lemma {:induction false} GasLimitsConcat(a: seq<Tx>, b: seq<Tx>)
    ensures GasLimits(a + b) == Add64(GasLimits(a), GasLimits(b))
  {
    if b == [] {
      assert a + b == a;
    } else {
      var n := |b| - 1;
      assert (a + b)[..|a + b| - 1] == a + b[..n];
      GasLimitsConcat(a, b[..n]);
    }
  }

  lemma GasLimitsOne(tx: Tx)
    ensures GasLimits([tx]) == tx.gas
  {
    assert [tx][..0] == [];
  }

  /** The gas limit in a record is the sum of its transactions' gas limits, modulo 2^64. */
  lemma {:induction false} GasLimitsAre(txs: seq<Tx>)
    ensures GasLimits(txs) == Mod(TotalGas(txs))
  {
    if txs != [] {
      GasLimitsAre(txs[1..]);
      GasLimitsConcat([txs[0]], txs[1..]);
      GasLimitsOne(txs[0]);
      assert [txs[0]] + txs[1..] == txs;
      ModAdd(txs[0].gas, TotalGas(txs[1..]));
    }
  }

  lemma TotalGasConcat(a: seq<Tx>, b: seq<Tx>)
    ensures TotalGas(a + b) == TotalGas(a) + TotalGas(b)
  {
    if a == [] {
      assert a + b == b;
    } else {
      assert (a + b)[1..] == a[1..] + b;
      TotalGasConcat(a[1..], b);
    }
  }

  /** So it does not depend on the order of the transactions. */
  lemma {:induction false} GasLimitsPermute(txs: seq<Tx>, other: seq<Tx>)
    requires multiset(txs) == multiset(other)
    ensures TotalGas(txs) == TotalGas(other) && GasLimits(txs) == GasLimits(other)
    decreases |txs|
  {
    GasLimitsAre(txs);
    GasLimitsAre(other);
    if txs == [] {
      assert |other| == |multiset(other)| == |multiset(txs)| == 0;
    } else {
      var n := |txs| - 1;
      assert txs == txs[..n] + [txs[n]];
      assert txs[n] in multiset(other);
      var i :| 0 <= i < |other| && other[i] == txs[n];
      var a, b := other[..i], other[i + 1..];
      assert other == a + ([txs[n]] + b);
      OpCodeTable.WithoutOne(txs[..n], txs[n], other, i);
      GasLimitsPermute(txs[..n], a + b);
      TotalGasConcat(txs[..n], [txs[n]]);
      TotalGasConcat(a, [txs[n]] + b);
      TotalGasConcat(a, b);
    }
  }

  /** The record of a replayed block. */
  function StatsOf(hash: Block -> Hash, p: BlockCreationParams, b: Block, m: Measured): BlockCreationStats {
    BlockCreationStats(b.number, hash(b), |p.transactions|, GasLimits(p.transactions), m)
  }

  /** What each block's record holds besides the block. */
  function ExtrasOf(f: Flags, w: World): nat -> Measured {
    (n: nat) => Measured(TimingsOf(w.answers(n).clock), EnrichmentOf(f, w.lookups(n)))
  }

  /** The block's number, hash and transactions in its record, its timings by the clock of its own
      calls, and what its own receipts and traces say. */
  lemma RecordIs(hash: Block -> Hash, params: nat -> BlockCreationParams, f: Flags, w: World, start: nat,
                 chain: seq<Block>, base: nat, stats: seq<BlockCreationStats>, i: nat)
    requires Records(hash, params, ExtrasOf(f, w), start, chain, base, stats) && i < |stats|
    ensures var b, n, r := chain[base + i], start + i, stats[i];
            && r.blockNumber == b.number && r.blockHash == hash(b)
            && r.txnCount == |params(n).transactions| && r.gasLimit == Mod(TotalGas(params(n).transactions))
            && r.measured.timings == TimingsOf(w.answers(n).clock)
            && r.measured.enrichment == EnrichmentOf(f, w.lookups(n))
  {
    GasLimitsAre(params(start + i).transactions);
  }

  /** The requests for n blocks from number `start` on. */
  function RequestsFor(rollupCfg: RollupConfig, params: nat -> BlockCreationParams, start: nat, n: nat)
    : (r: seq<BuildRequest>)
    ensures |r| == n && forall i: nat :: i < n ==> r[i] == RequestFor(rollupCfg, params(start + i))
  {
    seq(n, i requires 0 <= i < n => RequestFor(rollupCfg, params(start + i)))
  }

  /** The engine has been asked for the blocks from number `start` on, in order, once each. */
  ghost predicate Asked(rollupCfg: RollupConfig, params: nat -> BlockCreationParams, start: nat,
                        before: seq<BuildRequest>, after: seq<BuildRequest>)
  {
    |before| <= |after| && after == before + RequestsFor(rollupCfg, params, start, |after| - |before|)
  }

  lemma NothingAsked(rollupCfg: RollupConfig, params: nat -> BlockCreationParams, start: nat,
                     requests: seq<BuildRequest>)
    ensures Asked(rollupCfg, params, start, requests, requests)
  {
    assert requests + RequestsFor(rollupCfg, params, start, 0) == requests;
  }

  lemma AskedOne(rollupCfg: RollupConfig, params: nat -> BlockCreationParams, start: nat,
                 before: seq<BuildRequest>, after: seq<BuildRequest>)
    requires Asked(rollupCfg, params, start, before, after)
    ensures Asked(rollupCfg, params, start, before,
                  after + [RequestFor(rollupCfg, params(start + |after| - |before|))])
  {
  }

  /** `b` was built on `head` from `p`, and the strategy accepted it. */
  predicate BuiltFrom(hash: Block -> Hash, s: Strategy, p: BlockCreationParams, head: Block, b: Block) {
    IsChild(hash, head, b) && Accepts(s, hash(b), p)
  }

  /** The chain `after` is `before` and more blocks, built one on the other from the
      parameters of the blocks start, start+1, ... */
  ghost predicate Extends(hash: Block -> Hash, s: Strategy, params: nat -> BlockCreationParams, start: nat,
                          before: seq<Block>, after: seq<Block>)
  {
    && 0 < |before| <= |after|
    && after[..|before|] == before
    && forall i: nat :: i < |after| - |before| ==> Link(hash, s, params, start, |before|, after, i)
  }

  /** Block number i after the first `base` was built on the one before it. */
  predicate Link(hash: Block -> Hash, s: Strategy, params: nat -> BlockCreationParams, start: nat, base: nat,
                 chain: seq<Block>, i: nat)
    requires 0 < base && base + i < |chain|
  {
    BuiltFrom(hash, s, params(start + i), chain[base + i - 1], chain[base + i])
  }

  /** The records are those of the blocks that follow the first `base` of the chain, in order. */
  ghost predicate Records(hash: Block -> Hash, params: nat -> BlockCreationParams, extras: nat -> Measured,
                          start: nat, chain: seq<Block>, base: nat, stats: seq<BlockCreationStats>)
  {
    && base + |stats| <= |chain|
    && forall i: nat :: i < |stats| ==> stats[i] == StatsOf(hash, params(start + i), chain[base + i], extras(start + i))
  }

  lemma ExtendsOne(hash: Block -> Hash, s: Strategy, params: nat -> BlockCreationParams, start: nat,
                   before: seq<Block>, after: seq<Block>, b: Block)
    requires Extends(hash, s, params, start, before, after)
    requires BuiltFrom(hash, s, params(start + |after| - |before|), after[|after| - 1], b)
    ensures Extends(hash, s, params, start, before, after + [b])
  {
    var longer := after + [b];
    assert longer[..|before|] == after[..|before|];
    forall i: nat | i < |longer| - |before|
      ensures Link(hash, s, params, start, |before|, longer, i)
    {
      if i < |after| - |before| {
        assert Link(hash, s, params, start, |before|, after, i);
      }
    }
  }

  /** The blocks after the first `base` are those the engine answered with, one for each number
      from `start` on, every call that it takes to add them having succeeded. */
  ghost predicate Answered(hash: Block -> Hash, s: Strategy, params: nat -> BlockCreationParams, w: World,
                           start: nat, base: nat, chain: seq<Block>)
  {
    && 0 < base <= |chain|
    && forall i: nat :: i < |chain| - base ==> AnsweredAt(hash, s, params, w, start, base, chain, i)
  }

  predicate AnsweredAt(hash: Block -> Hash, s: Strategy, params: nat -> BlockCreationParams, w: World,
                       start: nat, base: nat, chain: seq<Block>, i: nat)
    requires 0 < base && base + i < |chain|
  {
    var a := w.answers(start + i);
    a.built == Some(chain[base + i]) && Builds(hash, s, chain[base + i - 1], params(start + i), a)
  }

  lemma AnsweredOne(hash: Block -> Hash, s: Strategy, params: nat -> BlockCreationParams, w: World,
                    start: nat, base: nat, chain: seq<Block>, b: Block)
    requires Answered(hash, s, params, w, start, base, chain)
    requires var n := start + |chain| - base;
             w.answers(n).built == Some(b) && Builds(hash, s, chain[|chain| - 1], params(n), w.answers(n))
    ensures Answered(hash, s, params, w, start, base, chain + [b])
  {
    var longer := chain + [b];
    forall i: nat | i < |longer| - base
      ensures AnsweredAt(hash, s, params, w, start, base, longer, i)
    {
      if i < |chain| - base {
        assert AnsweredAt(hash, s, params, w, start, base, chain, i);
      }
    }
  }

  /** Blocks built one on the other have consecutive numbers. */
  lemma {:induction false} ExtendsNumbers(hash: Block -> Hash, s: Strategy, params: nat -> BlockCreationParams,
                                          start: nat, before: seq<Block>, after: seq<Block>, i: nat)
    requires Extends(hash, s, params, start, before, after) && i <= |after| - |before|
    requires before[|before| - 1].number + i < U64
    ensures after[|before| - 1 + i].number == before[|before| - 1].number + i
  {
    if i == 0 {
      assert after[|before| - 1] == after[..|before|][|before| - 1];
    } else {
      ExtendsNumbers(hash, s, params, start, before, after, i - 1);
      assert Link(hash, s, params, start, |before|, after, i - 1);
    }
  }

  /** A run may start under a context that is done already. */
  lemma ReachableFromStart(c: Config, cancelled: bool)
    ensures Reachable(c, Init(c).(cancelled := cancelled))
  {
    assert After(c, []) == Some(Init(c));
    if cancelled {
      Extend(c, Init(c), Action.Cancel);
    }
  }

  lemma RecordsOne(hash: Block -> Hash, params: nat -> BlockCreationParams, extras: nat -> Measured, start: nat,
                   chain: seq<Block>, base: nat, stats: seq<BlockCreationStats>, b: Block)
    requires Records(hash, params, extras, start, chain, base, stats)
    ensures Records(hash, params, extras, start, chain + [b], base, stats)
    ensures base + |stats| == |chain| ==>
      var n := start + |stats|;
      Records(hash, params, extras, start, chain + [b], base, stats + [StatsOf(hash, params(n), b, extras(n))])
  {
  }

  /** The workers of a batch fetch blocks of the range, up to its end rounded up to a batch. */
  lemma FetchingInRange(c: Config, s: State)
    requires c.Fetchable() && Reachable(c, s) && s.loader.Fetching?
    ensures |s.loader.results| == CONCURRENCY
    ensures forall i :: i in s.loader.pending ==>
      i < CONCURRENCY && c.Start() <= Add64(s.cursor, i) <= c.head + c.Fetched() && Askable(Add64(s.cursor, i))
  {
    ReachableInv(c, s);
    BatchInRange(c, s.batches);
    assert forall i :: i in s.loader.pending ==> i in WORKERS;
  }

  lemma SubmitterHolds(c: Config, s: State)
    requires c.Fetchable() && Reachable(c, s) && s.submitter.Adding?
    ensures 0 < |s.submitted| <= c.count && s.submitter.block == c.head + |s.submitted|
  {
    ReachableInv(c, s);
  }

  /** Each block comes with its own number. */
  ghost predicate Numbered(params: nat -> BlockCreationParams) {
    forall n: nat :: n < U64 ==> params(n).number == n
  }

  class Benchmark {
    const cfg: Config
    const engine: ExecutionEngine
    const strategy: Strategy
    const recorder: Recorder
    const world: World
    const flags: Flags
    const rollupCfg: RollupConfig
    /** The source block with a given number, as the strategy turns it into parameters. */
    const params: nat -> BlockCreationParams

    // The loader
    var cursor: u64
    var loaderAt: LoaderAt
    var results: array<Option<u64>>
    var pending: set<nat>
    var next: nat
    // The channels
    var incomingBlocks: Channel<Option<u64>>
    var processBlocks: Channel<u64>
    // The mapper and the submitter
    var mapper: Mapper
    var submitter: Submitter
    var remainingBlockCount: u64
    var previousReplayedBlockHash: Hash
    // The context
    var cancelled: bool
    // What happened so far, and the chain before it
    ghost const chain0: seq<Block>
    ghost const requests0: seq<BuildRequest>
    ghost var batches: nat
    ghost var mapped: seq<u64>
    ghost var submitted: seq<u64>
    ghost var dropped: seq<u64>

    ghost function View(): State
      reads this, results
    {
      var loader := match loaderAt {
        case AtTest => Testing
        case AtFetch => Fetching(results[..], pending)
        case AtSend => Sending(results[..], next)
        case AtExit => LoaderExited
      };
      State(cursor, loader, incomingBlocks, mapper, processBlocks, submitter, remainingBlockCount, cancelled, false,
            batches, mapped, submitted, dropped)
    }

    ghost function RecorderRepr(): set<object> {
      if recorder.Recorder? then {recorder.target} else {}
    }

    ghost predicate EngineOk()
      reads `previousReplayedBlockHash, engine
    {
      CollisionFree(engine.hash) && engine.Valid() && previousReplayedBlockHash == engine.hash(engine.Head())
    }

    /** What holds even after a crash: the chain is the initial one and at most `count` accepted
        blocks in order, and what is recorded are the first of them. */
    ghost predicate Replayed()
      reads engine, RecorderRepr()
    {
      && Extends(engine.hash, strategy, params, cfg.Start(), chain0, engine.chain)
      && Answered(engine.hash, strategy, params, world, cfg.Start(), |chain0|, engine.chain)
      && |engine.chain| <= |chain0| + cfg.count
      && Asked(rollupCfg, params, cfg.Start(), requests0, engine.requests)
      && |engine.chain| - |chain0| <= |engine.requests| - |requests0| <= cfg.count
      && (recorder.Recorder? ==>
            Records(engine.hash, params, ExtrasOf(flags, world), cfg.Start(), engine.chain, |chain0|,
                    recorder.target.stats))
    }

    /** The number of blocks for which addBlock has returned. */
    ghost function Done(): int
      reads `submitted, `submitter
    {
      |submitted| - (if submitter.Adding? then 1 else 0)
    }

    ghost predicate Synced()
      reads `submitted, `submitter, `previousReplayedBlockHash, engine, RecorderRepr()
    {
      && EngineOk() && Replayed()
      && |engine.chain| == |chain0| + Done() && |engine.requests| == |requests0| + Done()
      && engine.Head().number == cfg.head + Done()
      && (recorder.Recorder? ==>
            && |recorder.target.stats| == Done()
            && recorder.target.lastBlockWritten <= engine.Head().number)
    }

    ghost predicate Valid()
      reads this, results, engine, RecorderRepr()
    {
      cfg.Fetchable() && Numbered(params) && Reachable(cfg, View()) && Synced()
    }

    constructor (engine: ExecutionEngine, strategy: Strategy, recorder: Recorder, params: nat -> BlockCreationParams,
                 world: World, flags: Flags, rollupCfg: RollupConfig, cancelled: bool, currentBlock: Block,
                 benchmarkBlockCount: u64)
      ensures cfg == Config(currentBlock.number, benchmarkBlockCount)
      ensures View() == Init(cfg).(cancelled := cancelled) && this.cancelled == cancelled
      ensures this.engine == engine && this.strategy == strategy && this.recorder == recorder && this.params == params
      ensures this.world == world && this.flags == flags && this.rollupCfg == rollupCfg
      ensures previousReplayedBlockHash == engine.hash(currentBlock) && fresh(results)
      ensures chain0 == engine.chain && requests0 == engine.requests
      ensures
        && cfg.Fetchable() && Numbered(params) && CollisionFree(engine.hash)
        && engine.Valid() && engine.Head() == currentBlock
        && (recorder.Recorder? ==>
              recorder.target.stats == [] && recorder.target.lastBlockWritten <= currentBlock.number)
        ==> Valid()
    {
      this.cfg := Config(currentBlock.number, benchmarkBlockCount);
      this.engine, this.strategy, this.recorder, this.params := engine, strategy, recorder, params;
      this.world, this.flags, this.rollupCfg, this.cancelled := world, flags, rollupCfg, cancelled;
      cursor := Add64(currentBlock.number, 1);
      loaderAt, pending, next := AtTest, {}, 0;
      results := new Option<u64>[0];
      incomingBlocks, processBlocks := Channel([], false), Channel([], false);
      mapper, submitter := Receiving, Waiting;
      remainingBlockCount := benchmarkBlockCount;
      previousReplayedBlockHash := engine.hash(currentBlock);
      chain0, requests0 := engine.chain, engine.requests;
      batches, mapped, submitted, dropped := 0, [], [], [];
      new;
      ReachableFromStart(cfg, cancelled);
    }

    // ---------- loadBlocks ----------

    method TestRange()
      requires Enabled(cfg, View(), Action.TestRange) && !incomingBlocks.closed
      modifies `loaderAt, `results, `pending, `incomingBlocks
      ensures View() == Apply(cfg, old(View()), Action.TestRange)
      ensures results == old(results) || fresh(results)
    {
      if cursor <= cfg.End() {
        results := new Option<u64>[CONCURRENCY](_ => None);
        pending := WORKERS;
        loaderAt := AtFetch;
        assert results[..] == ApplyTest(cfg, old(View())).loader.results;
      } else {
        incomingBlocks := incomingBlocks.(closed := true);
        loaderAt := AtExit;
      }
    }

    method FetchOk(i: nat)
      requires Enabled(cfg, View(), Action.FetchOk(i))
      modifies `pending, results
      ensures View() == Apply(cfg, old(View()), Action.FetchOk(i))
    {
      results[i] := Some(Add64(cursor, i));
      pending := pending - {i};
    }

    method PassBarrier()
      requires Enabled(cfg, View(), Barrier)
      modifies `loaderAt, `next
      ensures View() == Apply(cfg, old(View()), Barrier)
    {
      loaderAt, next := AtSend, 0;
    }

    method SendIncoming()
      requires Enabled(cfg, View(), Action.SendIncoming) && !incomingBlocks.closed
      modifies `loaderAt, `next, `cursor, `incomingBlocks, `batches
      ensures View() == Apply(cfg, old(View()), Action.SendIncoming)
    {
      incomingBlocks := incomingBlocks.(queue := incomingBlocks.queue + [results[next]]);
      next := next + 1;
      if next == results.Length {
        loaderAt := AtTest;
        cursor := Add64(cursor, CONCURRENCY);
        batches := batches + 1;
      }
    }

    // ---------- mapBlocks ----------

    method MapReceive()
      requires Enabled(cfg, View(), Action.MapReceive) && !processBlocks.closed
      modifies `mapper, `incomingBlocks, `processBlocks, `mapped
      ensures View() == Apply(cfg, old(View()), Action.MapReceive)
    {
      if incomingBlocks.queue != [] {
        var b := incomingBlocks.queue[0];
        incomingBlocks := incomingBlocks.(queue := incomingBlocks.queue[1..]);
        if b.Some? {
          mapper := Delivering(b.value);
          mapped := mapped + [b.value];
        }
      } else {
        processBlocks := processBlocks.(closed := true);
        mapper := MapperExited;
      }
    }

    method MapSend()
      requires Enabled(cfg, View(), Action.MapSend) && !processBlocks.closed
      modifies `mapper, `processBlocks
      ensures View() == Apply(cfg, old(View()), Action.MapSend)
    {
      processBlocks := processBlocks.(queue := processBlocks.queue + [mapper.block]);
      mapper := Receiving;
    }

    // ---------- submitBlocks ----------

    method SubmitReceive()
      requires Enabled(cfg, View(), Action.SubmitReceive)
      requires cfg.Fetchable() && Reachable(cfg, View()) && Numbered(params)
      modifies `submitter, `processBlocks, `submitted, `dropped
      ensures View() == Apply(cfg, old(View()), Action.SubmitReceive)
    {
      if processBlocks.queue == [] {
        submitter := SubmitterExited;
        return;
      }
      var b := processBlocks.queue[0];
      processBlocks := processBlocks.(queue := processBlocks.queue[1..]);
      if params(b).number > cfg.End() {
        submitter := SubmitterExited;
        dropped := dropped + [b];
      } else {
        submitter := Adding(b);
        submitted := submitted + [b];
      }
    }

    /** addBlock's conversation with the engine, timed: build on the head, take the payload, have
        it validated and executed, and make it the head. */
    method BuildBlock(p: BlockCreationParams, a: Answers) returns (payload: Option<Block>, timings: Timings)
      requires EngineOk()
      modifies engine
      ensures engine.Valid()
      ensures payload == if Succeeds(engine.hash, strategy, old(engine.Head()), p, a) then a.built else None
      ensures payload.Some? ==> timings == TimingsOf(a.clock)
      ensures engine.chain == old(engine.chain)
        + if Builds(engine.hash, strategy, old(engine.Head()), p, a) then [a.built.value] else []
      ensures engine.requests == old(engine.requests) + if a.update then [RequestFor(rollupCfg, p)] else []
      ensures forall b :: b in engine.imported && b !in old(engine.imported) ==> Accepts(strategy, engine.hash(b), p)
    {
      payload, timings := None, Timings(0, 0, 0, 0, 0);
      var request := BuildRequest(PayloadAttributes(p), None);
      if rollupCfg.isHolocene(p.time) {
        request := request.(eip1559Params := Some(rollupCfg.paramsIn(p.extra)));
      }

      var start := a.clock(0);
      var ok := engine.ForkchoiceUpdate(previousReplayedBlockHash, Some(request), a.update);
      var fcuEnd := a.clock(1);
      if !ok {
        return;
      }
      var envelope := engine.GetPayload(a.built);
      var getTime := a.clock(2);
      if envelope.None? {
        return;
      }
      var b := envelope.value;
      var blockHash := engine.hash(b);
      if !Accepts(strategy, blockHash, p) {
        return;
      }
      var newStart := a.clock(3);
      ok := engine.NewPayload(b, a.executed, a.valid);
      var newEnd := a.clock(4);
      if !ok {
        return;
      }
      assert b.number != engine.Head().number;
      ok := engine.ForkchoiceUpdate(blockHash, None, a.finalUpdate);
      var fcu2Time := a.clock(5);
      if !ok || !Accepts(strategy, blockHash, p) {
        return;
      }
      var fcu, get, newPayload, last := fcuEnd - start, getTime - fcuEnd, newEnd - newStart, fcu2Time - newEnd;
      payload, timings := envelope, Timings(fcu, get, newPayload, last, fcu + get + newPayload + last);
    }

    /** Build the next block and make it the head. It succeeds exactly when every call does and the
        strategy accepts the payload; otherwise the run is over, and the block was added only if
        nothing but the last answer is missing. */
    method AddBlock(p: BlockCreationParams, a: Answers, l: Lookups) returns (ok: bool)
      requires EngineOk()
      modifies `previousReplayedBlockHash, engine, RecorderRepr()
      ensures engine.Valid()
      ensures ok <==> Succeeds(engine.hash, strategy, old(engine.Head()), p, a)
      ensures engine.chain == old(engine.chain)
        + if Builds(engine.hash, strategy, old(engine.Head()), p, a) then [a.built.value] else []
      ensures ok ==> EngineOk()
      ensures engine.requests == old(engine.requests) + if a.update then [RequestFor(rollupCfg, p)] else []
      ensures forall b :: b in engine.imported && b !in old(engine.imported) ==> Accepts(strategy, engine.hash(b), p)
      ensures recorder.Recorder? ==>
        && recorder.target.stats == old(recorder.target.stats)
             + (if ok then
                  [StatsOf(engine.hash, p, a.built.value, Measured(TimingsOf(a.clock), EnrichmentOf(flags, l)))]
                else [])
        && recorder.target.lastBlockWritten == old(recorder.target.lastBlockWritten)
        && recorder.target.stored == old(recorder.target.stored)
    {
      hide CollisionFree, EnrichmentOf, TimingsOf, RequestFor, GasLimits, Accepts;
      var gasLimit := SumGasLimits(p.transactions);
      var payload, timings := BuildBlock(p, a);
      if payload.None? {
        return false;
      }
      ok := true;
      var b := payload.value;
      previousReplayedBlockHash := engine.hash(b);
      var enrichment := Enrich(flags, l);
      if recorder.Recorder? {
        var stats := BlockCreationStats(b.number, engine.hash(b), |p.transactions|, gasLimit,
                                        Measured(timings, enrichment));
        recorder.target.RecordBlockStats(stats);
      }
    }

    /** addBlock fails for block b on the block before it. */
    ghost predicate BlockFails(chain: seq<Block>, b: nat)
      requires |chain0| > 0
    {
      && cfg.Start() <= b <= cfg.head + cfg.count && |chain0| + b - cfg.Start() <= |chain|
      && !Succeeds(engine.hash, strategy, chain[|chain0| + b - cfg.Start() - 1], params(b), world.answers(b))
    }

    /** A reported failure has happened: a block of the fetched range could not be fetched, the
        head could not be read, or addBlock failed on the chain of that moment. */
    ghost predicate Happened(f: Failure, ticks: nat)
      requires |chain0| > 0
      reads engine
    {
      match f
      case FetchFailed(b) => cfg.Start() <= b <= cfg.head + cfg.Fetched() && !world.fetches(b)
      case HeadUnknown(t) => t < ticks && !world.heads(t)
      case BlockFailed(b) => BlockFails(engine.chain, b)
    }

    /** addBlock on the next block keeps the chain and the records in step. */
    method AddNext(b: nat) returns (ok: bool)
      requires cfg.Fetchable() && EngineOk() && Replayed() && |engine.chain| < |chain0| + cfg.count
      requires b == cfg.Start() + |engine.chain| - |chain0|
      requires |engine.requests| - |requests0| == |engine.chain| - |chain0|
      requires recorder.Recorder? ==> |recorder.target.stats| == |engine.chain| - |chain0|
      modifies `previousReplayedBlockHash, engine, RecorderRepr()
      ensures Replayed()
      ensures !ok ==> BlockFails(engine.chain, b)
      ensures ok ==>
        && Succeeds(engine.hash, strategy, old(engine.Head()), params(b), world.answers(b))
        && EngineOk()
        && |engine.chain| == |old(engine.chain)| + 1
        && |engine.requests| == |old(engine.requests)| + 1
        && engine.Head().number == Add64(old(engine.Head().number), 1)
        && (recorder.Recorder? ==>
              && |recorder.target.stats| == |engine.chain| - |chain0|
              && recorder.target.lastBlockWritten == old(recorder.target.lastBlockWritten))
    {
      hide GasLimits, EnrichmentOf, RequestFor, RequestsFor, Asked, Records, Link, AnsweredAt, CollisionFree, StatsOf;
      ghost var chain := engine.chain;
      AskedOne(rollupCfg, params, cfg.Start(), requests0, engine.requests);
      ok := AddBlock(params(b), world.answers(b), world.lookups(b));
      assert engine.chain[|chain| - 1] == chain[|chain| - 1];
      assert old(engine.requests) + [] == old(engine.requests);
      if recorder.Recorder? {
        assert old(recorder.target.stats) + [] == old(recorder.target.stats);
      }
      if engine.chain != chain {
        assert engine.chain == chain + [engine.Head()];
        ExtendsOne(engine.hash, strategy, params, cfg.Start(), chain0, chain, engine.Head());
        AnsweredOne(engine.hash, strategy, params, world, cfg.Start(), |chain0|, chain, engine.Head());
        if recorder.Recorder? {
          RecordsOne(engine.hash, params, ExtrasOf(flags, world), cfg.Start(), chain, |chain0|,
                     old(recorder.target.stats), engine.Head());
        }
      }
    }

    method CountDown()
      requires Enabled(cfg, View(), Action.SubmitFinish)
      modifies `submitter, `remainingBlockCount
      ensures submitter.Waiting? && View() == Apply(cfg, old(View()), Action.SubmitFinish)
    {
      submitter := Waiting;
      remainingBlockCount := Sub64(remainingBlockCount, 1);
    }

    /** The submitter's loop body after it received a block: add it and count it. */
    method SubmitFinish() returns (ok: bool)
      requires Valid() && Enabled(cfg, View(), Action.SubmitFinish)
      modifies `submitter, `remainingBlockCount, `previousReplayedBlockHash, engine, RecorderRepr()
      ensures ok ==> Synced() && View() == Apply(cfg, old(View()), Action.SubmitFinish)
      ensures Replayed()
      ensures !ok ==> BlockFails(engine.chain, old(submitter.block))
    {
      hide Reachable, Extends, Answered, Records, Measure, CollisionFree, Numbered, Asked;
      SubmitterHolds(cfg, View());
      ok := AddNext(submitter.block);
      if ok {
        CountDown();
      }
    }

    // ---------- Run ----------

    predicate LoaderReady()
      reads this
    {
      loaderAt == AtTest || loaderAt == AtFetch || (loaderAt == AtSend && |incomingBlocks.queue| < CAPACITY)
    }

    predicate MapperReady()
      reads this
    {
      || (mapper.Receiving? && (incomingBlocks.queue != [] || incomingBlocks.closed || cancelled))
      || (mapper.Delivering? && |processBlocks.queue| < CAPACITY)
    }

    predicate SubmitterReady()
      reads this
    {
      (submitter.Waiting? && (processBlocks.queue != [] || processBlocks.closed || cancelled)) || submitter.Adding?
    }

    /** A fetch worker, any one that is not done yet. A failing fetch ends the run. */
    method FetchStep() returns (failure: Option<Failure>)
      requires cfg.Fetchable() && Reachable(cfg, View()) && loaderAt == AtFetch && pending != {}
      modifies `pending, results
      ensures failure.None? ==> Reachable(cfg, View()) && 0 <= Measure(cfg, View()) < old(Measure(cfg, View()))
      ensures failure.Some? ==>
        && failure.value.FetchFailed? && !world.fetches(failure.value.block)
        && cfg.Start() <= failure.value.block <= cfg.head + cfg.Fetched()
    {
      ghost var before := View();
      FetchingInRange(cfg, before);
      var i :| i in pending;
      var block := Add64(cursor, i);
      var asked := ToInt64(block);
      if asked < 0 || !world.fetches(block) {
        return Some(FetchFailed(block));
      }
      failure := None;
      FetchOk(i);
      StepAdvances(cfg, before, Action.FetchOk(i));
    }

    /** Any step of the loader or one of its fetch workers. */
    method LoaderStep() returns (failure: Option<Failure>)
      requires cfg.Fetchable() && Reachable(cfg, View()) && LoaderReady()
      modifies `cursor, `loaderAt, `results, `pending, `next, `incomingBlocks, `batches, results
      ensures failure.None? ==> Reachable(cfg, View()) && 0 <= Measure(cfg, View()) < old(Measure(cfg, View()))
      ensures failure.Some? ==>
        && failure.value.FetchFailed? && !world.fetches(failure.value.block)
        && cfg.Start() <= failure.value.block <= cfg.head + cfg.Fetched()
      ensures results == old(results) || fresh(results)
    {
      ghost var before := View();
      failure := None;
      if loaderAt == AtFetch && pending != {} {
        failure := FetchStep();
        return;
      }
      ReachableInv(cfg, before);
      ghost var a: Action := Action.TestRange;
      match loaderAt {
        case AtTest =>
          TestRange();
        case AtSend =>
          a := Action.SendIncoming;
          SendIncoming();
        case AtFetch =>
          a := Action.Barrier;
          PassBarrier();
      }
      StepAdvances(cfg, before, a);
    }

    /** Any step of the mapper. */
    method MapperStep()
      requires cfg.Fetchable() && Reachable(cfg, View()) && MapperReady()
      modifies `mapper, `incomingBlocks, `processBlocks, `mapped
      ensures Reachable(cfg, View()) && 0 <= Measure(cfg, View()) < old(Measure(cfg, View()))
    {
      ghost var before := View();
      ReachableInv(cfg, before);
      if
      case mapper.Receiving? && (incomingBlocks.queue != [] || incomingBlocks.closed) =>
        MapReceive();
        StepAdvances(cfg, before, Action.MapReceive);
      case mapper.Receiving? && cancelled =>
        mapper := MapperExited;
        StepAdvances(cfg, before, Action.MapCancelled);
      case mapper.Delivering? =>
        MapSend();
        StepAdvances(cfg, before, Action.MapSend);
    }

    /** Any step of the submitter. A failing addBlock ends the run. */
    method SubmitterStep() returns (failure: Option<Failure>)
      requires Valid() && SubmitterReady()
      modifies `submitter, `processBlocks, `submitted, `dropped
      modifies `remainingBlockCount, `previousReplayedBlockHash, engine, RecorderRepr()
      ensures failure.None? ==> Valid() && 0 <= Measure(cfg, View()) < old(Measure(cfg, View()))
      ensures Replayed()
      ensures failure.Some? ==> failure.value.BlockFailed? && BlockFails(engine.chain, failure.value.block)
    {
      hide Reachable, Extends, Answered, Records, Measure, CollisionFree, Numbered, Asked;
      ghost var before := View();
      failure := None;
      if
      case submitter.Waiting? && (processBlocks.queue != [] || processBlocks.closed) =>
        SubmitReceive();
        StepAdvances(cfg, before, Action.SubmitReceive);
      case submitter.Waiting? && cancelled =>
        submitter := SubmitterExited;
        StepAdvances(cfg, before, Action.SubmitCancelled);
      case submitter.Adding? =>
        var block := submitter.block;
        ReachableInv(cfg, before);
        var ok := SubmitFinish();
        if !ok {
          return Some(BlockFailed(block));
        }
        StepAdvances(cfg, before, Action.SubmitFinish);
    }

    /** There is no deadlock: while a goroutine runs and nobody cancels, one of them can move. */
    lemma SomeoneReady()
      requires cfg.Fetchable() && Reachable(cfg, View())
      ensures cancelled || Finished(View()) || LoaderReady() || MapperReady() || SubmitterReady()
    {
      ReachableInv(cfg, View());
      if !cancelled && !Finished(View()) {
        var a := Progress(cfg, View());
      }
    }

    /** One step of whichever goroutine the scheduler picks. */
    method Step() returns (failure: Option<Failure>)
      requires Valid() && (LoaderReady() || MapperReady() || SubmitterReady())
      modifies this, results, engine, RecorderRepr()
      ensures failure.None? ==> Valid() && 0 <= Measure(cfg, View()) < old(Measure(cfg, View()))
      ensures Replayed()
      ensures failure.Some? ==> Happened(failure.value, 0)
      ensures results == old(results) || fresh(results)
      ensures cancelled == old(cancelled)
      ensures old(submitter.SubmitterExited?) ==> submitter.SubmitterExited? && engine.chain == old(engine.chain)
    {
      hide Reachable, Extends, Answered, Records, Measure, CollisionFree, Numbered, Asked;
      if
      case LoaderReady() =>
        failure := LoaderStep();
      case MapperReady() =>
        failure := None;
        MapperStep();
      case SubmitterReady() =>
        failure := SubmitterStep();
    }

    /** An attempt of the t-th write succeeds. */
    ghost predicate AnySaved(t: nat) { exists i: nat :: i < 3 && world.saves(t)(i) }

    /** What the monitor does at a tick: look at the head, and write the statistics when the last
        write is far enough behind. `gap` is the difference it computes; it never wraps. */
    method Tick(t: nat) returns (ok: bool, gap: u64)
      requires Valid()
      modifies RecorderRepr()
      ensures Valid() && (ok <==> world.heads(t))
      ensures recorder.Recorder? ==>
        && recorder.target.stats == old(recorder.target.stats)
        && recorder.target.stored == (if ok && gap >= 100 && AnySaved(t) then Some(recorder.target.stats)
                                      else old(recorder.target.stored))
      ensures ok && recorder.Recorder? ==>
        && gap == engine.Head().number - old(recorder.target.lastBlockWritten)
        && engine.Head().number - recorder.target.lastBlockWritten
             == if gap >= 100 && recorder.target.stats != [] then 0 else gap
    {
      hide Reachable, Extends, Answered, Records, Measure, CollisionFree, Numbered, Asked;
      ok, gap := world.heads(t), 0;
      if !ok {
        return;
      }
      var lastBlockNum := engine.Head().number;
      match recorder
      case NoOp =>
      case Recorder(target) =>
        gap := Sub64(lastBlockNum, target.lastBlockWritten);
        if gap >= WRITE_INTERVAL {
          if target.stats != [] {
            LastRecordIsHead();
          }
          var saved := target.Write(world.saves(t));
        }
    }

    lemma LastRecordIsHead()
      requires Valid() && recorder.Recorder? && recorder.target.stats != []
      ensures var stats := recorder.target.stats; stats[|stats| - 1].blockNumber == engine.Head().number
    {
      var stats := recorder.target.stats;
      assert stats[|stats| - 1]
          == StatsOf(engine.hash, params(cfg.Start() + (|stats| - 1)), engine.chain[|chain0| + (|stats| - 1)],
                     ExtrasOf(flags, world)(cfg.Start() + (|stats| - 1)));
    }

    lemma AllSubmitted()
      requires Valid() && submitter.SubmitterExited? && !cancelled
      ensures submitted == Range(cfg.Start(), cfg.count) && remainingBlockCount == 0 && Done() == cfg.count
    {
      SubmitterReplaysAll(cfg, View());
    }

    /** The write on completion covers every record. */
    method FinalWrite(t: nat) returns (saved: bool)
      requires Valid()
      modifies RecorderRepr()
      ensures Valid()
      ensures recorder.Recorder? ==> FinallyWritten(saved, t) && recorder.target.stats == old(recorder.target.stats)
    {
      hide Reachable, Extends, Answered, Records, Asked, CollisionFree, Numbered;
      saved := true;
      match recorder
      case NoOp =>
      case Recorder(target) =>
        if target.stats != [] {
          LastRecordIsHead();
        }
        saved := target.Write(world.saves(t));
    }

    /** The write on completion was made: unless all attempts failed, storage holds all records. */
    ghost predicate FinallyWritten(saved: bool, t: nat)
      requires recorder.Recorder? && engine.Valid()
      reads engine, RecorderRepr()
    {
      && (saved <==> AnySaved(t))
      && (saved ==> recorder.target.stored == Some(recorder.target.stats))
      && (recorder.target.stats != [] ==> recorder.target.lastBlockWritten == engine.Head().number)
    }

    /** The context is done: whoever waits on it may leave from now on. */
    method Cancel()
      requires Valid() && !cancelled
      modifies `cancelled
      ensures Valid() && cancelled && 0 <= Measure(cfg, View()) < old(Measure(cfg, View()))
    {
      hide Reachable, Extends, Answered, Records, Measure, CollisionFree, Numbered, Asked;
      ghost var before := View();
      cancelled := true;
      StepAdvances(cfg, before, Action.Cancel);
    }

    /** What Run has done when it returns by itself. */
    ghost predicate RunDone(r: RunResult, ticks: nat)
      reads this, results, engine, RecorderRepr()
    {
      && Valid()
      && (r.Completed? ==> submitter.SubmitterExited?)
      && (r.Completed? && recorder.Recorder? ==> FinallyWritten(r.saved, ticks))
      && (r.Interrupted? ==> cancelled)
      && (!cancelled ==>
            && submitted == Range(cfg.Start(), cfg.count) && remainingBlockCount == 0
            && |engine.chain| == |chain0| + cfg.count && |engine.requests| == |requests0| + cfg.count
            && (recorder.Recorder? ==> |recorder.target.stats| == cfg.count))
    }

    /** The submitter is done: write once more. */
    method Finish(ticks: nat) returns (r: RunResult)
      requires Valid() && submitter.SubmitterExited?
      modifies RecorderRepr()
      ensures r.Completed? && RunDone(r, ticks)
    {
      hide Reachable, Extends, Answered, Records, CollisionFree, Numbered;
      if !cancelled {
        AllSubmitted();
      }
      var saved := FinalWrite(ticks);
      r := Completed(saved);
    }

    /** Run the goroutines under any scheduler, with `ticks` monitor ticks in between at any time,
        until the submitter is done; then write once more. If the context is done, at the start or
        (if `cancellable`) at any moment, Run may also return at once, without a write. It always
        returns, even if a cancellation has left goroutines stuck; nothing but a failure, which it
        names, keeps it from returning by itself, and uncancelled it returns with everything done. */
    method Run(ticks: nat, cancellable: bool) returns (r: RunResult)
      requires Valid()
      modifies this, results, engine, RecorderRepr()
      ensures Replayed() && (results == old(results) || fresh(results))
      ensures !cancellable ==> cancelled == old(cancelled)
      ensures old(cancelled) ==> cancelled
      ensures if r.Crashed? then Happened(r.why, ticks) else RunDone(r, ticks)
    {
      hide Reachable, Extends, Answered, Records, Measure, CollisionFree, Numbered, FinallyWritten, Range, EngineOk;
      hide Asked;
      MeasureBounded(cfg, View());
      var tick := 0;
      while true
        invariant Valid() && (results == old(results) || fresh(results))
        invariant (!cancellable ==> cancelled == old(cancelled)) && (old(cancelled) ==> cancelled)
        invariant 0 <= Measure(cfg, View()) && tick <= ticks
        decreases Measure(cfg, View()) + ticks - tick
      {
        SomeoneReady();
        if
        case submitter.SubmitterExited? =>
          r := Finish(ticks);
          return;
        case cancelled =>
          return Interrupted;
        case cancellable && !cancelled =>
          Cancel();
        case tick < ticks =>
          var ok, gap := Tick(tick);
          if !ok {
            return Crashed(HeadUnknown(tick));
          }
          tick := tick + 1;
        case LoaderReady() || MapperReady() || SubmitterReady() =>
          var failure := Step();
          if failure.Some? {
            return Crashed(failure.value);
          }
      }
    }

    /** The goroutines may go on after Run has returned: any number of further steps. */
    method RunOn(steps: nat) returns (failure: Option<Failure>)
      requires Valid()
      modifies this, results, engine, RecorderRepr()
      ensures Replayed() && (results == old(results) || fresh(results))
      ensures cancelled == old(cancelled)
      ensures old(submitter.SubmitterExited?) ==> submitter.SubmitterExited? && engine.chain == old(engine.chain)
      ensures if failure.Some? then Happened(failure.value, 0) else Valid()
    {
      hide Reachable, Extends, Answered, Records, Measure, CollisionFree, Numbered, Asked;
      failure := None;
      var left := steps;
      while left > 0 && (LoaderReady() || MapperReady() || SubmitterReady())
        invariant Valid() && (results == old(results) || fresh(results))
        invariant cancelled == old(cancelled) && failure == None
        invariant old(submitter.SubmitterExited?) ==> submitter.SubmitterExited? && engine.chain == old(engine.chain)
      {
        failure := Step();
        if failure.Some? {
          return;
        }
        left := left - 1;
      }
    }

    /** Run, and whatever the goroutines still do after it. */
    method RunOut(ticks: nat, cancellable: bool, leftover: nat) returns (failure: Option<(Failure, nat)>)
      requires Valid()
      modifies this, results, engine, RecorderRepr()
      ensures Replayed()
      ensures !cancellable ==> cancelled == old(cancelled)
      ensures if failure.Some? then Happened(failure.value.0, failure.value.1)
              else Valid() && (!cancelled ==> |engine.chain| == |chain0| + cfg.count)
    {
      hide Reachable, Extends, Answered, Records, Asked, CollisionFree, Numbered, Range;
      var r := Run(ticks, cancellable);
      if r.Crashed? {
        return Some((r.why, ticks));
      }
      var late := RunOn(leftover);
      failure := if late.Some? then Some((late.value, 0)) else None;
    }
  }
}
