/**
 The replayor service: walk up to the configured start block by plain replay, recording
 nothing, then run and record the benchmark. The service can be stopped at any moment.
 */
module Service {
  import opened Options
  import opened Uint64
  import opened Stats
  import opened Engine
  import opened BlockStats
  import opened BlockEnrichment
  import opened Benchmark
  import opened Replay
  import P = Pipeline

  datatype StrategyName = ReplayName | StressName | OtherName

  /** A start block of 0 means that none is configured. */
  datatype ServiceConfig = ServiceConfig(
    benchmarkStartBlock: u64,
    blockCount: u64,
    strategy: StrategyName,
    flags: Flags,
    rollupCfg: RollupConfig)

  /** Start finishes after a final write, or, when stopped, possibly without one. */
  datatype Outcome = Finished(saved: Option<bool>) | WrongStart | Panicked

  const SYNC_ATTEMPTS: nat := 720

  function LoadStrategy(name: StrategyName): Option<Strategy> {
    match name
    case ReplayName => Some(OneForOne)
    case StressName => Some(Stress)
    case OtherName => None
  }

  /** The records are one per block first, first+1, ... */
  ghost predicate OnePerBlock(stats: seq<BlockCreationStats>, first: nat, n: nat) {
    |stats| == n && forall i :: 0 <= i < n ==> stats[i].blockNumber == first + i
  }

  lemma RecordsAreOnePerBlock(hash: Block -> Hash, s: Strategy, params: nat -> BlockCreationParams,
                              extras: nat -> Measured, start: nat, before: seq<Block>, after: seq<Block>,
                              stats: seq<BlockCreationStats>)
    requires Extends(hash, s, params, start, before, after)
    requires Records(hash, params, extras, start, after, |before|, stats)
    requires before[|before| - 1].number + 1 == start && start + |stats| <= U64
    ensures OnePerBlock(stats, start, |stats|)
  {
    forall i | 0 <= i < |stats|
      ensures stats[i].blockNumber == start + i
    {
      ExtendsNumbers(hash, s, params, start, before, after, i + 1);
      assert stats[i] == StatsOf(hash, params(start + i), after[|before| + i], extras(start + i));
    }
  }

  class Service {
    const cfg: ServiceConfig
    const engine: ExecutionEngine
    const stats: StoredStats
    const source: nat -> Block
    /** What the stress strategy makes of the source blocks. */
    const stressParams: nat -> BlockCreationParams
    /** What the engine builds in the recorded phase, if it cooperates. */
    const built: nat -> Block
    /** What the outside world answers: to the two looks at the head, while the engine syncs, and in either phase. */
    const looks: (bool, bool)
    const syncs: nat -> bool
    const walkUpWorld: World
    const world: World
    var closed: bool
    /** The context of both phases is done, because the service was stopped. */
    var cancelled: bool

    function ParamsOf(s: Strategy): nat -> BlockCreationParams {
      if s.OneForOne? then Params(engine.hash, source) else stressParams
    }

    /** The parameters of the recorded blocks. */
    function Planned(): nat -> BlockCreationParams {
      match cfg.strategy
      case ReplayName => Params(engine.hash, source)
      case _ => stressParams
    }

    /** Where the recorded phase starts: the configured block, or else the current head. */
    function RecordedFrom(head: u64): u64 {
      if cfg.benchmarkStartBlock != 0 then cfg.benchmarkStartBlock else head
    }

    /** No start block is configured, or it is not behind the head. */
    predicate NotPast(head: u64) {
      cfg.benchmarkStartBlock == 0 || head <= cfg.benchmarkStartBlock
    }

    ghost predicate Ready()
      reads engine, stats
    {
      && CollisionFree(engine.hash) && engine.Valid()
      && IsChain(engine.hash, source) && Numbered(stressParams)
      && stats.stats == [] && stats.lastBlockWritten == cfg.benchmarkStartBlock
      && var head := engine.Head().number;
         && (head < cfg.benchmarkStartBlock ==> P.Config(head, cfg.benchmarkStartBlock - head).Fetchable())
         && P.Config(RecordedFrom(head), cfg.blockCount).Fetchable()
    }

    constructor (cfg: ServiceConfig, engine: ExecutionEngine, source: nat -> Block,
                 stressParams: nat -> BlockCreationParams, built: nat -> Block, looks: (bool, bool), syncs: nat -> bool,
                 walkUpWorld: World, world: World)
      ensures this.cfg == cfg && this.engine == engine && this.source == source && this.stressParams == stressParams
      ensures this.built == built
      ensures this.looks == looks && this.syncs == syncs && this.walkUpWorld == walkUpWorld && this.world == world
      ensures fresh(stats) && stats.stats == [] && stats.lastBlockWritten == cfg.benchmarkStartBlock
      ensures !closed && !cancelled
    {
      this.cfg, this.engine, this.source, this.stressParams, this.built := cfg, engine, source, stressParams, built;
      this.looks, this.syncs, this.walkUpWorld, this.world := looks, syncs, walkUpWorld, world;
      stats := new StoredStats(cfg.benchmarkStartBlock);
      closed, cancelled := false, false;
    }

    /** What the recorded phase may rely on. */
    ghost predicate CanRecord()
      reads engine, stats
    {
      && CollisionFree(engine.hash) && engine.Valid()
      && IsChain(engine.hash, source) && Numbered(stressParams)
      && P.Config(engine.Head().number, cfg.blockCount).Fetchable()
      && stats.stats == [] && stats.lastBlockWritten <= engine.Head().number
    }

    /** The recorded phase, from the source's block `from` on, meets an engine that answers every
        call and builds a chain on that block; when replaying, the source's own chain. */
    ghost predicate Cooperative(s: Strategy, from: u64) {
      && IsChain(engine.hash, built) && Honest(world, built) && built(from) == source(from)
      && (s.OneForOne? ==> built == source)
    }

    ghost predicate CooperativeAsConfigured(from: u64) {
      || (cfg.strategy.ReplayName? && Cooperative(OneForOne, from))
      || (cfg.strategy.StressName? && Cooperative(Stress, from))
    }

    /** The head is the source's own block of that number. */
    ghost predicate OnSource()
      requires engine.Valid()
      reads engine
    {
      engine.Head() == source(engine.Head().number)
    }

    /** Ask the engine for its own head until it is done syncing, or give up and go on. */
    method AwaitSync() returns (synced: bool)
      requires engine.Valid()
      modifies engine
      ensures engine.chain == old(engine.chain) && engine.requests == old(engine.requests)
      ensures synced <==> exists i: nat :: i < 720 && syncs(i)
    {
      synced := false;
      var attempt := 0;
      while attempt < SYNC_ATTEMPTS && !synced
        invariant attempt <= SYNC_ATTEMPTS
        invariant engine.chain == old(engine.chain) && engine.requests == old(engine.requests)
        invariant if synced then exists i: nat :: i < SYNC_ATTEMPTS && syncs(i)
                  else forall i: nat :: i < attempt ==> !syncs(i)
        decreases SYNC_ATTEMPTS - attempt
      {
        synced := engine.ForkchoiceUpdate(engine.hash(engine.Head()), None, syncs(attempt));
        attempt := attempt + 1;
      }
    }

    method RunWalkUp(ticks: nat, leftover: nat, stops: bool) returns (ok: bool)
      requires Ready() && engine.Head().number < cfg.benchmarkStartBlock && !cancelled
      modifies `cancelled, engine
      ensures engine.Valid() && (!stops ==> !cancelled)
      ensures Extends(engine.hash, OneForOne, Params(engine.hash, source), old(engine.Head().number) + 1,
                      old(engine.chain), engine.chain)
      ensures ok ==> |engine.chain| - |old(engine.chain)| == engine.Head().number - old(engine.Head().number)
      ensures ok ==> |engine.requests| - |old(engine.requests)| == |engine.chain| - |old(engine.chain)|
      ensures Asked(cfg.rollupCfg, Params(engine.hash, source), old(engine.Head().number) + 1, old(engine.requests),
                    engine.requests)
      ensures ok && !cancelled ==> engine.Head().number == cfg.benchmarkStartBlock
      ensures !cancelled && old(OnSource()) && Honest(walkUpWorld, source) ==> ok
    {
      hide CollisionFree, Link, P.Reachable, Asked, Records, Honest, Follows;
      var head := engine.Head();
      var walkUp := new Benchmark(engine, OneForOne, NoOp, Params(engine.hash, source), walkUpWorld,
                                  Flags(false, false), cfg.rollupCfg, false, head,
                                  Sub64(cfg.benchmarkStartBlock, head.number));
      var failure := walkUp.RunOut(ticks, stops, leftover);
      cancelled := walkUp.cancelled;
      ok := failure.None?;
      if !ok && old(OnSource()) && Honest(walkUpWorld, source) {
        HonestRunCannotFail(walkUp, source, failure.value.0, failure.value.1);
      }
    }

    /** Replay up to the start block. Nothing is recorded, whatever happens. If the service is
        stopped, Run returns early, and the goroutines take some more steps before the next look
        at the head. */
    method WalkUp(ticks: nat, leftover: nat, stops: bool) returns (ok: bool)
      requires Ready() && engine.Head().number < cfg.benchmarkStartBlock && !cancelled
      modifies `cancelled, engine
      ensures engine.Valid() && (!stops ==> !cancelled)
      ensures GrewBySource(source, old(engine.Head().number) + 1, old(engine.chain), engine.chain)
      ensures ok && old(OnSource()) ==> OnSource()
      ensures ok ==> |engine.chain| - |old(engine.chain)| == engine.Head().number - old(engine.Head().number)
      ensures ok ==> |engine.requests| - |old(engine.requests)| == |engine.chain| - |old(engine.chain)|
      ensures Asked(cfg.rollupCfg, Params(engine.hash, source), old(engine.Head().number) + 1, old(engine.requests),
                    engine.requests)
      ensures ok && !cancelled ==> engine.Head().number == cfg.benchmarkStartBlock
      ensures !cancelled && old(OnSource()) && Honest(walkUpWorld, source) ==> ok
    {
      hide CollisionFree, P.Reachable, Extends, GrewBySource, SourceRun, IsChain, Asked;
      ghost var before := engine.chain;
      ok := RunWalkUp(ticks, leftover, stops);
      ReplayedChainIs(engine.hash, source, before[|before| - 1].number + 1, before, engine.chain);
      if ok && old(OnSource()) {
        GrowthStaysOnSource(engine.hash, source, before, engine.chain);
      }
    }

    /** The final write, the one after `ticks` ticks, had an attempt that succeeded exactly if
        `saved`; then storage holds all records. */
    ghost predicate Saved(saved: bool, ticks: nat)
      reads stats
    {
      && (saved <==> exists i: nat :: i < 3 && world.saves(ticks)(i))
      && (saved ==> stats.stored == Some(stats.stats))
    }

    method RunBenchmark(strategy: Strategy, ticks: nat, stops: bool) returns (r: RunResult)
      requires CanRecord()
      modifies `cancelled, engine, stats
      ensures (!stops ==> cancelled == old(cancelled)) && (old(cancelled) ==> cancelled)
      ensures Extends(engine.hash, strategy, ParamsOf(strategy), old(engine.Head().number) + 1,
                      old(engine.chain), engine.chain)
      ensures Records(engine.hash, ParamsOf(strategy), ExtrasOf(cfg.flags, world), old(engine.Head().number) + 1,
                      engine.chain, |old(engine.chain)|, stats.stats)
      ensures Asked(cfg.rollupCfg, ParamsOf(strategy), old(engine.Head().number) + 1, old(engine.requests),
                    engine.requests)
      ensures |stats.stats| <= cfg.blockCount
      ensures r.Completed? ==> Saved(r.saved, ticks)
      ensures !r.Crashed? && !cancelled ==>
        && r.Completed?
        && |engine.chain| == |old(engine.chain)| + cfg.blockCount
        && |engine.requests| == |old(engine.requests)| + cfg.blockCount
        && |stats.stats| == cfg.blockCount
      ensures !cancelled && old(OnSource()) && Cooperative(strategy, old(engine.Head().number)) ==> !r.Crashed?
    {
      hide CollisionFree, P.Reachable, Asked, Link, Honest, Follows;
      var head := engine.Head();
      var benchmark := new Benchmark(engine, strategy, Recorder(stats), ParamsOf(strategy), world, cfg.flags,
                                     cfg.rollupCfg, cancelled, head, cfg.blockCount);
      r := benchmark.Run(ticks, stops);
      cancelled := benchmark.cancelled;
      if r.Crashed? && old(OnSource()) && Cooperative(strategy, head.number) {
        HonestRunCannotFail(benchmark, built, r.why, ticks);
      }
    }

    /** What the recorded phase has done with the parameters `params`, from block `first` on: the
        engine was asked for those blocks in order, once each, and the records are those of the
        blocks after the first `base` of the chain, each with its own clock, receipts and traces. */
    ghost predicate PhaseDone(params: nat -> BlockCreationParams, first: nat, base: nat, requests0: seq<BuildRequest>)
      reads engine, stats
    {
      && Asked(cfg.rollupCfg, params, first, requests0, engine.requests)
      && Records(engine.hash, params, ExtrasOf(cfg.flags, world), first, engine.chain, base, stats.stats)
    }

    /** The benchmark proper, from the current head. */
    method Record(strategy: Strategy, ticks: nat, stops: bool) returns (r: RunResult)
      requires CanRecord()
      modifies `cancelled, engine, stats
      ensures (!stops ==> cancelled == old(cancelled)) && (old(cancelled) ==> cancelled)
      ensures strategy.OneForOne? ==>
        GrewBySource(source, old(engine.Head().number) + 1, old(engine.chain), engine.chain)
      ensures PhaseDone(if strategy.OneForOne? then Params(engine.hash, source) else stressParams,
                        old(engine.Head().number) + 1, |old(engine.chain)|, old(engine.requests))
      ensures OnePerBlock(stats.stats, old(engine.Head().number) + 1, |stats.stats|) && |stats.stats| <= cfg.blockCount
      ensures !cancelled && old(OnSource()) && Cooperative(strategy, old(engine.Head().number)) ==> !r.Crashed?
      ensures r.Completed? ==> Saved(r.saved, ticks)
      ensures !r.Crashed? && !cancelled ==>
        && r.Completed?
        && |engine.chain| == |old(engine.chain)| + cfg.blockCount
        && |engine.requests| == |old(engine.requests)| + cfg.blockCount
        && |stats.stats| == cfg.blockCount
    {
      hide CollisionFree, Saved, Honest, Asked, Records, Cooperative;
      ghost var start := engine.Head().number + 1;
      ghost var before := engine.chain;
      r := RunBenchmark(strategy, ticks, stops);
      RecordsAreOnePerBlock(engine.hash, strategy, ParamsOf(strategy), ExtrasOf(cfg.flags, world), start, before,
                            engine.chain, stats.stats);
      if strategy.OneForOne? {
        ReplayedChainIs(engine.hash, source, start, before, engine.chain);
      }
    }

    /** The destination's latest block, if the node answers. */
    method LatestBlock(answered: bool) returns (b: Option<Block>)
      requires engine.Valid()
      ensures b == if answered then Some(engine.Head()) else None
    {
      b := if answered then Some(engine.Head()) else None;
    }

    /** Between the phases: from the block `from` on, if the head is there, the benchmark may start. */
    ghost predicate Prepared(from: u64)
      reads engine, stats
    {
      && CollisionFree(engine.hash) && engine.Valid()
      && IsChain(engine.hash, source) && Numbered(stressParams)
      && P.Config(from, cfg.blockCount).Fetchable()
      && stats.stats == [] && stats.lastBlockWritten == cfg.benchmarkStartBlock
      && (if cfg.benchmarkStartBlock == 0 then from == engine.Head().number else from == cfg.benchmarkStartBlock)
    }

    /** The first phase: bring the destination to the start block, if one is configured. */
    method Prepare(ticks: nat, leftover: nat, stops: bool) returns (ok: bool)
      requires Ready() && !cancelled
      modifies `cancelled, engine
      ensures engine.Valid() && (!stops ==> !cancelled)
      ensures GrewBySource(source, old(engine.Head().number) + 1, old(engine.chain), engine.chain)
      ensures !NotPast(old(engine.Head().number)) ==> !ok && engine.chain == old(engine.chain)
      ensures Asked(cfg.rollupCfg, Params(engine.hash, source), old(engine.Head().number) + 1, old(engine.requests),
                    engine.requests)
      ensures ok ==> |engine.requests| - |old(engine.requests)| == |engine.chain| - |old(engine.chain)|
      ensures ok ==> Prepared(RecordedFrom(old(engine.Head().number)))
      ensures ok && !cancelled ==> engine.Head().number == RecordedFrom(old(engine.Head().number))
      ensures ok ==> |engine.chain| - |old(engine.chain)| == engine.Head().number - old(engine.Head().number)
      ensures ok && old(OnSource()) ==> OnSource()
      ensures
        && !cancelled && old(OnSource()) && looks.0 && Honest(walkUpWorld, source)
        && NotPast(old(engine.Head().number))
        ==> ok
    {
      hide CollisionFree, Honest, IsChain;
      NothingAsked(cfg.rollupCfg, Params(engine.hash, source), engine.Head().number + 1, engine.requests);
      hide Asked;
      var current := LatestBlock(looks.0);
      if current.None? {
        return false;
      }
      var synced := AwaitSync();
      ok := true;
      if cfg.benchmarkStartBlock != 0 {
        if current.value.number < cfg.benchmarkStartBlock {
          ok := WalkUp(ticks, leftover, stops);
        } else if current.value.number > cfg.benchmarkStartBlock {
          ok := false;
        }
      }
    }

    lemma NothingDone(params: nat -> BlockCreationParams, first: nat)
      requires stats.stats == []
      ensures PhaseDone(params, first, |engine.chain|, engine.requests)
    {
      NothingAsked(cfg.rollupCfg, params, first, engine.requests);
    }

    /** The second phase: check the head again, load the strategy, and run the benchmark. */
    method MeasureBlocks(ghost from: u64, ticks: nat, stops: bool) returns (r: Outcome)
      requires Prepared(from)
      modifies `cancelled, engine, stats
      ensures (!stops ==> cancelled == old(cancelled)) && (old(cancelled) ==> cancelled)
      ensures r.WrongStart? ==> old(engine.Head().number) != from
      ensures cfg.strategy.OtherName? ==> !r.Finished? && stats.stats == []
      ensures OnePerBlock(stats.stats, from + 1, |stats.stats|) && |stats.stats| <= cfg.blockCount
      ensures old(engine.Head().number) != from ==>
        engine.chain == old(engine.chain) && engine.requests == old(engine.requests) && stats.stats == []
      ensures cfg.strategy.ReplayName? ==>
        GrewBySource(source, old(engine.Head().number) + 1, old(engine.chain), engine.chain)
      ensures PhaseDone(Planned(), old(engine.Head().number) + 1, |old(engine.chain)|, old(engine.requests))
      ensures cfg.strategy.OtherName? ==> engine.requests == old(engine.requests) && engine.chain == old(engine.chain)
      ensures r.Finished? && r.saved.Some? ==> Saved(r.saved.value, ticks)
      ensures r.Finished? ==> old(engine.Head().number) == from
      ensures r.Finished? && !cancelled ==>
        && r.saved.Some?
        && |engine.requests| == |old(engine.requests)| + cfg.blockCount
        && |engine.chain| == |old(engine.chain)| + cfg.blockCount
        && |stats.stats| == cfg.blockCount
      ensures
        && old(OnSource()) && old(engine.Head().number) == from && !cancelled && looks.1
        && CooperativeAsConfigured(from)
        ==> r.Finished?
    {
      hide CollisionFree, Honest, IsChain, Saved;
      NothingDone(Planned(), engine.Head().number + 1);
      hide PhaseDone;
      var current := LatestBlock(looks.1);
      if current.None? {
        return Panicked;
      }
      if cfg.benchmarkStartBlock != 0 && cfg.benchmarkStartBlock != current.value.number {
        return WrongStart;
      }
      var strategy := LoadStrategy(cfg.strategy);
      if strategy.None? {
        return Panicked;
      }
      var run := Record(strategy.value, ticks, stops);
      match run
      case Crashed(_) => r := Panicked;
      case Completed(saved) => r := Finished(Some(saved));
      case Interrupted => r := Finished(None);
    }

    /** What both phases have asked for and recorded, the first of `params` being for block from + 1:
        the walk-up asked for `walked` source blocks after number `head`, and what follows was asked
        for by the recorded phase. There are records only if the walk-up came to `from`. */
    ghost predicate BothPhases(params: nat -> BlockCreationParams, head: nat, from: nat, walked: nat, base: nat,
                               requests0: seq<BuildRequest>)
      reads engine, stats
    {
      var walkUp := RequestsFor(cfg.rollupCfg, Params(engine.hash, source), head + 1, walked);
      && Asked(cfg.rollupCfg, params, from + 1, requests0 + walkUp, engine.requests)
      && (stats.stats != [] ==>
            && head + walked == from
            && Records(engine.hash, params, ExtrasOf(cfg.flags, world), from + 1, engine.chain, base + walked,
                       stats.stats))
    }

    /** The recorded phase replays the source, or runs the stress test, as the configuration says. */
    ghost predicate AsConfigured(head: u64, walked: nat, base: nat, requests0: seq<BuildRequest>)
      reads engine, stats
    {
      var from := RecordedFrom(head);
      && (cfg.strategy.ReplayName? ==>
            BothPhases(Params(engine.hash, source), head, from, walked, base, requests0))
      && (cfg.strategy.StressName? ==> BothPhases(stressParams, head, from, walked, base, requests0))
    }

    /** Under the stress strategy, what follows the walk-up's requests is asked for by the recorded phase. */
    lemma StressAsked(head: u64, walked: nat, base: nat, requests0: seq<BuildRequest>)
      requires cfg.strategy.StressName? && AsConfigured(head, walked, base, requests0)
      ensures var walkUp := RequestsFor(cfg.rollupCfg, Params(engine.hash, source), head + 1, walked);
              |walkUp| == walked
              && Asked(cfg.rollupCfg, stressParams, RecordedFrom(head) + 1, requests0 + walkUp, engine.requests)
    {
    }

    /** So far only the walk-up has asked for anything. */
    lemma OnlyWalkedUp(head: u64, base: nat, requests0: seq<BuildRequest>)
      requires Asked(cfg.rollupCfg, Params(engine.hash, source), head + 1, requests0, engine.requests)
      requires stats.stats == []
      ensures AsConfigured(head, |engine.requests| - |requests0|, base, requests0)
    {
      NothingAsked(cfg.rollupCfg, Planned(), RecordedFrom(head) + 1, engine.requests);
    }

    /** The recorded phase, begun at `current`, took over where the walk-up ended, or did nothing. */
    lemma PhasesJoin(head: u64, current: nat, base: nat, requests0: seq<BuildRequest>, requests1: seq<BuildRequest>)
      requires Asked(cfg.rollupCfg, Params(engine.hash, source), head + 1, requests0, requests1)
      requires head + |requests1| - |requests0| == current
      requires PhaseDone(Planned(), current + 1, base + |requests1| - |requests0|, requests1)
      requires current != RecordedFrom(head) ==> engine.requests == requests1 && stats.stats == []
      ensures AsConfigured(head, |requests1| - |requests0|, base, requests0)
    {
      if current != RecordedFrom(head) {
        OnlyWalkedUp(head, base, requests0);
      }
    }

    /** Both phases, with the service stopped at any moment if `stops`. Past the start block, or
        without a strategy, nothing is recorded. Whatever happens, only blocks after the start
        block are recorded, each once and in order; a walk-up that was stopped too early ends
        with the error for a wrong start, before anything is measured. */
    method Start(walkUpTicks: nat, leftover: nat, ticks: nat, stops: bool) returns (r: Outcome, ghost walked: nat)
      requires Ready() && !cancelled
      modifies `closed, `cancelled, engine, stats
      ensures r.WrongStart? ==> cancelled && stats.stats == []
      ensures !stops ==> !cancelled
      ensures !NotPast(old(engine.Head().number)) ==>
        r.Panicked? && engine.chain == old(engine.chain) && stats.stats == []
      ensures cfg.strategy.OtherName? ==> !r.Finished? && stats.stats == []
      ensures OnePerBlock(stats.stats, RecordedFrom(old(engine.Head().number)) + 1, |stats.stats|)
      ensures |stats.stats| <= cfg.blockCount
      ensures r.Finished? ==> closed && (r.saved.Some? ==> Saved(r.saved.value, ticks))
      ensures r.Finished? && !cancelled ==>
        && r.saved.Some?
        && |stats.stats| == cfg.blockCount
        && |engine.chain| == |old(engine.chain)|
             + RecordedFrom(old(engine.Head().number)) - old(engine.Head().number) + cfg.blockCount
        && |engine.requests| == |old(engine.requests)| + walked + cfg.blockCount
      ensures r.Finished? ==> old(engine.Head().number) + walked == RecordedFrom(old(engine.Head().number))
      // What the engine is asked for and what is recorded is what the configured strategy says.
      ensures AsConfigured(old(engine.Head().number), walked, |old(engine.chain)|, old(engine.requests))
      // Replaying, the destination chain only ever grows by the source's own blocks.
      ensures cfg.strategy.ReplayName? ==>
        GrewBySource(source, old(engine.Head().number) + 1, old(engine.chain), engine.chain)
      // And on the source's chain, at or below the start block, in a cooperative world, it finishes.
      ensures
        && old(OnSource()) && NotPast(old(engine.Head().number)) && !cancelled && looks.0 && looks.1
        && Honest(walkUpWorld, source) && CooperativeAsConfigured(RecordedFrom(old(engine.Head().number)))
        ==> r.Finished?
    {
      hide CollisionFree, Honest, IsChain, Saved, PhaseDone, AsConfigured, GrewBySource, CooperativeAsConfigured;
      hide Records, RequestsFor, OnSource, Numbered;
      ghost var head := engine.Head().number;
      ghost var before, requests0 := engine.chain, engine.requests;
      var prepared := Prepare(walkUpTicks, leftover, stops);
      walked := |engine.requests| - |requests0|;
      hide Asked;
      if !prepared {
        OnlyWalkedUp(head, |before|, requests0);
        return Panicked, walked;
      }
      ghost var walkedUp, requests1 := engine.chain, engine.requests;
      r := MeasureBlocks(RecordedFrom(head), ticks, stops);
      PhasesJoin(head, walkedUp[|walkedUp| - 1].number, |before|, requests0, requests1);
      if cfg.strategy.ReplayName? {
        GrowthsJoin(source, head + 1, before, walkedUp, engine.chain);
      }
      if r.Finished? {
        closed := true;
      }
    }
  }
}
