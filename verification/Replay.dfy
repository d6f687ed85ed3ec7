/**
 What replaying one for one does to the destination chain: it can only be extended by the
 source chain itself, block for block.
 */
module Replay {
  import opened Options
  import opened Uint64
  import opened Stats
  import opened Engine
  import opened BlockStats
  import opened Benchmark

  /** A source chain: block n has number n and names block n - 1 as its parent. */
  ghost predicate IsChain(hash: Block -> Hash, source: nat -> Block) {
    && (forall n: nat :: n < U64 ==> source(n).number == n)
    && (forall n: nat :: n + 1 < U64 ==> Follows(hash, source, n))
  }

  predicate Follows(hash: Block -> Hash, source: nat -> Block, n: nat) {
    source(n + 1).parent == hash(source(n))
  }

  /** The parameters the replay strategy makes of the source blocks. */
  function Params(hash: Block -> Hash, source: nat -> Block): nat -> BlockCreationParams {
    (n: nat) => BlockToCreationParams(hash, source(n))
  }

  /** The engine is asked for the source block's own attributes, and from Holocene on for the
      parameters in its extra data. */
  lemma RequestIsSource(rollupCfg: RollupConfig, hash: Block -> Hash, source: nat -> Block, n: nat)
    ensures var b, r := source(n), RequestFor(rollupCfg, Params(hash, source)(n));
            && r.attributes == b.attributes
            && (r.eip1559Params.Some? <==> rollupCfg.isHolocene(b.attributes.timestamp))
            && (r.eip1559Params.Some? ==> r.eip1559Params.value == rollupCfg.paramsIn(b.extra))
  {
  }

  /** Whatever the engine built, each block that was added is the source block, and has the
      attributes that addBlock asked the engine for. */
  lemma ReplayedBlockIsSource(hash: Block -> Hash, source: nat -> Block, start: nat,
                              before: seq<Block>, after: seq<Block>, i: nat)
    requires CollisionFree(hash)
    requires Extends(hash, OneForOne, Params(hash, source), start, before, after)
    requires i < |after| - |before|
    ensures after[|before| + i] == source(start + i)
    ensures PayloadAttributes(Params(hash, source)(start + i)) == after[|before| + i].attributes
  {
    assert Link(hash, OneForOne, Params(hash, source), start, |before|, after, i);
  }

  /** The n source blocks from number `start` on. */
  function SourceRun(source: nat -> Block, start: nat, n: nat): (r: seq<Block>)
    ensures |r| == n && forall k :: 0 <= k < n ==> r[k] == source(start + k)
  {
    seq(n, k requires 0 <= k < n => source(start + k))
  }

  /** The chain `after` is `before` and then consecutive source blocks from number `start` on. */
  ghost predicate GrewBySource(source: nat -> Block, start: nat, before: seq<Block>, after: seq<Block>) {
    |before| <= |after| && after == before + SourceRun(source, start, |after| - |before|)
  }

  lemma GrowthsJoin(source: nat -> Block, start: nat, before: seq<Block>, middle: seq<Block>, after: seq<Block>)
    requires GrewBySource(source, start, before, middle)
    requires GrewBySource(source, start + |middle| - |before|, middle, after)
    ensures GrewBySource(source, start, before, after)
  {
    var m := |middle| - |before|;
    var n := |after| - |middle|;
    assert SourceRun(source, start, m) + SourceRun(source, start + m, n) == SourceRun(source, start, m + n);
  }

  /** A chain on the source's own block stays on the source. */
  lemma GrowthStaysOnSource(hash: Block -> Hash, source: nat -> Block, before: seq<Block>, after: seq<Block>)
    requires IsChain(hash, source) && before != []
    requires before[|before| - 1] == source(before[|before| - 1].number)
    requires GrewBySource(source, before[|before| - 1].number + 1, before, after)
    requires before[|before| - 1].number + |after| - |before| < U64
    ensures after[|after| - 1] == source(after[|after| - 1].number)
  {
    if |after| > |before| {
      assert after[|after| - 1] == source(before[|before| - 1].number + (|after| - |before|));
    }
  }

  /** So the chain is always the initial one and a run of consecutive source blocks. */
  lemma ReplayedChainIs(hash: Block -> Hash, source: nat -> Block, start: nat, before: seq<Block>, after: seq<Block>)
    requires CollisionFree(hash)
    requires Extends(hash, OneForOne, Params(hash, source), start, before, after)
    ensures GrewBySource(source, start, before, after)
  {
    forall k: nat | |before| <= k < |after|
      ensures after[k] == source(start + (k - |before|))
    {
      ReplayedBlockIsSource(hash, source, start, before, after, k - |before|);
    }
    assert after == after[..|before|] + after[|before|..];
  }

  /** Replay can add a block at all if and only if the head it starts from is the source's own
      block start - 1. On any other chain even a block with the right contents is refused. */
  lemma ReplayStartsIff(hash: Block -> Hash, source: nat -> Block, start: nat, before: seq<Block>)
    requires CollisionFree(hash) && IsChain(hash, source) && before != [] && 0 < start < U64
    ensures
      (exists after: seq<Block> ::
         |after| > |before| && Extends(hash, OneForOne, Params(hash, source), start, before, after))
      <==> before[|before| - 1] == source(start - 1)
  {
    assert Follows(hash, source, start - 1);
    var params := Params(hash, source);
    if before[|before| - 1] == source(start - 1) {
      assert Extends(hash, OneForOne, params, start, before, before);
      ExtendsOne(hash, OneForOne, params, start, before, before, source(start));
      assert |before + [source(start)]| > |before|;
    }
    forall after: seq<Block> | |after| > |before| && Extends(hash, OneForOne, params, start, before, after)
      ensures before[|before| - 1] == source(start - 1)
    {
      assert Link(hash, OneForOne, params, start, |before|, after, 0);
      assert after[|before| - 1] == after[..|before|][|before| - 1];
    }
  }

  /** After every completed addBlock, the head, the hash the next block will be built on and the
      source block's hash agree. */
  lemma HashesAgree(b: Benchmark, source: nat -> Block)
    requires b.Valid() && b.strategy.OneForOne?
    requires b.params == Params(b.engine.hash, source)
    ensures b.Done() > 0 ==>
      && b.engine.Head() == source(b.cfg.head + b.Done())
      && b.previousReplayedBlockHash == b.engine.hash(source(b.cfg.head + b.Done()))
  {
    if b.Done() > 0 {
      ReplayedBlockIsSource(b.engine.hash, source, b.cfg.Start(), b.chain0, b.engine.chain, b.Done() - 1);
    }
  }

  /** Parameters, results and all: what is recorded of a replayed block is what the source says. */
  lemma RecordsAreSource(hash: Block -> Hash, source: nat -> Block, start: nat, before: seq<Block>, after: seq<Block>,
                         extras: nat -> Measured, stats: seq<BlockCreationStats>, i: nat)
    requires CollisionFree(hash)
    requires Extends(hash, OneForOne, Params(hash, source), start, before, after)
    requires Records(hash, Params(hash, source), extras, start, after, |before|, stats) && i < |stats|
    ensures var b := source(start + i);
      stats[i] == BlockCreationStats(b.number, hash(b), |b.attributes.transactions|,
                                     GasLimits(b.attributes.transactions), extras(start + i))
  {
    ReplayedBlockIsSource(hash, source, start, before, after, i);
  }

  // ---------- A cooperative world ----------

  /** Every call succeeds, and the payload is the block b. */
  predicate Cooperates(a: Answers, b: Block) {
    a.update && a.built == Some(b) && a.executed && a.valid && a.finalUpdate
  }

  /** Everything can be fetched and read, and asked for block n the engine builds `blocks(n)`. */
  ghost predicate Honest(w: World, blocks: nat -> Block) {
    && (forall n: nat :: w.fetches(n))
    && (forall t: nat :: w.heads(t))
    && (forall n: nat :: Cooperates(w.answers(n), blocks(n)))
  }

  /** When replaying, the blocks must be the source's own; the stress strategy takes any. */
  lemma HonestSucceeds(hash: Block -> Hash, s: Strategy, params: nat -> BlockCreationParams, blocks: nat -> Block,
                       w: World, n: nat)
    requires IsChain(hash, blocks) && Honest(w, blocks) && n + 1 < U64
    requires s.OneForOne? ==> params == Params(hash, blocks)
    ensures Succeeds(hash, s, blocks(n), params(n + 1), w.answers(n + 1))
  {
    assert Follows(hash, blocks, n) && Cooperates(w.answers(n + 1), blocks(n + 1));
  }

  /** On the head of that chain, every block added is one of that chain. */
  lemma AddsWhatWasBuilt(b: Benchmark, blocks: nat -> Block, n: nat)
    requires b.cfg.Fetchable() && b.Replayed() && Honest(b.world, blocks)
    requires b.chain0[|b.chain0| - 1] == blocks(b.cfg.head) && |b.chain0| + n <= |b.engine.chain|
    ensures b.engine.chain[|b.chain0| + n - 1] == blocks(b.cfg.head + n)
  {
    hide Link, Records, Asked;
    if n > 0 {
      assert AnsweredAt(b.engine.hash, b.strategy, b.params, b.world, b.cfg.Start(), |b.chain0|, b.engine.chain, n - 1);
      assert Cooperates(b.world.answers(b.cfg.head + n), blocks(b.cfg.head + n));
    } else {
      assert b.engine.chain[|b.chain0| - 1] == b.engine.chain[..|b.chain0|][|b.chain0| - 1];
    }
  }

  /** If the engine builds a chain on the head, the source's own one when replaying and any chain
      under the stress strategy, nothing can fail; so the run completes. */
  lemma HonestRunCannotFail(b: Benchmark, blocks: nat -> Block, f: Failure, ticks: nat)
    requires b.cfg.Fetchable() && IsChain(b.engine.hash, blocks) && b.Replayed()
    requires b.strategy.OneForOne? ==> b.params == Params(b.engine.hash, blocks)
    requires b.chain0[|b.chain0| - 1] == blocks(b.cfg.head) && Honest(b.world, blocks)
    ensures !b.Happened(f, ticks)
  {
    hide IsChain, Link, Records, Answered, Asked, Succeeds, Cooperates;
    var n := if f.BlockFailed? then f.block - b.cfg.Start() else 0;
    if 0 <= n < b.cfg.count && |b.chain0| + n <= |b.engine.chain| {
      AddsWhatWasBuilt(b, blocks, n);
      HonestSucceeds(b.engine.hash, b.strategy, b.params, blocks, b.world, b.cfg.head + n);
    }
  }
}
