/**
 An abstract execution engine behind the Engine API, and the replay strategy's view of a
 block. The engine may fail any call, and may build any block on its head.
 */
module Engine {
  import opened Options
  import opened Uint64

  type Hash = nat

  datatype Tx = Tx(id: nat, gas: u64)

  /** The payload attributes: what the consensus layer fixes about a block to be built. */
  datatype Attributes = Attributes(
    timestamp: u64,
    suggestedFeeRecipient: nat,
    transactions: seq<Tx>,
    gasLimit: u64,
    prevRandao: nat,
    parentBeaconBlockRoot: nat,
    withdrawals: nat)

  /** What the engine is asked to build: the attributes and, from Holocene on, the parameters of
      EIP-1559 as well. */
  datatype BuildRequest = BuildRequest(attributes: Attributes, eip1559Params: Option<nat>)

  /** The rollup configuration, as far as it matters: since when Holocene is active, and the
      parameters that a library reads from a block's extra data. */
  datatype RollupConfig = RollupConfig(isHolocene: u64 -> bool, paramsIn: nat -> nat)

  /** `result` stands for what execution adds: state root, receipts, gas used. */
  datatype Block = Block(number: u64, parent: Hash, attributes: Attributes, extra: nat, result: nat)

  datatype BlockCreationParams = BlockCreationParams(
    number: u64,
    transactions: seq<Tx>,
    gasLimit: u64,
    time: u64,
    mixDigest: nat,
    beaconRoot: nat,
    feeRecipient: nat,
    withdrawals: nat,
    extra: nat,
    validateInfo: Hash)

  datatype Strategy = OneForOne | Stress

  /** The parameters that replay a block one for one. */
  function BlockToCreationParams(hash: Block -> Hash, b: Block): BlockCreationParams {
    BlockCreationParams(b.number, b.attributes.transactions, b.attributes.gasLimit, b.attributes.timestamp,
                        b.attributes.prevRandao, b.attributes.parentBeaconBlockRoot,
                        b.attributes.suggestedFeeRecipient, b.attributes.withdrawals, b.extra, hash(b))
  }

  /** The parameters of the stress strategy: the block's own, except for the transactions, the
      configured gas limit and the fee recipient, which is left at zero. */
  function StressCreationParams(hash: Block -> Hash, gasLimit: u64, b: Block, txs: seq<Tx>): BlockCreationParams {
    BlockCreationParams(b.number, txs, gasLimit, b.attributes.timestamp, b.attributes.prevRandao,
                        b.attributes.parentBeaconBlockRoot, 0, b.attributes.withdrawals, b.extra, hash(b))
  }

  /** The attributes addBlock asks the engine to build with. */
  function PayloadAttributes(p: BlockCreationParams): Attributes {
    Attributes(p.time, p.feeRecipient, p.transactions, p.gasLimit, p.mixDigest, p.beaconRoot, p.withdrawals)
  }

  function EIP1559Params(rollupCfg: RollupConfig, time: u64, extra: nat): Option<nat> {
    if rollupCfg.isHolocene(time) then Some(rollupCfg.paramsIn(extra)) else None
  }

  function RequestFor(rollupCfg: RollupConfig, p: BlockCreationParams): BuildRequest {
    BuildRequest(PayloadAttributes(p), EIP1559Params(rollupCfg, p.time, p.extra))
  }

  /** ValidateExecution and ValidateBlock: the replay strategy compares hashes, the stress
      strategy accepts everything. */
  predicate Accepts(s: Strategy, built: Hash, p: BlockCreationParams) {
    s.OneForOne? ==> built == p.validateInfo
  }

  /** How the engine answers the calls made for one block: the update that starts the building,
      the payload, whether it executes the payload and then calls it valid, and the final update;
      and what the clock shows at the i-th look. */
  datatype Answers = Answers(
    update: bool,
    built: Option<Block>,
    executed: bool,
    valid: bool,
    finalUpdate: bool,
    clock: nat -> int)

  predicate IsChild(hash: Block -> Hash, head: Block, b: Block) {
    b.parent == hash(head) && b.number == Add64(head.number, 1)
  }

  /** The payload comes back, is built on the head and passes the strategy and the engine. */
  predicate Builds(hash: Block -> Hash, s: Strategy, head: Block, p: BlockCreationParams, a: Answers) {
    && a.update && a.built.Some? && IsChild(hash, head, a.built.value)
    && Accepts(s, hash(a.built.value), p)
    && a.executed && a.valid
  }

  /** Every call made for the block succeeds. */
  predicate Succeeds(hash: Block -> Hash, s: Strategy, head: Block, p: BlockCreationParams, a: Answers) {
    Builds(hash, s, head, p, a) && a.finalUpdate
  }

  class ExecutionEngine {
    const hash: Block -> Hash
    /** The canonical chain; its last block is the head. */
    var chain: seq<Block>
    /** Blocks that were executed but are not canonical. */
    var imported: set<Block>
    /** What it was asked to build, over time. */
    ghost var requests: seq<BuildRequest>

    ghost predicate Valid()
      reads this
    {
      chain != []
    }

    function Head(): Block
      requires Valid()
      reads this
    {
      chain[|chain| - 1]
    }

    constructor (hash: Block -> Hash, genesis: Block)
      ensures Valid() && this.hash == hash && chain == [genesis] && imported == {} && requests == []
    {
      this.hash := hash;
      chain, imported, requests := [genesis], {}, [];
    }

    /** Make the block with the given hash the head, if it is an imported child of the head, and
        start building on it if asked to. The answer can be lost even after the call took effect. */
    method ForkchoiceUpdate(head: Hash, request: Option<BuildRequest>, answered: bool) returns (valid: bool)
      requires Valid()
      modifies `chain, `requests
      ensures Valid()
      ensures chain == old(chain) || (chain == old(chain) + [Head()] && Head() in imported
                && Head().parent == hash(old(Head())) && hash(Head()) == head)
      ensures hash(old(Head())) == head ==> chain == old(chain)
      ensures (exists b :: b in imported && b.parent == hash(old(Head())) && hash(b) == head) ==> hash(Head()) == head
      ensures valid <==> hash(Head()) == head && answered
      ensures requests == old(requests) + if valid && request.Some? then [request.value] else []
    {
      if hash(Head()) != head {
        if b :| b in imported && b.parent == hash(Head()) && hash(b) == head {
          chain := chain + [b];
        }
      }
      valid := hash(Head()) == head && answered;
      if valid && request.Some? {
        requests := requests + [request.value];
      }
    }

    /** The block built on the head; whether it has all that was asked for is up to the engine. */
    method GetPayload(built: Option<Block>) returns (payload: Option<Block>)
      requires Valid()
      ensures payload == if built.Some? && IsChild(hash, Head(), built.value) then built else None
    {
      payload := if built.Some? && IsChild(hash, Head(), built.value) then built else None;
    }

    method NewPayload(payload: Block, executed: bool, answered: bool) returns (valid: bool)
      modifies `imported
      ensures imported == if executed then old(imported) + {payload} else old(imported)
      ensures valid <==> executed && answered
    {
      if executed {
        imported := imported + {payload};
      }
      valid := executed && answered;
    }
  }
}
