/**
 The stress strategy inside the pipeline. The mapper runs ahead of the submitter, and past
 the end of the range; the chain only sees what the submitter was given.
 */
module EndToEnd {
  import opened Options
  import opened Uint64
  import opened Stress
  import opened StressChain
  import opened StressBlocks
  import E = Engine
  import B = Benchmark
  import R = Replay
  import S = Service
  import P = Pipeline

  /** The source blocks by number, none of them sent by a test account. */
  ghost predicate IsSource(source: nat -> Block) {
    forall n: nat :: n < U64 ==> source(n).number == n && AllOriginal(source(n).txs)
  }

  /** What the mapper has made of the blocks it received: one list of transactions a block,
      and the strategy's state after the last of them. None is a panic. */
  function MapAll(c: Config, source: nat -> Block, oracles: nat -> Oracle, mapped: seq<nat>)
    : (r: Option<(Wallet, seq<seq<Tx>>)>)
    ensures r.Some? ==> |r.value.0.nonces| == NUM_ADDRESSES && |r.value.1| == |mapped|
  {
    if mapped == [] then Some((Wallet(seq(NUM_ADDRESSES, _ => 0), ZeroAddress), []))
    else
      var n := |mapped| - 1;
      match MapAll(c, source, oracles, mapped[..n])
      case None => None
      case Some((w, lists)) => MapNext(c, w, lists, source(mapped[n]), oracles(n))
  }

  function MapNext(c: Config, w: Wallet, lists: seq<seq<Tx>>, b: Block, o: Oracle)
    : (r: Option<(Wallet, seq<seq<Tx>>)>)
    requires |w.nonces| == NUM_ADDRESSES
    ensures r.Some? ==> |r.value.0.nonces| == NUM_ADDRESSES && |r.value.1| == |lists| + 1
  {
    match Modify(c, w, b, o)
    case None => None
    case Some((w', txs)) => ModifyKeepsSize(c, w, b, o); Some((w', lists + [txs]))
  }

  function Join(lists: seq<seq<Tx>>): seq<Tx> {
    if lists == [] then [] else Join(lists[..|lists| - 1]) + lists[|lists| - 1]
  }

  /** The source from the first block of the run on. */
  function From(source: nat -> Block, first: nat): nat -> Block {
    (k: nat) => source(first + k)
  }

  lemma JoinSnoc(lists: seq<seq<Tx>>, txs: seq<Tx>)
    ensures Join(lists + [txs]) == Join(lists) + txs
  {
    assert (lists + [txs])[..|lists|] == lists;
  }

  /** The same for the strategy's state and one list of all transactions. */
  function Flat(r: Option<(Wallet, seq<seq<Tx>>)>): Option<(Wallet, seq<Tx>)> {
    match r
    case None => None
    case Some((w, lists)) => Some((w, Join(lists)))
  }

  lemma NextIsRun(c: Config, blocks: nat -> Block, oracles: nat -> Oracle, n: nat, w: Wallet, lists: seq<seq<Tx>>)
    requires |w.nonces| == NUM_ADDRESSES && Run(c, blocks, oracles, n) == Some((w, Join(lists)))
    ensures Run(c, blocks, oracles, n + 1) == Flat(MapNext(c, w, lists, blocks(n), oracles(n)))
  {
    var next := Modify(c, w, blocks(n), oracles(n));
    if next.Some? {
      JoinSnoc(lists, next.value.1);
    }
  }

  /** Consecutive blocks, mapped one by one, make a run of the strategy. */
  lemma {:induction false} MapAllIsRun(c: Config, source: nat -> Block, oracles: nat -> Oracle, first: nat,
                                       mapped: seq<nat>)
    requires mapped == P.Range(first, |mapped|)
    ensures Run(c, From(source, first), oracles, |mapped|) == Flat(MapAll(c, source, oracles, mapped))
  {
    if mapped != [] {
      var n := |mapped| - 1;
      assert mapped[n] == first + n;
      MapAllIsRun(c, source, oracles, first, mapped[..n]);
      var before := MapAll(c, source, oracles, mapped[..n]);
      if before.Some? {
        NextIsRun(c, From(source, first), oracles, n, before.value.0, before.value.1);
      }
    }
  }

  /** The lists of a shorter prefix of the blocks are a prefix of the lists. */
  lemma {:induction false} MapAllPrefix(c: Config, source: nat -> Block, oracles: nat -> Oracle,
                                        mapped: seq<nat>, k: nat)
    requires k <= |mapped| && MapAll(c, source, oracles, mapped).Some?
    ensures MapAll(c, source, oracles, mapped[..k]).Some?
    ensures MapAll(c, source, oracles, mapped[..k]).value.1 == MapAll(c, source, oracles, mapped).value.1[..k]
  {
    var n := |mapped| - 1;
    if k == |mapped| {
      assert mapped[..k] == mapped;
    } else {
      assert mapped[..n][..k] == mapped[..k];
      MapAllPrefix(c, source, oracles, mapped[..n], k);
    }
  }

  lemma SourceIsConsecutive(c: Config, source: nat -> Block, k: nat)
    requires IsSource(source) && c.startBlock + FUNDING_BLOCKS + k < U64
    ensures Consecutive(c, From(source, c.startBlock + 1), k)
  {
    var blocks := From(source, c.startBlock + 1);
    forall i: nat | i < k
      ensures blocks(i).number == c.startBlock + 1 + i && AllOriginal(blocks(i).txs)
    {
      assert blocks(i) == source(c.startBlock + 1 + i);
    }
  }

  /** What was made of the first k mapped blocks, in one list. */
  function SentUpTo(c: Config, source: nat -> Block, oracles: nat -> Oracle, mapped: seq<nat>, k: nat): seq<Tx>
    requires k <= |mapped| && MapAll(c, source, oracles, mapped).Some?
  {
    Join(MapAll(c, source, oracles, mapped).value.1[..k])
  }

  /** The strategy's nonces after the k-th mapped block. */
  function NoncesAfter(c: Config, source: nat -> Block, oracles: nat -> Oracle, mapped: seq<nat>, k: nat): seq<nat>
    requires k <= |mapped| && MapAll(c, source, oracles, mapped[..k]).Some?
  {
    MapAll(c, source, oracles, mapped[..k]).value.0.nonces
  }

  /** A prefix of the mapped blocks is a run of its own, whatever was mapped after it. */
  lemma PrefixIsRun(c: Config, source: nat -> Block, oracles: nat -> Oracle, mapped: seq<nat>, k: nat)
    requires k <= |mapped| && MapAll(c, source, oracles, mapped).Some?
    requires mapped == P.Range(c.startBlock + 1, |mapped|)
    ensures MapAll(c, source, oracles, mapped[..k]).Some?
    ensures Run(c, From(source, c.startBlock + 1), oracles, k)
      == Some((MapAll(c, source, oracles, mapped[..k]).value.0, SentUpTo(c, source, oracles, mapped, k)))
  {
    hide Run, MapAll;
    MapAllPrefix(c, source, oracles, mapped, k);
    MapAllIsRun(c, source, oracles, c.startBlock + 1, mapped[..k]);
  }

  /** Exactly when a fresh chain accepts the first k mapped blocks, and when it then has the
      nonces of the strategy. */
  ghost predicate AcceptedExactly(start: Chain, c: Config, source: nat -> Block, oracles: nat -> Oracle,
                                  mapped: seq<nat>, k: nat)
    requires k <= |mapped| && MapAll(c, source, oracles, mapped).Some?
    requires MapAll(c, source, oracles, mapped[..k]).Some?
  {
    var signed, sent := SigningsThatMatter(c, oracles, k), SentUpTo(c, source, oracles, mapped, k);
    && (ExecuteAll(start, sent).Some? <==> NoLateSuccess(signed))
    && (LeavesNonces(start, sent, NoncesAfter(c, source, oracles, mapped, k)) <==> AllSigned(signed))
  }

  lemma PrefixAcceptedExactly(c: Config, source: nat -> Block, oracles: nat -> Oracle, mapped: seq<nat>, k: nat)
    requires IsSource(source) && k <= |mapped| && c.startBlock + FUNDING_BLOCKS + k < U64
    requires mapped == P.Range(c.startBlock + 1, |mapped|) && MapAll(c, source, oracles, mapped).Some?
    ensures MapAll(c, source, oracles, mapped[..k]).Some?
    ensures AcceptedExactly(EMPTY_CHAIN, c, source, oracles, mapped, k)
  {
    hide Run, MapAll, ExecuteAll, SigningsThatMatter, SentUpTo, NoLateSuccess, AllSigned;
    PrefixIsRun(c, source, oracles, mapped, k);
    SourceIsConsecutive(c, source, k);
    RunAcceptedIff(c, From(source, c.startBlock + 1), oracles, k);
  }

  lemma MappedAndSubmitted(pipe: P.Config, s: P.State)
    requires pipe.Fetchable() && P.Reachable(pipe, s)
    ensures s.mapped == P.Range(pipe.head + 1, |s.mapped|)
    ensures |s.submitted| <= |s.mapped| && |s.submitted| <= pipe.count && s.mapped[..|s.submitted|] == s.submitted
  {
    P.SubmitsConsecutiveBlocks(pipe, s);
  }

  lemma MappedBounds(pipe: P.Config, s: P.State)
    requires pipe.Fetchable() && P.Reachable(pipe, s)
    ensures |s.mapped| <= pipe.Fetched()
    ensures pipe.head + FUNDING_BLOCKS + |s.mapped| < U64 || s.mapped == []
  {
    P.ReachableInv(pipe, s);
    if s.loader.Fetching? || s.loader.Sending? {
      P.BatchInRange(pipe, s.batches);
    }
  }

  /** In every reachable state of the pipeline the strategy has come through what the mapper gave
      it, overshoot included, if and only if every one of those blocks is one it can handle. */
  lemma MappedIsDefinedIff(pipe: P.Config, s: P.State, c: Config, source: nat -> Block, oracles: nat -> Oracle)
    requires pipe.Fetchable() && P.Reachable(pipe, s) && c.startBlock == pipe.head && IsSource(source)
    ensures MapAll(c, source, oracles, s.mapped).Some?
      <==> AllDefined(c, From(source, pipe.head + 1), oracles, |s.mapped|)
  {
    hide P.Reachable, Run, MapAll, BlockDefined;
    MappedAndSubmitted(pipe, s);
    MappedBounds(pipe, s);
    MapAllIsRun(c, source, oracles, pipe.head + 1, s.mapped);
    if s.mapped == [] {
      MapNothing(c, source, oracles);
    } else {
      SourceIsConsecutive(c, source, |s.mapped|);
      RunDefinedIff(c, From(source, pipe.head + 1), oracles, |s.mapped|);
    }
  }

  lemma MapNothing(c: Config, source: nat -> Block, oracles: nat -> Oracle)
    ensures MapAll(c, source, oracles, []).Some?
  {
  }

  /** In every reachable state of the pipeline, however far the mapper has run ahead, a fresh
      chain accepts everything submitted so far if and only if no storage signing of those blocks
      succeeds after one that failed; and it then has the nonces that the strategy had after the
      last submitted block if and only if none failed. */
  lemma SubmittedIsAccepted(pipe: P.Config, s: P.State, c: Config, source: nat -> Block, oracles: nat -> Oracle)
    requires pipe.Fetchable() && P.Reachable(pipe, s)
    requires c.startBlock == pipe.head && pipe.head + FUNDING_BLOCKS + pipe.count < U64
    requires IsSource(source) && MapAll(c, source, oracles, s.mapped).Some?
    ensures |s.submitted| <= |s.mapped| && s.submitted == s.mapped[..|s.submitted|]
    ensures MapAll(c, source, oracles, s.mapped[..|s.submitted|]).Some?
    ensures AcceptedExactly(EMPTY_CHAIN, c, source, oracles, s.mapped, |s.submitted|)
  {
    hide MapAll, AcceptedExactly, P.Reachable, P.Range;
    MappedAndSubmitted(pipe, s);
    PrefixAcceptedExactly(c, source, oracles, s.mapped, |s.submitted|);
  }

  // ---------- What the engine is asked for ----------

  /** The strategy's transactions as the engine is given them, and back. */
  datatype Codec = Codec(encode: Tx -> E.Tx, decode: E.Tx -> Tx) {
    ghost predicate Lossless() { forall tx: Tx :: decode(encode(tx)) == tx }

    function Encode(txs: seq<Tx>): seq<E.Tx> { seq(|txs|, i requires 0 <= i < |txs| => encode(txs[i])) }

    function Decode(txs: seq<E.Tx>): seq<Tx> { seq(|txs|, i requires 0 <= i < |txs| => decode(txs[i])) }
  }

  /** The source blocks as the strategy sees them. */
  function Seen(cd: Codec, source: nat -> E.Block): nat -> Block {
    (n: nat) => Block(source(n).number, cd.Decode(source(n).attributes.transactions))
  }

  /** The strategy's parameters for the blocks first, first + 1, ... */
  function StressParams(hash: E.Block -> E.Hash, gasLimit: u64, cd: Codec, source: nat -> E.Block, first: nat,
                        lists: seq<seq<Tx>>): nat -> E.BlockCreationParams
  {
    (n: nat) => E.StressCreationParams(hash, gasLimit, source(n), Encoded(cd, lists, first, n))
  }

  function Encoded(cd: Codec, lists: seq<seq<Tx>>, first: nat, n: nat): seq<E.Tx> {
    if first <= n < first + |lists| then cd.Encode(lists[n - first]) else []
  }

  /** A request of the stress strategy differs from the source block in three attributes. */
  lemma StressRequestIs(rollupCfg: E.RollupConfig, hash: E.Block -> E.Hash, gasLimit: u64, b: E.Block, txs: seq<E.Tx>)
    ensures var r := E.RequestFor(rollupCfg, E.StressCreationParams(hash, gasLimit, b, txs));
            && r.attributes == b.attributes.(suggestedFeeRecipient := 0, transactions := txs, gasLimit := gasLimit)
            && (r.eip1559Params.Some? <==> rollupCfg.isHolocene(b.attributes.timestamp))
            && (r.eip1559Params.Some? ==> r.eip1559Params.value == rollupCfg.paramsIn(b.extra))
  {
  }

  /** The transactions of each request. */
  function Carried(cd: Codec, requests: seq<E.BuildRequest>): seq<seq<Tx>> {
    seq(|requests|, i requires 0 <= i < |requests| => cd.Decode(requests[i].attributes.transactions))
  }

  lemma ListAt(hash: E.Block -> E.Hash, gasLimit: u64, cd: Codec, source: nat -> E.Block, first: nat,
               lists: seq<seq<Tx>>, i: nat)
    requires i < |lists| && cd.Lossless()
    ensures cd.Decode(StressParams(hash, gasLimit, cd, source, first, lists)(first + i).transactions) == lists[i]
  {
    var n := first + i;
    assert StressParams(hash, gasLimit, cd, source, first, lists)(n)
        == E.StressCreationParams(hash, gasLimit, source(n), Encoded(cd, lists, first, n));
    assert Encoded(cd, lists, first, n) == cd.Encode(lists[i]);
    assert cd.Decode(cd.Encode(lists[i])) == lists[i];
  }

  /** Each request carries what the strategy made of its block. */
  lemma CarriesLists(rollupCfg: E.RollupConfig, hash: E.Block -> E.Hash, gasLimit: u64, cd: Codec,
                     source: nat -> E.Block, first: nat, lists: seq<seq<Tx>>,
                     before: seq<E.BuildRequest>, after: seq<E.BuildRequest>)
    requires cd.Lossless() && |after| - |before| <= |lists|
    requires B.Asked(rollupCfg, StressParams(hash, gasLimit, cd, source, first, lists), first, before, after)
    ensures Carried(cd, after[|before|..]) == lists[..|after| - |before|]
  {
    hide StressParams;
    var params := StressParams(hash, gasLimit, cd, source, first, lists);
    var asked := B.RequestsFor(rollupCfg, params, first, |after| - |before|);
    assert after[|before|..] == asked;
    forall i: nat | i < |asked|
      ensures cd.Decode(asked[i].attributes.transactions) == lists[i]
    {
      ListAt(hash, gasLimit, cd, source, first, lists, i);
      assert asked[i] == E.RequestFor(rollupCfg, params(first + i));
    }
  }

  /** The parameters are the strategy's for the blocks it was given. */
  ghost predicate Generated(params: nat -> E.BlockCreationParams, hash: E.Block -> E.Hash, gasLimit: u64, cd: Codec,
                            source: nat -> E.Block, c: Config, oracles: nat -> Oracle, mapped: seq<nat>)
  {
    var r := MapAll(c, Seen(cd, source), oracles, mapped);
    r.Some? && params == StressParams(hash, gasLimit, cd, source, c.startBlock + 1, r.value.1)
  }

  /** The requests carry what the strategy made of the first blocks, one by one; and the chain
      `start` accepts all of it if and only if no storage signing of those blocks succeeds after one
      that failed. */
  ghost predicate CarriesRun(start: Chain, cd: Codec, c: Config, source: nat -> Block, oracles: nat -> Oracle,
                             mapped: seq<nat>, requests: seq<E.BuildRequest>)
    requires |requests| <= |mapped| && MapAll(c, source, oracles, mapped).Some?
  {
    var n, carried := |requests|, Carried(cd, requests);
    && carried == MapAll(c, source, oracles, mapped).value.1[..n]
    && (ExecuteAll(start, Join(carried)).Some? <==> NoLateSuccess(SigningsThatMatter(c, oracles, n)))
  }

  /** Asked for the blocks of the strategy, the engine is given a run that a fresh chain accepts
      exactly then. */
  lemma RequestedIsAccepted(rollupCfg: E.RollupConfig, params: nat -> E.BlockCreationParams, hash: E.Block -> E.Hash,
                            gasLimit: u64, cd: Codec, source: nat -> E.Block, c: Config, oracles: nat -> Oracle,
                            mapped: seq<nat>, before: seq<E.BuildRequest>, after: seq<E.BuildRequest>)
    requires cd.Lossless() && IsSource(Seen(cd, source)) && mapped == P.Range(c.startBlock + 1, |mapped|)
    requires Generated(params, hash, gasLimit, cd, source, c, oracles, mapped)
    requires B.Asked(rollupCfg, params, c.startBlock + 1, before, after)
    requires |after| - |before| <= |mapped| && c.startBlock + FUNDING_BLOCKS + |after| - |before| < U64
    ensures CarriesRun(EMPTY_CHAIN, cd, c, Seen(cd, source), oracles, mapped, after[|before|..])
  {
    hide Run, MapAll, ExecuteAll, SigningsThatMatter, NoLateSuccess, AllSigned, StressParams, Carried, Seen;
    CarriesLists(rollupCfg, hash, gasLimit, cd, source, c.startBlock + 1,
                 MapAll(c, Seen(cd, source), oracles, mapped).value.1, before, after);
    PrefixAcceptedExactly(c, Seen(cd, source), oracles, mapped, |after| - |before|);
  }

  /** So it is for what a service configured for the stress strategy asks for after the walk-up. */
  lemma ServiceRunIsAccepted(svc: S.Service, gasLimit: u64, cd: Codec, c: Config, oracles: nat -> Oracle,
                             mapped: seq<nat>, head: u64, walked: nat, base: nat, requests0: seq<E.BuildRequest>)
    requires svc.cfg.strategy.StressName? && svc.AsConfigured(head, walked, base, requests0)
    requires c.startBlock == svc.RecordedFrom(head) && mapped == P.Range(c.startBlock + 1, |mapped|)
    requires cd.Lossless() && IsSource(Seen(cd, svc.source))
    requires Generated(svc.stressParams, svc.engine.hash, gasLimit, cd, svc.source, c, oracles, mapped)
    requires var n := |svc.engine.requests| - |requests0| - walked;
             n <= |mapped| && c.startBlock + FUNDING_BLOCKS + n < U64
    ensures |requests0| + walked <= |svc.engine.requests|
    ensures CarriesRun(EMPTY_CHAIN, cd, c, Seen(cd, svc.source), oracles, mapped,
                       svc.engine.requests[|requests0| + walked..])
  {
    hide *;
    svc.StressAsked(head, walked, base, requests0);
    var walkUp := B.RequestsFor(svc.cfg.rollupCfg, R.Params(svc.engine.hash, svc.source), head + 1, walked);
    AskedGrows(svc.cfg.rollupCfg, svc.stressParams, c.startBlock + 1, requests0 + walkUp, svc.engine.requests);
    RequestedIsAccepted(svc.cfg.rollupCfg, svc.stressParams, svc.engine.hash, gasLimit, cd, svc.source, c, oracles,
                        mapped, requests0 + walkUp, svc.engine.requests);
  }

  lemma AskedGrows(rollupCfg: E.RollupConfig, params: nat -> E.BlockCreationParams, first: nat,
                   before: seq<E.BuildRequest>, after: seq<E.BuildRequest>)
    requires B.Asked(rollupCfg, params, first, before, after)
    ensures |before| <= |after|
  {
  }
}
