/**
 What a chain makes of the transactions the stress strategy generates, over a whole
 run of consecutive blocks.
 */
module StressChain {
  import opened Options
  import opened Uint64
  import opened Stress

  // ---------- A chain that checks nonces ----------

  /** The nonces of the test accounts on chain, and the contracts deployed so far. */
  datatype Chain = Chain(nonces: seq<nat>, contracts: set<Address>)

  /** Execute one transaction; None is a rejection. A signed transaction needs its
      sender's next nonce, and a contract call a deployed contract. Each transaction of
      a test account raises its nonce by one; a creation deploys at the address derived
      from creator and nonce (section 7 of the Ethereum Yellow Paper). */
  function Execute(c: Chain, tx: Tx): Option<Chain> {
    match tx
    case Original(_, _) => Some(c)
    case Deposit(i, _) =>
      if i < |c.nonces| then Some(c.(nonces := Bump(c.nonces, i))) else None
    case Signed(from, nonce, to, _, _) =>
      if from >= |c.nonces| || nonce != c.nonces[from] then None
      else if to.Contract? && to.address !in c.contracts then None
      else Some(Chain(Bump(c.nonces, from),
                      if to.NewContract? then c.contracts + {CreateAddress(from, nonce)} else c.contracts))
  }

  function ExecuteAll(c: Chain, txs: seq<Tx>): Option<Chain> {
    if txs == [] then Some(c)
    else
      match ExecuteAll(c, txs[..|txs| - 1])
      case None => None
      case Some(d) => Execute(d, txs[|txs| - 1])
  }

  lemma ExecuteSnoc(c: Chain, txs: seq<Tx>, tx: Tx)
    ensures ExecuteAll(c, txs + [tx]) ==
      match ExecuteAll(c, txs) { case None => None case Some(d) => Execute(d, tx) }
  {
    assert (txs + [tx])[..|txs|] == txs;
  }

  lemma {:induction false} ExecuteConcat(c: Chain, a: seq<Tx>, b: seq<Tx>)
    ensures ExecuteAll(c, a + b) ==
      match ExecuteAll(c, a) { case None => None case Some(d) => ExecuteAll(d, b) }
  {
    if b == [] {
      assert a + b == a;
    } else {
      var n := |b| - 1;
      ExecuteConcat(c, a, b[..n]);
      ExecuteSnoc(c, a + b[..n], b[n]);
      assert a + b == a + b[..n] + [b[n]];
    }
  }

  /** The transactions that a test account sent, among the first ones of a list. */
  function SentBy(txs: seq<Tx>, i: nat): nat {
    if txs == [] then 0
    else
      var tx := txs[|txs| - 1];
      SentBy(txs[..|txs| - 1], i)
      + if (tx.Deposit? && tx.account == i) || (tx.Signed? && tx.from == i) then 1 else 0
  }

  /** Acceptance means exactly what it should: every signed nonce is the number of earlier
      transactions of that sender, funding deposits included. */
  lemma {:induction false} AcceptedNonces(c: Chain, txs: seq<Tx>)
    requires ExecuteAll(c, txs).Some?
    ensures |ExecuteAll(c, txs).value.nonces| == |c.nonces|
    ensures forall i: nat :: i < |c.nonces| ==> ExecuteAll(c, txs).value.nonces[i] == c.nonces[i] + SentBy(txs, i)
    ensures forall p: nat :: p < |txs| && txs[p].Signed? ==>
              txs[p].from < |c.nonces| && txs[p].nonce == c.nonces[txs[p].from] + SentBy(txs[..p], txs[p].from)
  {
    if txs != [] {
      var n := |txs| - 1;
      AcceptedNonces(c, txs[..n]);
      forall p: nat | p < |txs| && txs[p].Signed?
        ensures txs[p].from < |c.nonces| && txs[p].nonce == c.nonces[txs[p].from] + SentBy(txs[..p], txs[p].from)
      {
        if p < n {
          assert txs[..n][p] == txs[p] && txs[..n][..p] == txs[..p];
        }
      }
    }
  }

  // ---------- The parts of a block ----------

  predicate AllOriginal(txs: seq<Tx>) { forall tx :: tx in txs ==> tx.Original? }

  lemma {:induction false} SplitOriginal(txs: seq<Tx>)
    requires AllOriginal(txs)
    ensures AllOriginal(Deposits(txs)) && AllOriginal(Users(txs))
  {
    if txs != [] {
      SplitOriginal(txs[..|txs| - 1]);
    }
  }

  lemma {:induction false} ExecuteOriginals(c: Chain, txs: seq<Tx>)
    requires AllOriginal(txs)
    ensures ExecuteAll(c, txs) == Some(c)
  {
    if txs != [] {
      ExecuteOriginals(c, txs[..|txs| - 1]);
    }
  }

  lemma {:induction false} ExecuteTransfers(c: Chain, first: nat, m: nat, contract: Address)
    requires |c.nonces| > 0 && c.nonces[0] == first && contract in c.contracts
    ensures ExecuteAll(c, Transfers(first, m, contract)) == Some(c.(nonces := c.nonces[0 := first + m]))
  {
    if m > 0 {
      ExecuteTransfers(c, first, m - 1, contract);
      var nonce := first + m - 1;
      ExecuteSnoc(c, Transfers(first, m - 1, contract),
                  Signed(0, nonce, Contract(contract), ERC20_GAS, TokenTransfer(nonce)));
      assert Bump(c.nonces[0 := nonce], 0) == c.nonces[0 := first + m];
    } else {
      assert c.nonces[0 := first + m] == c.nonces;
    }
  }

  lemma ExecuteOne(c: Chain, q: Packing, d: Draw, signed: bool)
    requires ExecuteAll(c, q.txs) == Some(c.(nonces := q.nonces))
    ensures var r := PackOne(q, d, signed);
            ExecuteAll(c, r.txs) == Some(c.(nonces := r.nonces))
  {
    if !(q.remaining < ETH_GAS || !Usable(d) || d.from >= |q.nonces|) && signed {
      ExecuteSnoc(c, q.txs, Signed(d.from, q.nonces[d.from], TestAccount(d.to), ETH_GAS, NoData));
    }
  }

  /** Whatever was drawn and whichever signings failed, what the drawing loop has packed
      so far is accepted and leaves the chain with the strategy's nonces. */
  lemma {:induction false} ExecuteRounds(c: Chain, p: Packing, o: Oracle, rounds: nat)
    requires p.txs == [] && p.nonces == c.nonces
    ensures var q := PackRounds(p, o, rounds);
            ExecuteAll(c, q.txs) == Some(c.(nonces := q.nonces))
  {
    if rounds > 0 {
      ExecuteRounds(c, p, o, rounds - 1);
      ExecuteOne(c, PackRounds(p, o, rounds - 1), o.draws(rounds - 1), o.signs(rounds - 1));
    }
  }

  // ---------- The storage packer ----------

  /** No signing succeeds after one that failed. */
  predicate NoLateSuccess(signed: seq<bool>) {
    forall i, j :: 0 <= i < j < |signed| && signed[j] ==> signed[i]
  }

  function CountTrue(signed: seq<bool>): nat {
    if signed == [] then 0 else CountTrue(signed[..|signed| - 1]) + if signed[|signed| - 1] then 1 else 0
  }

  lemma {:induction false} CountAll(signed: seq<bool>)
    ensures CountTrue(signed) <= |signed|
    ensures CountTrue(signed) == |signed| <==> forall i :: 0 <= i < |signed| ==> signed[i]
  {
    if signed != [] {
      var n := |signed| - 1;
      CountAll(signed[..n]);
      assert forall i :: 0 <= i < n ==> signed[..n][i] == signed[i];
    }
  }

  /** The same, attempt by attempt: each success comes after successes only. */
  predicate Orderly(signed: seq<bool>) {
    signed == []
    || (Orderly(signed[..|signed| - 1])
        && (signed[|signed| - 1] ==> CountTrue(signed[..|signed| - 1]) == |signed| - 1))
  }

  lemma {:induction false} OrderlyIff(signed: seq<bool>)
    ensures Orderly(signed) <==> NoLateSuccess(signed)
  {
    if signed != [] {
      var n := |signed| - 1;
      var before := signed[..n];
      OrderlyIff(before);
      CountAll(before);
      assert forall i :: 0 <= i < n ==> before[i] == signed[i];
    }
  }

  lemma {:induction false} ExecuteStorageCalls(c: Chain, first: nat, signed: seq<bool>, contract: Address, gas: u64,
                                              f: TestFunction)
    requires |c.nonces| > 0 && c.nonces[0] == first && contract in c.contracts
    ensures ExecuteAll(c, StorageCalls(first, signed, contract, gas, f)) ==
            if Orderly(signed) then Some(c.(nonces := c.nonces[0 := first + CountTrue(signed)])) else None
  {
    if signed == [] {
      assert c.nonces[0 := first] == c.nonces;
    } else {
      var n := |signed| - 1;
      ExecuteStorageCalls(c, first, signed[..n], contract, gas, f);
      StorageSnoc(c, StorageCalls(first, signed[..n], contract, gas, f), first, n, CountTrue(signed[..n]),
                  signed[n], contract, gas, f);
    }
  }

  /** The storage packer takes a nonce before it signs and never gives it back. So a
      chain accepts all its calls if and only if no signing succeeds after a failed one. */
  lemma StorageCallsAcceptedIff(c: Chain, first: nat, signed: seq<bool>, contract: Address, gas: u64, f: TestFunction)
    requires |c.nonces| > 0 && c.nonces[0] == first && contract in c.contracts
    ensures ExecuteAll(c, StorageCalls(first, signed, contract, gas, f)) ==
            if NoLateSuccess(signed) then Some(c.(nonces := c.nonces[0 := first + CountTrue(signed)])) else None
  {
    ExecuteStorageCalls(c, first, signed, contract, gas, f);
    OrderlyIff(signed);
  }

  /** One more attempt: only if all before it were signed does the chain expect its nonce. */
  lemma StorageSnoc(c: Chain, calls: seq<Tx>, first: nat, n: nat, done: nat, signed: bool, contract: Address, gas: u64,
                    f: TestFunction)
    requires |c.nonces| > 0 && contract in c.contracts
    ensures var tx := Signed(0, first + n, Contract(contract), gas, FunctionCall(f));
            var r, r' := ExecuteAll(c, calls), ExecuteAll(c, calls + if signed then [tx] else []);
            && (r.None? ==> r'.None?)
            && (!signed ==> r' == r)
            && (signed && r == Some(c.(nonces := c.nonces[0 := first + done])) ==>
                  r' == if done == n then Some(c.(nonces := c.nonces[0 := first + done + 1])) else None)
  {
    if signed {
      ExecuteSnoc(c, calls, Signed(0, first + n, Contract(contract), gas, FunctionCall(f)));
      assert Bump(c.nonces[0 := first + done], 0) == c.nonces[0 := first + done + 1];
    } else {
      assert calls + [] == calls;
    }
  }

  // ---------- One block ----------

  /** The storage packer's signings of one block. */
  function BlockSigned(c: Config, o: Oracle): seq<bool> {
    SignedUpTo(o.signs, StorageCount(c.testFunction, c.gasTarget))
  }

  predicate AllSigned(signed: seq<bool>) { forall i :: 0 <= i < |signed| ==> signed[i] }

  lemma StorageAccepted(c: Config, w: Wallet, o: Oracle, ch: Chain)
    requires c.testType.StorageTest? && |w.nonces| == NUM_ADDRESSES && ch.nonces == w.nonces
    requires w.contract in ch.contracts && AllSigned(BlockSigned(c, o)) && Pack(c, w, o).Some?
    ensures ExecuteAll(ch, Pack(c, w, o).value.1) == Some(ch.(nonces := Pack(c, w, o).value.0.nonces))
  {
    var signed := BlockSigned(c, o);
    CountAll(signed);
    assert NoLateSuccess(signed);
    StorageCallsAcceptedIff(ch, w.nonces[0], signed, w.contract, c.gasTarget, c.testFunction);
  }

  lemma PackAccepted(c: Config, w: Wallet, o: Oracle, ch: Chain)
    requires |w.nonces| == NUM_ADDRESSES && ch.nonces == w.nonces
    requires !c.testType.EthTransfer? ==> w.contract in ch.contracts
    requires c.testType.StorageTest? ==> AllSigned(BlockSigned(c, o))
    requires Pack(c, w, o).Some?
    ensures var (w', txs) := Pack(c, w, o).value;
            && ExecuteAll(ch, txs) == Some(ch.(nonces := w'.nonces))
            && w'.contract == w.contract && |w'.nonces| == NUM_ADDRESSES
  {
    hide PackOne;
    var first := w.nonces[0];
    match c.testType
    case Erc20 =>
      ExecuteTransfers(ch, first, Successes(o.signs, Attempts(c.gasTarget, ERC20_GAS)), w.contract);
    case Precompile =>
      var tx := Signed(0, first, Contract(w.contract), c.gasTarget, FunctionCall(c.testFunction));
      ExecuteSnoc(ch, [], tx);
      assert [] + [tx] == [tx];
    case StorageTest =>
      StorageAccepted(c, w, o, ch);
    case EthTransfer =>
      ExecuteRounds(ch, StartPacking(c, w.nonces), o, o.rounds);
  }

  /** In the funding phase: one deposit, and in the first block the contract under test. */
  lemma FundingAccepted(c: Config, w: Wallet, b: Block, o: Oracle, ch: Chain)
    requires |w.nonces| == NUM_ADDRESSES && ch.nonces == w.nonces && AllOriginal(b.txs)
    requires InFundingPhase(c, b.number) && Modify(c, w, b, o).Some?
    ensures var (w', txs) := Modify(c, w, b, o).value;
            var ch' := Chain(w'.nonces, if Deploys(c, b.number) then ch.contracts + {w'.contract} else ch.contracts);
            && ExecuteAll(ch, txs) == Some(ch')
            && FundingIndex(c, b.number) < NUM_ADDRESSES
            && var funded := Bump(w.nonces, FundingIndex(c, b.number));
            && w' == if Deploys(c, b.number) then Wallet(Bump(funded, 0), CreateAddress(0, funded[0]))
                     else Wallet(funded, w.contract)
  {
    SplitOriginal(b.txs);
    ExecuteOriginals(ch, Deposits(b.txs));
    var i := FundingIndex(c, b.number);
    var dep := Deposit(i, FUNDING);
    var deposits := Deposits(b.txs) + [dep];
    var funded := Bump(w.nonces, i);
    ExecuteSnoc(ch, Deposits(b.txs), dep);
    var ch1 := ch.(nonces := funded);
    assert ExecuteAll(ch, deposits) == Some(ch1);
    if Deploys(c, b.number) {
      var deploy := Signed(0, funded[0], NewContract, DEPLOY_GAS, Bytecode(c.testType));
      ExecuteSnoc(ch, deposits, deploy);
      var ch2 := Chain(Bump(funded, 0), ch.contracts + {CreateAddress(0, funded[0])});
      ExecuteOriginals(ch2, Users(b.txs));
      ExecuteConcat(ch, deposits + [deploy], Users(b.txs));
    } else {
      ExecuteOriginals(ch1, Users(b.txs));
      ExecuteConcat(ch, deposits, Users(b.txs));
    }
  }

  // ---------- A whole run ----------

  /** The first n blocks after the start block: their transactions one after the other,
      and the strategy's state afterwards. None is a panic. */
  function Run(c: Config, blocks: nat -> Block, oracles: nat -> Oracle, n: nat): (r: Option<(Wallet, seq<Tx>)>)
    ensures r.Some? ==> |r.value.0.nonces| == NUM_ADDRESSES
  {
    if n == 0 then Some((Wallet(seq(NUM_ADDRESSES, _ => 0), ZeroAddress), []))
    else
      match Run(c, blocks, oracles, n - 1)
      case None => None
      case Some((w, txs)) =>
        match Modify(c, w, blocks(n - 1), oracles(n - 1))
        case None => None
        case Some((w', more)) => ModifyKeepsSize(c, w, blocks(n - 1), oracles(n - 1)); Some((w', txs + more))
  }

  lemma ModifyKeepsSize(c: Config, w: Wallet, b: Block, o: Oracle)
    requires |w.nonces| == NUM_ADDRESSES && Modify(c, w, b, o).Some?
    ensures |Modify(c, w, b, o).value.0.nonces| == NUM_ADDRESSES
  {
  }

  /** The pipeline hands the strategy consecutive blocks, whose senders are not test accounts. */
  ghost predicate Consecutive(c: Config, blocks: nat -> Block, n: nat) {
    && c.startBlock + FUNDING_BLOCKS + n < U64
    && forall k: nat :: k < n ==> blocks(k).number == c.startBlock + 1 + k && AllOriginal(blocks(k).txs)
  }

  const EMPTY_CHAIN: Chain := Chain(seq(NUM_ADDRESSES, _ => 0), {})

  /** The contract under test, once deployed: the deployer's second transaction, after
      its own funding deposit. */
  const TEST_CONTRACT: Address := CreateAddress(0, 1)

  lemma PhaseOf(c: Config, blocks: nat -> Block, n: nat, k: nat)
    requires Consecutive(c, blocks, n) && k < n
    ensures InFundingPhase(c, blocks(k).number) <==> k < NUM_ADDRESSES
    ensures Deploys(c, blocks(k).number) <==> k == 0 && !c.testType.EthTransfer?
    ensures FundingIndex(c, blocks(k).number) == k
  {
  }

  /** No signing of the storage packer fails in the first n blocks. */
  ghost predicate StorageSigned(c: Config, oracles: nat -> Oracle, n: nat) {
    c.testType.StorageTest? ==> forall k: nat :: NUM_ADDRESSES <= k < n ==> AllSigned(BlockSigned(c, oracles(k)))
  }

  /** The last block of a run. */
  lemma RunUnfolds(c: Config, blocks: nat -> Block, oracles: nat -> Oracle, n: nat)
    requires 0 < n && Run(c, blocks, oracles, n).Some?
    ensures Run(c, blocks, oracles, n - 1).Some?
    ensures var (w, txs) := Run(c, blocks, oracles, n - 1).value;
            var last := Modify(c, w, blocks(n - 1), oracles(n - 1));
            last.Some? && Run(c, blocks, oracles, n).value == (last.value.0, txs + last.value.1)
  {
  }

  /** What the k-th block after the start block and its signings must be like for the strategy not
      to panic: it has a transaction; the first has two and its deployment is signed, unless plain
      transfers are packed; and after the funding phase the configured function is listed, and a
      precompile call is signed. */
  predicate BlockDefined(c: Config, k: nat, b: Block, o: Oracle) {
    && b.txs != []
    && (k == 0 && !c.testType.EthTransfer? ==> |b.txs| >= 2 && o.signs(0))
    && (k >= NUM_ADDRESSES && c.testType.Precompile? ==> c.testFunction.IsPrecompile() && o.signs(0))
    && (k >= NUM_ADDRESSES && c.testType.StorageTest? ==> c.testFunction.IsStorage())
  }

  ghost predicate AllDefined(c: Config, blocks: nat -> Block, oracles: nat -> Oracle, n: nat) {
    forall k: nat :: k < n ==> BlockDefined(c, k, blocks(k), oracles(k))
  }

  lemma ModifyDefinedIff(c: Config, w: Wallet, blocks: nat -> Block, oracles: nat -> Oracle, n: nat, k: nat)
    requires Consecutive(c, blocks, n) && k < n && |w.nonces| == NUM_ADDRESSES
    ensures Modify(c, w, blocks(k), oracles(k)).Some? <==> BlockDefined(c, k, blocks(k), oracles(k))
  {
    PhaseOf(c, blocks, n, k);
  }

  lemma RunNext(c: Config, blocks: nat -> Block, oracles: nat -> Oracle, n: nat)
    ensures Run(c, blocks, oracles, n + 1).Some? <==>
      && Run(c, blocks, oracles, n).Some?
      && Modify(c, Run(c, blocks, oracles, n).value.0, blocks(n), oracles(n)).Some?
  {
  }

  /** Over consecutive blocks the strategy runs without panic if and only if every block is as above. */
  lemma {:induction false} RunDefinedIff(c: Config, blocks: nat -> Block, oracles: nat -> Oracle, n: nat)
    requires Consecutive(c, blocks, n)
    ensures Run(c, blocks, oracles, n).Some? <==> AllDefined(c, blocks, oracles, n)
  {
    hide Modify, BlockDefined;
    if n > 0 {
      RunDefinedIff(c, blocks, oracles, n - 1);
      RunNext(c, blocks, oracles, n - 1);
      if Run(c, blocks, oracles, n - 1).Some? {
        ModifyDefinedIff(c, Run(c, blocks, oracles, n - 1).value.0, blocks, oracles, n, n - 1);
      }
    }
  }

  /** After the funding phase: the source's deposits and what was packed. */
  lemma PackedBlockAccepted(c: Config, w: Wallet, b: Block, o: Oracle, ch: Chain)
    requires |w.nonces| == NUM_ADDRESSES && ch.nonces == w.nonces && AllOriginal(b.txs)
    requires !InFundingPhase(c, b.number) && Modify(c, w, b, o).Some?
    requires !c.testType.EthTransfer? ==> w.contract in ch.contracts
    requires c.testType.StorageTest? ==> AllSigned(BlockSigned(c, o))
    ensures var (w', txs) := Modify(c, w, b, o).value;
            ExecuteAll(ch, txs) == Some(ch.(nonces := w'.nonces)) && w'.contract == w.contract
  {
    hide Pack, ExecuteAll;
    PackAccepted(c, w, o, ch);
    SplitOriginal(b.txs);
    ExecuteOriginals(ch, Deposits(b.txs));
    ExecuteConcat(ch, Deposits(b.txs), Pack(c, w, o).value.1);
  }

  /** The contracts on chain after n blocks. */
  function DeployedAfter(c: Config, n: nat): set<Address> {
    if n > 0 && !c.testType.EthTransfer? then {TEST_CONTRACT} else {}
  }

  /** One more funding block. */
  lemma FundingStep(c: Config, w: Wallet, b: Block, o: Oracle, n: nat)
    requires |w.nonces| == NUM_ADDRESSES && AllOriginal(b.txs) && Modify(c, w, b, o).Some?
    requires InFundingPhase(c, b.number) && FundingIndex(c, b.number) == n
    requires Deploys(c, b.number) <==> n == 0 && !c.testType.EthTransfer?
    requires n == 0 ==> w.nonces[0] == 0
    requires w.contract == if n > 0 && !c.testType.EthTransfer? then TEST_CONTRACT else ZeroAddress
    ensures var (w', txs) := Modify(c, w, b, o).value;
            && ExecuteAll(Chain(w.nonces, DeployedAfter(c, n)), txs) == Some(Chain(w'.nonces, DeployedAfter(c, n + 1)))
            && w'.contract == if !c.testType.EthTransfer? then TEST_CONTRACT else ZeroAddress
  {
    hide Modify, ExecuteAll;
    FundingAccepted(c, w, b, o, Chain(w.nonces, DeployedAfter(c, n)));
    assert {} + {TEST_CONTRACT} == {TEST_CONTRACT};
  }

  /** The chain after the funding blocks and any packed blocks whose storage signings
      all succeeded: it has accepted every transaction and agrees with the strategy. */
  lemma {:induction false} RunAccepted(c: Config, blocks: nat -> Block, oracles: nat -> Oracle, n: nat)
    requires Consecutive(c, blocks, n) && Run(c, blocks, oracles, n).Some?
    requires StorageSigned(c, oracles, n)
    ensures var (w, txs) := Run(c, blocks, oracles, n).value;
            && ExecuteAll(EMPTY_CHAIN, txs) == Some(Chain(w.nonces, DeployedAfter(c, n)))
            && w.contract == if n > 0 && !c.testType.EthTransfer? then TEST_CONTRACT else ZeroAddress
  {
    hide Modify, InFundingPhase, Deploys, FundingIndex;
    if n > 0 {
      RunAccepted(c, blocks, oracles, n - 1);
      RunUnfolds(c, blocks, oracles, n);
      var (w, txs) := Run(c, blocks, oracles, n - 1).value;
      var b, o := blocks(n - 1), oracles(n - 1);
      PhaseOf(c, blocks, n, n - 1);
      ExecuteConcat(EMPTY_CHAIN, txs, Modify(c, w, b, o).value.1);
      if n <= NUM_ADDRESSES {
        FundingStep(c, w, b, o, n - 1);
      } else {
        PackedBlockAccepted(c, w, b, o, Chain(w.nonces, DeployedAfter(c, n - 1)));
      }
    }
  }

  // ---------- What a run means for its transactions ----------

  /** Every nonce of the run counts the sender's earlier transactions, and every contract
      call goes to the contract under test. Signings may fail, except in the storage packer. */
  lemma RunNonces(c: Config, blocks: nat -> Block, oracles: nat -> Oracle, n: nat, p: nat)
    requires Consecutive(c, blocks, n) && Run(c, blocks, oracles, n).Some?
    requires StorageSigned(c, oracles, n)
    requires p < |Run(c, blocks, oracles, n).value.1| && Run(c, blocks, oracles, n).value.1[p].Signed?
    ensures var txs := Run(c, blocks, oracles, n).value.1;
            && txs[p].nonce == SentBy(txs[..p], txs[p].from)
            && (txs[p].to.Contract? ==> txs[p].to.address == TEST_CONTRACT)
  {
    RunAccepted(c, blocks, oracles, n);
    var txs := Run(c, blocks, oracles, n).value.1;
    AcceptedNonces(EMPTY_CHAIN, txs);
    if txs[p].to.Contract? {
      AcceptedCalls(EMPTY_CHAIN, txs, p);
    }
  }

  /** An accepted contract call goes to a contract the chain knows in the end. */
  lemma {:induction false} AcceptedCalls(c: Chain, txs: seq<Tx>, p: nat)
    requires ExecuteAll(c, txs).Some? && p < |txs| && txs[p].Signed? && txs[p].to.Contract?
    ensures txs[p].to.address in ExecuteAll(c, txs).value.contracts
  {
    var n := |txs| - 1;
    if p < n {
      AcceptedCalls(c, txs[..n], p);
    }
  }
}
