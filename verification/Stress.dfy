/**
 The stress strategy: it fills the blocks it is given with generated transactions.
 Ten fresh test accounts, numbered 0 to 9, send them; the strategy keeps each
 account's next nonce itself.
 */
module Stress {
  import opened Options
  import opened Uint64

  const NUM_ADDRESSES: nat := 10
  const FUNDING_BLOCKS: nat := 11
  const FUNDING: nat := 100_000_000_000_000_000_000_000_000
  const DEPLOY_GAS: nat := 2_000_000
  const ERC20_GAS: nat := 23_000
  const ETH_GAS: nat := 21_000

  /** A contract address is a function of its creator and the creation's nonce. */
  datatype Address = ZeroAddress | CreateAddress(deployer: nat, nonce: nat)

  datatype Recipient = NewContract | TestAccount(index: nat) | Contract(address: Address)

  datatype Data = NoData | Bytecode(tested: TestType) | TokenTransfer(seed: nat) | FunctionCall(called: TestFunction)

  /** A transaction of the source block, whose sender is never a test account; a deposit
      that mints funds for a test account; or a transaction signed by a test account. */
  datatype Tx =
    | Original(id: nat, deposit: bool)
    | Deposit(account: nat, value: nat)
    | Signed(from: nat, nonce: nat, to: Recipient, gas: u64, data: Data)

  predicate IsDeposit(tx: Tx) { tx.Deposit? || (tx.Original? && tx.deposit) }

  datatype Block = Block(number: u64, txs: seq<Tx>)

  datatype TestType = Erc20 | Precompile | StorageTest | EthTransfer

  /** The configured function name: one of the storage stressor's table, one of the
      precompile table, or in neither. */
  datatype TestFunction =
    | WriteStorage | WriteStorage2 | DeployContracts
    | Modexp | EcAdd | EcMul | EcPairing | Sha256 | Ripemd160 | Identity | EcRecover | Blake2f
    | Unlisted(name: string)
  {
    predicate IsStorage() { WriteStorage? || WriteStorage2? || DeployContracts? }

    predicate IsPrecompile() { !IsStorage() && !Unlisted? }
  }

  datatype Config = Config(startBlock: u64, testType: TestType, testFunction: TestFunction, gasTarget: u64)

  /** How many calls of a storage function fit into the target. */
  function StorageCount(f: TestFunction, target: u64): nat {
    match f
    case WriteStorage => target / 4_849_870
    case WriteStorage2 => target / 4_963_747
    case DeployContracts => target / 4_816_325
    case _ => 0
  }

  /** The outcome of one iteration's two random draws. */
  datatype Draw = DrawFailed | Drawn(from: nat, to: nat)

  predicate Usable(d: Draw) { d.Drawn? && d.from != d.to }

  /** What the outside world answers while one block is processed: whether the i-th signing
      succeeds, the i-th pair of draws, and how many iterations the drawing loop makes. */
  datatype Oracle = Oracle(signs: nat -> bool, draws: nat -> Draw, rounds: nat)

  ghost predicate ValidOracle(o: Oracle) {
    forall i: nat :: o.draws(i).Drawn? ==> o.draws(i).from < NUM_ADDRESSES && o.draws(i).to < NUM_ADDRESSES
  }

  /** The strategy's mutable state: next nonces of the test accounts, and the contract under test. */
  datatype Wallet = Wallet(nonces: seq<nat>, contract: Address)

  function Bump(nonces: seq<nat>, i: nat): (r: seq<nat>)
    requires i < |nonces|
    ensures |r| == |nonces|
  {
    nonces[i := nonces[i] + 1]
  }

  // ---------- Specification ----------

  function Deposits(txs: seq<Tx>): seq<Tx> {
    if txs == [] then []
    else Deposits(txs[..|txs| - 1]) + if IsDeposit(txs[|txs| - 1]) then [txs[|txs| - 1]] else []
  }

  function Users(txs: seq<Tx>): seq<Tx> {
    if txs == [] then []
    else Users(txs[..|txs| - 1]) + if IsDeposit(txs[|txs| - 1]) then [] else [txs[|txs| - 1]]
  }

  /** How often the budget loop runs: int64(target) is negative from 2^63 on. */
  function Attempts(target: u64, gas: nat): nat
    requires gas > 0
  {
    if ToInt64(target) <= 0 then 0 else ToInt64(target) / gas
  }

  /** How many of the first k signings succeed. */
  function Successes(signs: nat -> bool, k: nat): nat {
    if k == 0 then 0 else Successes(signs, k - 1) + if signs(k - 1) then 1 else 0
  }

  /** m token transfers with consecutive nonces. */
  function Transfers(first: nat, m: nat, contract: Address): seq<Tx> {
    if m == 0 then []
    else
      var nonce := first + m - 1;
      Transfers(first, m - 1, contract) + [Signed(0, nonce, Contract(contract), ERC20_GAS, TokenTransfer(nonce))]
  }

  /** The calls of the storage packer: attempt i takes nonce first + i, signed or not. */
  function StorageCalls(first: nat, signed: seq<bool>, contract: Address, gas: u64, f: TestFunction): seq<Tx> {
    if signed == [] then []
    else
      var n := |signed| - 1;
      StorageCalls(first, signed[..n], contract, gas, f)
      + if signed[n] then [Signed(0, first + n, Contract(contract), gas, FunctionCall(f))] else []
  }

  /** The progress of the drawing loop. */
  datatype Packing = Packing(txs: seq<Tx>, nonces: seq<nat>, remaining: int)

  /** One iteration: an unusable draw is skipped, a failed signing uses up gas but no nonce. */
  function PackOne(p: Packing, d: Draw, signed: bool): (r: Packing)
    ensures |r.nonces| == |p.nonces|
  {
    if p.remaining < ETH_GAS || !Usable(d) || d.from >= |p.nonces| then p
    else if !signed then p.(remaining := p.remaining - ETH_GAS)
    else Packing(p.txs + [Signed(d.from, p.nonces[d.from], TestAccount(d.to), ETH_GAS, NoData)],
                 Bump(p.nonces, d.from), p.remaining - ETH_GAS)
  }

  function PackRounds(p: Packing, o: Oracle, rounds: nat): (r: Packing)
    ensures |r.nonces| == |p.nonces|
  {
    if rounds == 0 then p
    else PackOne(PackRounds(p, o, rounds - 1), o.draws(rounds - 1), o.signs(rounds - 1))
  }

  function StartPacking(c: Config, nonces: seq<nat>): Packing {
    Packing([], nonces, ToInt64(c.gasTarget))
  }

  function SignedUpTo(signs: nat -> bool, k: nat): (r: seq<bool>)
    ensures |r| == k && forall i :: 0 <= i < k ==> r[i] == signs(i)
  {
    seq(k, i requires 0 <= i < k => signs(i))
  }

  /** The transactions packed into a block after the funding blocks; None is a panic. */
  function Pack(c: Config, w: Wallet, o: Oracle): Option<(Wallet, seq<Tx>)>
    requires |w.nonces| == NUM_ADDRESSES
  {
    var first := w.nonces[0];
    match c.testType
    case Erc20 =>
      var m := Successes(o.signs, Attempts(c.gasTarget, ERC20_GAS));
      Some((w.(nonces := w.nonces[0 := first + m]), Transfers(first, m, w.contract)))
    case Precompile =>
      if !c.testFunction.IsPrecompile() || !o.signs(0) then None
      else Some((w.(nonces := Bump(w.nonces, 0)),
                 [Signed(0, first, Contract(w.contract), c.gasTarget, FunctionCall(c.testFunction))]))
    case StorageTest =>
      if !c.testFunction.IsStorage() then None
      else
        var k := StorageCount(c.testFunction, c.gasTarget);
        Some((w.(nonces := w.nonces[0 := first + k]),
              StorageCalls(first, SignedUpTo(o.signs, k), w.contract, c.gasTarget, c.testFunction)))
    case EthTransfer =>
      var p := PackRounds(StartPacking(c, w.nonces), o, o.rounds);
      Some((w.(nonces := p.nonces), p.txs))
  }

  /** The test account funded by a block: its distance from the first block. */
  function FundingIndex(c: Config, number: u64): u64 { Sub64(Sub64(number, c.startBlock), 1) }

  predicate InFundingPhase(c: Config, number: u64) { number < Add64(c.startBlock, FUNDING_BLOCKS) }

  predicate Deploys(c: Config, number: u64) {
    number == Add64(c.startBlock, 1) && !c.testType.EthTransfer?
  }

  /** modifyTransactions: the transactions of the block to be built, and the state it
      leaves; None is a panic. */
  function Modify(c: Config, w: Wallet, b: Block, o: Oracle): Option<(Wallet, seq<Tx>)>
    requires |w.nonces| == NUM_ADDRESSES
  {
    if b.txs == [] then None
    else if !InFundingPhase(c, b.number) then
      match Pack(c, w, o)
      case None => None
      case Some((w', packed)) => Some((w', Deposits(b.txs) + packed))
    else if FundingIndex(c, b.number) >= NUM_ADDRESSES then None
    else
      var i := FundingIndex(c, b.number);
      var funded := Bump(w.nonces, i);
      var deposits := Deposits(b.txs) + [Deposit(i, FUNDING)];
      if !Deploys(c, b.number) then Some((w.(nonces := funded), deposits + Users(b.txs)))
      else if |b.txs| < 2 || !o.signs(0) then None
      else
        var deploy := Signed(0, funded[0], NewContract, DEPLOY_GAS, Bytecode(c.testType));
        Some((Wallet(Bump(funded, 0), CreateAddress(0, funded[0])), deposits + [deploy] + Users(b.txs)))
  }

  // ---------- The code ----------

  /** The drawing loop ends within o.rounds iterations. */
  ghost predicate DrawsSuffice(c: Config, nonces: seq<nat>, o: Oracle) {
    PackRounds(StartPacking(c, nonces), o, o.rounds).remaining < ETH_GAS
  }

  class StressTest {
    const cfg: Config
    const nonces: array<nat>
    var testContractAddress: Address

    function View(): Wallet
      reads this, nonces
    {
      Wallet(nonces[..], testContractAddress)
    }

    ghost predicate Valid() { nonces.Length == NUM_ADDRESSES }

    constructor (cfg: Config)
      ensures Valid() && fresh(nonces) && this.cfg == cfg
      ensures View() == Wallet(seq(NUM_ADDRESSES, _ => 0), ZeroAddress)
    {
      this.cfg := cfg;
      nonces := new nat[NUM_ADDRESSES](_ => 0);
      testContractAddress := ZeroAddress;
    }

    method SplitTxs(txs: seq<Tx>) returns (depositTxns: seq<Tx>, userTxns: seq<Tx>)
      ensures depositTxns == Deposits(txs) && userTxns == Users(txs)
    {
      depositTxns, userTxns := [], [];
      var i := 0;
      while i < |txs|
        invariant 0 <= i <= |txs|
        invariant depositTxns == Deposits(txs[..i]) && userTxns == Users(txs[..i])
      {
        assert txs[..i + 1][..i] == txs[..i];
        if IsDeposit(txs[i]) {
          depositTxns := depositTxns + [txs[i]];
        } else {
          userTxns := userTxns + [txs[i]];
        }
        i := i + 1;
      }
      assert txs[..i] == txs;
    }

    method PrepareDeposit(i: nat) returns (dep: Tx)
      requires Valid() && i < NUM_ADDRESSES
      modifies nonces
      ensures dep == Deposit(i, FUNDING)
      ensures nonces[..] == Bump(old(nonces[..]), i)
    {
      dep := Deposit(i, FUNDING);
      nonces[i] := nonces[i] + 1;
    }

    /** The nonce is taken before the transaction is signed. */
    method CreateSignedTx(fromIndex: nat, to: Recipient, gas: u64, data: Data, signed: bool) returns (tx: Option<Tx>)
      requires Valid() && fromIndex < NUM_ADDRESSES
      modifies nonces
      ensures nonces[..] == Bump(old(nonces[..]), fromIndex)
      ensures tx == if signed then Some(Signed(fromIndex, old(nonces[fromIndex]), to, gas, data)) else None
    {
      var nonce := nonces[fromIndex];
      nonces[fromIndex] := nonces[fromIndex] + 1;
      if !signed {
        return None;
      }
      tx := Some(Signed(fromIndex, nonce, to, gas, data));
    }

    method PrepareDeployContract(bytecode: Data, signed: bool) returns (tx: Option<Tx>)
      requires Valid()
      modifies this, nonces
      ensures nonces[..] == Bump(old(nonces[..]), 0)
      ensures tx == if signed then Some(Signed(0, old(nonces[0]), NewContract, DEPLOY_GAS, bytecode)) else None
      ensures signed ==> testContractAddress == CreateAddress(0, old(nonces[0]))
    {
      tx := CreateSignedTx(0, NewContract, DEPLOY_GAS, bytecode, signed);
      if tx.None? {
        return;
      }
      var contractNonce := nonces[0] - 1;
      testContractAddress := CreateAddress(0, contractNonce);
    }

    method PackErc20Transfer(o: Oracle) returns (result: seq<Tx>)
      requires Valid()
      modifies nonces
      ensures Pack(cfg.(testType := Erc20), old(View()), o) == Some((View(), result))
    {
      ghost var first: nat := nonces[0];
      ghost var before: seq<nat> := nonces[..];
      result := [];
      var fillUpRemaining := ToInt64(cfg.gasTarget);
      if fillUpRemaining <= 0 {
        assert nonces[..] == before[0 := first];
        return;
      }
      var i := 0;
      while fillUpRemaining >= ERC20_GAS
        invariant fillUpRemaining == ToInt64(cfg.gasTarget) - ERC20_GAS * i && fillUpRemaining >= 0
        invariant nonces[..] == before[0 := first + Successes(o.signs, i)]
        invariant result == Transfers(first, Successes(o.signs, i), testContractAddress)
        decreases fillUpRemaining
      {
        fillUpRemaining := fillUpRemaining - ERC20_GAS;
        var tx := Signed(0, nonces[0], Contract(testContractAddress), ERC20_GAS, TokenTransfer(nonces[0]));
        if o.signs(i) {
          result := result + [tx];
          nonces[0] := nonces[0] + 1;
        }
        i := i + 1;
      }
      assert i == Attempts(cfg.gasTarget, ERC20_GAS);
    }

    method PackPrecompileTargeter(o: Oracle) returns (result: Option<seq<Tx>>)
      requires Valid()
      modifies nonces
      ensures match Pack(cfg.(testType := Precompile), old(View()), o) {
        case None => result.None?
        case Some((w, txs)) => result == Some(txs) && View() == w
      }
    {
      if !cfg.testFunction.IsPrecompile() {
        return None;
      }
      var tx := Signed(0, nonces[0], Contract(testContractAddress), cfg.gasTarget, FunctionCall(cfg.testFunction));
      if !o.signs(0) {
        return None;
      }
      nonces[0] := nonces[0] + 1;
      result := Some([tx]);
    }

    method PackStorageStressor(o: Oracle) returns (result: Option<seq<Tx>>)
      requires Valid()
      modifies nonces
      ensures match Pack(cfg.(testType := StorageTest), old(View()), o) {
        case None => result.None?
        case Some((w, txs)) => result == Some(txs) && View() == w
      }
    {
      if !cfg.testFunction.IsStorage() {
        return None;
      }
      var numTxs: nat := 0;
      if cfg.testFunction.WriteStorage? {
        numTxs := cfg.gasTarget / 4_849_870;
      } else if cfg.testFunction.WriteStorage2? {
        numTxs := cfg.gasTarget / 4_963_747;
      } else if cfg.testFunction.DeployContracts? {
        numTxs := cfg.gasTarget / 4_816_325;
      }
      ghost var first: nat := nonces[0];
      ghost var before: seq<nat> := nonces[..];
      ghost var signed := SignedUpTo(o.signs, numTxs);
      var txs: seq<Tx> := [];
      var i := 0;
      while i < numTxs
        invariant 0 <= i <= numTxs
        invariant nonces[..] == before[0 := first + i]
        invariant txs == StorageCalls(first, signed[..i], testContractAddress, cfg.gasTarget, cfg.testFunction)
      {
        var tx := Signed(0, nonces[0], Contract(testContractAddress), cfg.gasTarget, FunctionCall(cfg.testFunction));
        nonces[0] := nonces[0] + 1;
        assert signed[..i + 1][..i] == signed[..i];
        if o.signs(i) {
          txs := txs + [tx];
        }
        i := i + 1;
      }
      assert signed[..i] == signed;
      result := Some(txs);
    }

    method PackEthTransfer(o: Oracle) returns (result: seq<Tx>)
      requires Valid() && ValidOracle(o) && DrawsSuffice(cfg, nonces[..], o)
      modifies nonces
      ensures Pack(cfg.(testType := EthTransfer), old(View()), o) == Some((View(), result))
    {
      ghost var start := StartPacking(cfg, nonces[..]);
      result := [];
      var fillUpRemaining := ToInt64(cfg.gasTarget);
      if fillUpRemaining <= 0 {
        PackingStops(start, o, 0, o.rounds);
        return;
      }
      var i := 0;
      while fillUpRemaining >= ETH_GAS
        invariant i <= o.rounds
        invariant PackRounds(start, o, i) == Packing(result, nonces[..], fillUpRemaining)
        decreases o.rounds - i
      {
        if i == o.rounds {
          assert false;
        }
        var d := o.draws(i);
        if Usable(d) {
          fillUpRemaining := fillUpRemaining - ETH_GAS;
          var tx := Signed(d.from, nonces[d.from], TestAccount(d.to), ETH_GAS, NoData);
          if o.signs(i) {
            result := result + [tx];
            nonces[d.from] := nonces[d.from] + 1;
          }
        }
        i := i + 1;
      }
      PackingStops(start, o, i, o.rounds);
    }

    /** BlockReceived, up to the header fields it copies; None is a panic. */
    method BlockReceived(b: Block, o: Oracle) returns (result: Option<seq<Tx>>)
      requires Valid() && ValidOracle(o)
      requires cfg.testType.EthTransfer? && !InFundingPhase(cfg, b.number) ==> DrawsSuffice(cfg, nonces[..], o)
      modifies this, nonces
      ensures match Modify(cfg, old(View()), b, o) {
        case None => result.None?
        case Some((w, txs)) => result == Some(txs) && View() == w
      }
    {
      if |b.txs| == 0 {
        return None;
      }
      var depositTxns, userTxns := SplitTxs(b.txs);
      if b.number < Add64(cfg.startBlock, FUNDING_BLOCKS) {
        var i := Sub64(Sub64(b.number, cfg.startBlock), 1);
        if i >= NUM_ADDRESSES {
          return None;
        }
        var dep := PrepareDeposit(i);
        depositTxns := depositTxns + [dep];
        if b.number == Add64(cfg.startBlock, 1) && !cfg.testType.EthTransfer? {
          if |b.txs| < 2 {
            return None;
          }
          var deploy := PrepareDeployContract(Bytecode(cfg.testType), o.signs(0));
          if deploy.None? {
            return None;
          }
          userTxns := [deploy.value] + userTxns;
          assert depositTxns + userTxns == depositTxns + [deploy.value] + Users(b.txs);
        }
        return Some(depositTxns + userTxns);
      }
      var packed := PackItUp(o);
      if packed.None? {
        return None;
      }
      result := Some(depositTxns + packed.value);
    }

    method PackItUp(o: Oracle) returns (result: Option<seq<Tx>>)
      requires Valid() && ValidOracle(o)
      requires cfg.testType.EthTransfer? ==> DrawsSuffice(cfg, nonces[..], o)
      modifies nonces
      ensures match Pack(cfg, old(View()), o) {
        case None => result.None?
        case Some((w, txs)) => result == Some(txs) && View() == w
      }
    {
      match cfg.testType
      case Erc20 =>
        var txs := PackErc20Transfer(o);
        result := Some(txs);
      case Precompile =>
        result := PackPrecompileTargeter(o);
      case StorageTest =>
        result := PackStorageStressor(o);
      case EthTransfer =>
        var txs := PackEthTransfer(o);
        result := Some(txs);
    }
  }

  /** Once the gas is used up, further iterations change nothing. */
  lemma {:induction false} PackingStops(p: Packing, o: Oracle, i: nat, j: nat)
    requires i <= j && PackRounds(p, o, i).remaining < ETH_GAS
    ensures PackRounds(p, o, j) == PackRounds(p, o, i)
    decreases j
  {
    if i < j {
      PackingStops(p, o, i, j - 1);
    }
  }
}
