/** What the stress strategy puts into a block: order, completeness, funding and gas. */
module StressBlocks {
  import opened Options
  import opened Uint64
  import opened Stress
  import opened StressChain

  // ---------- Order within a block ----------

  predicate DepositsFirst(txs: seq<Tx>) {
    forall i, j :: 0 <= i < j < |txs| && IsDeposit(txs[j]) ==> IsDeposit(txs[i])
  }

  predicate AllDeposits(txs: seq<Tx>) {
    txs == [] || (AllDeposits(txs[..|txs| - 1]) && IsDeposit(txs[|txs| - 1]))
  }

  predicate NoDeposits(txs: seq<Tx>) {
    txs == [] || (NoDeposits(txs[..|txs| - 1]) && !IsDeposit(txs[|txs| - 1]))
  }

  lemma {:induction false} AllDepositsAt(txs: seq<Tx>, i: nat)
    requires AllDeposits(txs) && i < |txs|
    ensures IsDeposit(txs[i])
  {
    if i < |txs| - 1 {
      AllDepositsAt(txs[..|txs| - 1], i);
    }
  }

  lemma {:induction false} NoDepositsAt(txs: seq<Tx>, i: nat)
    requires NoDeposits(txs) && i < |txs|
    ensures !IsDeposit(txs[i])
  {
    if i < |txs| - 1 {
      NoDepositsAt(txs[..|txs| - 1], i);
    }
  }

  lemma {:induction false} SignedAreUsers(txs: seq<Tx>)
    requires forall tx :: tx in txs ==> tx.Signed?
    ensures NoDeposits(txs)
  {
    if txs != [] {
      SignedAreUsers(txs[..|txs| - 1]);
      assert txs[|txs| - 1] in txs;
    }
  }

  lemma {:induction false} NoDepositsConcat(a: seq<Tx>, b: seq<Tx>)
    requires NoDeposits(a) && NoDeposits(b)
    ensures NoDeposits(a + b)
  {
    if b == [] {
      assert a + b == a;
    } else {
      assert (a + b)[..|a + b| - 1] == a + b[..|b| - 1];
      NoDepositsConcat(a, b[..|b| - 1]);
    }
  }

  lemma ClassesSnoc(txs: seq<Tx>, tx: Tx)
    ensures Deposits(txs + [tx]) == Deposits(txs) + if IsDeposit(tx) then [tx] else []
    ensures Users(txs + [tx]) == Users(txs) + if IsDeposit(tx) then [] else [tx]
  {
    assert (txs + [tx])[..|txs|] == txs;
  }

  lemma ClassSnoc(deposits: seq<Tx>, users: seq<Tx>, tx: Tx)
    requires AllDeposits(deposits) && NoDeposits(users)
    ensures AllDeposits(deposits + if IsDeposit(tx) then [tx] else [])
    ensures NoDeposits(users + if IsDeposit(tx) then [] else [tx])
  {
    assert (deposits + [tx])[..|deposits|] == deposits && (users + [tx])[..|users|] == users;
    assert deposits + [] == deposits && users + [] == users;
  }

  lemma {:induction false} SplitClasses(txs: seq<Tx>)
    ensures AllDeposits(Deposits(txs)) && NoDeposits(Users(txs))
  {
    if txs != [] {
      var n := |txs| - 1;
      SplitClasses(txs[..n]);
      ClassSnoc(Deposits(txs[..n]), Users(txs[..n]), txs[n]);
    }
  }

  lemma KeepOne(deposits: seq<Tx>, users: seq<Tx>, all: seq<Tx>, tx: Tx)
    requires multiset(deposits) + multiset(users) == multiset(all)
    ensures multiset(deposits + [tx]) + multiset(users) == multiset(all + [tx])
    ensures multiset(deposits) + multiset(users + [tx]) == multiset(all + [tx])
  {
    assert multiset(deposits + [tx]) == multiset(deposits) + multiset{tx};
    assert multiset(users + [tx]) == multiset(users) + multiset{tx};
    assert multiset(all + [tx]) == multiset(all) + multiset{tx};
  }

  lemma SplitKeepsOne(before: seq<Tx>, tx: Tx)
    requires multiset(Deposits(before)) + multiset(Users(before)) == multiset(before)
    ensures multiset(Deposits(before + [tx])) + multiset(Users(before + [tx])) == multiset(before + [tx])
  {
    hide Deposits, Users;
    ClassesSnoc(before, tx);
    KeepOne(Deposits(before), Users(before), before, tx);
    assert Deposits(before) + [] == Deposits(before) && Users(before) + [] == Users(before);
  }

  lemma {:induction false} SplitKeepsAll(txs: seq<Tx>)
    ensures multiset(Deposits(txs)) + multiset(Users(txs)) == multiset(txs)
  {
    hide Deposits, Users;
    if txs != [] {
      var n := |txs| - 1;
      var before, tx := txs[..n], txs[n];
      SplitKeepsAll(before);
      SplitKeepsOne(before, tx);
      assert txs == before + [tx];
    } else {
      NothingToSplit();
    }
  }

  lemma NothingToSplit()
    ensures Deposits([]) == [] && Users([]) == []
  {
  }

  lemma {:induction false} ClassesOfDeposits(a: seq<Tx>)
    requires AllDeposits(a)
    ensures Deposits(a) == a && Users(a) == []
  {
    if a != [] {
      var n := |a| - 1;
      ClassesOfDeposits(a[..n]);
      assert a == a[..n] + [a[n]];
    }
  }

  lemma {:induction false} AppendUsers(a: seq<Tx>, b: seq<Tx>)
    requires NoDeposits(b)
    ensures Deposits(a + b) == Deposits(a) && Users(a + b) == Users(a) + b
  {
    if b == [] {
      assert a + b == a && Users(a) + b == Users(a);
    } else {
      var n := |b| - 1;
      AppendUsers(a, b[..n]);
      ClassesSnoc(a + b[..n], b[n]);
      assert a + b == a + b[..n] + [b[n]];
      assert Users(a) + b == Users(a) + b[..n] + [b[n]];
    }
  }

  lemma JoinClasses(a: seq<Tx>, b: seq<Tx>)
    requires AllDeposits(a) && NoDeposits(b)
    ensures DepositsFirst(a + b)
    ensures Deposits(a + b) == a && Users(a + b) == b
  {
    ClassesOfDeposits(a);
    AppendUsers(a, b);
    assert [] + b == b;
    InOrder(a, b);
  }

  lemma InOrder(a: seq<Tx>, b: seq<Tx>)
    requires AllDeposits(a) && NoDeposits(b)
    ensures DepositsFirst(a + b)
  {
    forall i, j | 0 <= i < j < |a + b| && IsDeposit((a + b)[j])
      ensures IsDeposit((a + b)[i])
    {
      if j < |a| {
        AllDepositsAt(a, i);
      } else {
        NoDepositsAt(b, j - |a|);
      }
    }
  }

  lemma {:induction false} PackedAreSigned(c: Config, w: Wallet, o: Oracle)
    requires |w.nonces| == NUM_ADDRESSES && Pack(c, w, o).Some?
    ensures forall tx :: tx in Pack(c, w, o).value.1 ==> tx.Signed? && !tx.to.NewContract?
  {
    var first := w.nonces[0];
    match c.testType
    case Erc20 => TransfersAreSigned(first, Successes(o.signs, Attempts(c.gasTarget, ERC20_GAS)), w.contract);
    case Precompile =>
    case StorageTest => StorageCallsAreSigned(first, BlockSigned(c, o), w.contract, c.gasTarget, c.testFunction);
    case EthTransfer => RoundsAreSigned(StartPacking(c, w.nonces), o, o.rounds);
  }

  lemma {:induction false} TransfersAreSigned(first: nat, m: nat, a: Address)
    ensures forall tx :: tx in Transfers(first, m, a) ==> tx.Signed? && tx.to == Contract(a)
  {
    if m > 0 {
      TransfersAreSigned(first, m - 1, a);
    }
  }

  lemma {:induction false} StorageCallsAreSigned(first: nat, signed: seq<bool>, a: Address, gas: u64, f: TestFunction)
    ensures forall tx :: tx in StorageCalls(first, signed, a, gas, f) ==> tx.Signed? && tx.to == Contract(a)
  {
    if signed != [] {
      StorageCallsAreSigned(first, signed[..|signed| - 1], a, gas, f);
    }
  }

  /** The drawing loop never sends from an account to itself. */
  lemma {:induction false} RoundsAreSigned(p: Packing, o: Oracle, rounds: nat)
    requires p.txs == []
    ensures forall tx :: tx in PackRounds(p, o, rounds).txs ==>
              tx.Signed? && tx.to.TestAccount? && tx.to.index != tx.from
  {
    if rounds > 0 {
      RoundsAreSigned(p, o, rounds - 1);
    }
  }

  lemma Joined(txs: seq<Tx>, dep: Tx, head: seq<Tx>)
    requires IsDeposit(dep) && NoDeposits(head)
    ensures var all := Deposits(txs) + [dep] + (head + Users(txs));
            && DepositsFirst(all)
            && Deposits(all) == Deposits(txs) + [dep] && Users(all) == head + Users(txs)
            && multiset(all) == multiset(txs) + multiset{dep} + multiset(head)
  {
    var d, u := Deposits(txs), Users(txs);
    SplitClasses(txs);
    SplitKeepsAll(txs);
    ClassSnoc(d, u, dep);
    NoDepositsConcat(head, u);
    JoinClasses(d + [dep], head + u);
    JoinedElements(d, dep, head, u);
  }

  lemma JoinedElements(d: seq<Tx>, dep: Tx, head: seq<Tx>, u: seq<Tx>)
    ensures multiset(d + [dep] + (head + u)) == multiset(d) + multiset(u) + multiset{dep} + multiset(head)
  {
  }

  /** The deployment that the first block starts with, if any. */
  function Deployment(c: Config, w: Wallet, number: u64): seq<Tx>
    requires |w.nonces| == NUM_ADDRESSES && FundingIndex(c, number) < NUM_ADDRESSES
  {
    if Deploys(c, number) then
      [Signed(0, Bump(w.nonces, FundingIndex(c, number))[0], NewContract, DEPLOY_GAS, Bytecode(c.testType))]
    else []
  }

  lemma FundingParts(c: Config, w: Wallet, b: Block, o: Oracle)
    requires |w.nonces| == NUM_ADDRESSES && Modify(c, w, b, o).Some? && InFundingPhase(c, b.number)
    ensures FundingIndex(c, b.number) < NUM_ADDRESSES
    ensures Modify(c, w, b, o).value.1 ==
            Deposits(b.txs) + [Deposit(FundingIndex(c, b.number), FUNDING)]
            + (Deployment(c, w, b.number) + Users(b.txs))
  {
    var deposits := Deposits(b.txs) + [Deposit(FundingIndex(c, b.number), FUNDING)];
    var head := Deployment(c, w, b.number);
    assert deposits + head + Users(b.txs) == deposits + (head + Users(b.txs));
    assert [] + Users(b.txs) == Users(b.txs);
  }

  /** Every block has all its deposits before all its other transactions. Up to the tenth
      block it keeps the source block's transactions, each class in its order, the new
      deposit last among the deposits and a deployment first among the others; from the
      eleventh on it keeps the source block's deposits only, followed by all that is packed. */
  lemma BlockOrder(c: Config, w: Wallet, b: Block, o: Oracle)
    requires |w.nonces| == NUM_ADDRESSES && Modify(c, w, b, o).Some?
    ensures InFundingPhase(c, b.number) ==> FundingIndex(c, b.number) < NUM_ADDRESSES
    ensures var txs := Modify(c, w, b, o).value.1;
            && DepositsFirst(txs)
            && (if InFundingPhase(c, b.number) then
                  && Deposits(txs) == Deposits(b.txs) + [Deposit(FundingIndex(c, b.number), FUNDING)]
                  && Users(txs) == Deployment(c, w, b.number) + Users(b.txs)
                  && multiset(txs) == multiset(b.txs) + multiset{Deposit(FundingIndex(c, b.number), FUNDING)}
                                      + multiset(Deployment(c, w, b.number))
                else
                  && Pack(c, w, o).Some? && Deposits(txs) == Deposits(b.txs) && Users(txs) == Pack(c, w, o).value.1
                  && Modify(c, w, b, o).value.0 == Pack(c, w, o).value.0
                  && forall tx :: tx in Users(txs) ==> tx.Signed?)
  {
    SplitClasses(b.txs);
    if InFundingPhase(c, b.number) {
      FundingParts(c, w, b, o);
      SignedAreUsers(Deployment(c, w, b.number));
      Joined(b.txs, Deposit(FundingIndex(c, b.number), FUNDING), Deployment(c, w, b.number));
    } else {
      PackedAreSigned(c, w, o);
      SignedAreUsers(Pack(c, w, o).value.1);
      JoinClasses(Deposits(b.txs), Pack(c, w, o).value.1);
    }
  }

  lemma {:induction false} ClassMembers(txs: seq<Tx>, tx: Tx)
    ensures tx in Deposits(txs) <==> tx in txs && IsDeposit(tx)
    ensures tx in Users(txs) <==> tx in txs && !IsDeposit(tx)
  {
    if txs != [] {
      var n := |txs| - 1;
      ClassMembers(txs[..n], tx);
      assert tx in txs <==> tx in txs[..n] || tx == txs[n];
    }
  }

  /** A source transaction is kept if and only if it is a deposit, or its block is one of the first ten. */
  lemma OriginalsKept(c: Config, w: Wallet, b: Block, o: Oracle, id: nat, deposit: bool)
    requires |w.nonces| == NUM_ADDRESSES && Modify(c, w, b, o).Some? && c.startBlock + 11 < U64
    ensures Original(id, deposit) in Modify(c, w, b, o).value.1
      <==> Original(id, deposit) in b.txs && (deposit || b.number < c.startBlock + 11)
  {
    hide Modify, DepositsFirst, Pack, Deposits, Users;
    var tx := Original(id, deposit);
    BlockOrder(c, w, b, o);
    ClassMembers(b.txs, tx);
    ClassMembers(Modify(c, w, b, o).value.1, tx);
  }

  // ---------- Funding over a run ----------

  /** The accounts of the generated deposits, in order. */
  function Funded(txs: seq<Tx>): seq<nat> {
    if txs == [] then []
    else
      var tx := txs[|txs| - 1];
      Funded(txs[..|txs| - 1]) + if tx.Deposit? then [tx.account] else []
  }

  lemma {:induction false} FundedConcat(a: seq<Tx>, b: seq<Tx>)
    ensures Funded(a + b) == Funded(a) + Funded(b)
  {
    if b == [] {
      assert a + b == a && Funded(a) + [] == Funded(a);
    } else {
      var n := |b| - 1;
      assert (a + b)[..|a + b| - 1] == a + b[..n];
      FundedConcat(a, b[..n]);
    }
  }

  lemma {:induction false} NothingFunded(txs: seq<Tx>)
    requires forall tx :: tx in txs ==> !tx.Deposit?
    ensures Funded(txs) == []
  {
    if txs != [] {
      NothingFunded(txs[..|txs| - 1]);
      assert txs[|txs| - 1] in txs;
    }
  }

  lemma OriginalsFundNobody(txs: seq<Tx>)
    requires AllOriginal(txs)
    ensures Funded(Deposits(txs)) == [] && Funded(Users(txs)) == []
  {
    SplitOriginal(txs);
    NothingFunded(Deposits(txs));
    NothingFunded(Users(txs));
  }

  lemma BlockFunds(c: Config, w: Wallet, b: Block, o: Oracle)
    requires |w.nonces| == NUM_ADDRESSES && Modify(c, w, b, o).Some? && AllOriginal(b.txs)
    ensures Funded(Modify(c, w, b, o).value.1) ==
            if InFundingPhase(c, b.number) then [FundingIndex(c, b.number)] else []
  {
    OriginalsFundNobody(b.txs);
    if InFundingPhase(c, b.number) {
      FundingParts(c, w, b, o);
      var dep := Deposit(FundingIndex(c, b.number), FUNDING);
      var head := Deployment(c, w, b.number);
      NothingFunded(head);
      FundedConcat(Deposits(b.txs) + [dep], head + Users(b.txs));
      FundedConcat(Deposits(b.txs), [dep]);
      FundedConcat(head, Users(b.txs));
      assert Funded([dep]) == [dep.account];
    } else {
      PackedAreSigned(c, w, o);
      NothingFunded(Pack(c, w, o).value.1);
      FundedConcat(Deposits(b.txs), Pack(c, w, o).value.1);
    }
  }

  /** The accounts 0, 1, ... in order, one a block, up to the tenth. */
  predicate FundedFirst(accounts: seq<nat>, n: nat) {
    && |accounts| == (if n <= 10 then n else 10)
    && forall i :: 0 <= i < |accounts| ==> accounts[i] == i
  }

  lemma FundNext(accounts: seq<nat>, more: seq<nat>, n: nat)
    requires FundedFirst(accounts, n) && more == if n < NUM_ADDRESSES then [n] else []
    ensures FundedFirst(accounts + more, n + 1)
  {
  }

  /** What the last block of a run funds. */
  lemma LastBlockFunds(c: Config, blocks: nat -> Block, oracles: nat -> Oracle, n: nat, w: Wallet)
    requires 0 < n && Consecutive(c, blocks, n)
    requires |w.nonces| == NUM_ADDRESSES && Modify(c, w, blocks(n - 1), oracles(n - 1)).Some?
    ensures Funded(Modify(c, w, blocks(n - 1), oracles(n - 1)).value.1) ==
            if n - 1 < NUM_ADDRESSES then [n - 1] else []
  {
    PhaseOf(c, blocks, n, n - 1);
    BlockFunds(c, w, blocks(n - 1), oracles(n - 1));
  }

  /** In a run of consecutive blocks the test accounts are funded in order, each exactly
      once, one per block, by the tenth block. */
  lemma {:induction false} RunFunds(c: Config, blocks: nat -> Block, oracles: nat -> Oracle, n: nat)
    requires Consecutive(c, blocks, n) && Run(c, blocks, oracles, n).Some?
    ensures FundedFirst(Funded(Run(c, blocks, oracles, n).value.1), n)
  {
    hide Modify;
    if n > 0 {
      RunUnfolds(c, blocks, oracles, n);
      RunFunds(c, blocks, oracles, n - 1);
      var (w, txs) := Run(c, blocks, oracles, n - 1).value;
      var more := Modify(c, w, blocks(n - 1), oracles(n - 1)).value.1;
      LastBlockFunds(c, blocks, oracles, n, w);
      FundedConcat(txs, more);
      FundNext(Funded(txs), Funded(more), n - 1);
    }
  }

  predicate IsPacked(tx: Tx) { tx.Signed? && !tx.to.NewContract? }

  lemma PackedOutsideFunding(c: Config, w: Wallet, b: Block, o: Oracle, q: nat)
    requires |w.nonces| == NUM_ADDRESSES && Modify(c, w, b, o).Some? && AllOriginal(b.txs)
    requires q < |Modify(c, w, b, o).value.1| && IsPacked(Modify(c, w, b, o).value.1[q])
    ensures !InFundingPhase(c, b.number)
  {
    SplitOriginal(b.txs);
    if InFundingPhase(c, b.number) {
      FundingParts(c, w, b, o);
      FundingNotPacked(Deposits(b.txs), Deposit(FundingIndex(c, b.number), FUNDING), Deployment(c, w, b.number),
                       Users(b.txs), q);
    }
  }

  lemma FundingNotPacked(d: seq<Tx>, dep: Tx, head: seq<Tx>, u: seq<Tx>, q: nat)
    requires AllOriginal(d) && AllOriginal(u) && !IsPacked(dep) && forall tx :: tx in head ==> !IsPacked(tx)
    requires q < |d + [dep] + (head + u)|
    ensures !IsPacked((d + [dep] + (head + u))[q])
  {
    assert (d + [dep] + (head + u))[q] in d + [dep] + (head + u);
  }

  /** One block: a packed transaction appears only after the ten deposits. */
  lemma PackedAfterFundingBlock(c: Config, w: Wallet, b: Block, o: Oracle, txs: seq<Tx>, q: nat)
    requires |w.nonces| == NUM_ADDRESSES && Modify(c, w, b, o).Some? && AllOriginal(b.txs)
    requires !InFundingPhase(c, b.number) ==> |Funded(txs)| == NUM_ADDRESSES
    requires q < |Modify(c, w, b, o).value.1| && IsPacked(Modify(c, w, b, o).value.1[q])
    ensures |Funded(txs + Modify(c, w, b, o).value.1[..q])| == NUM_ADDRESSES
  {
    var more := Modify(c, w, b, o).value.1;
    PackedOutsideFunding(c, w, b, o, q);
    BlockFunds(c, w, b, o);
    FundedPrefix(txs, more, q);
  }

  /** What is packed in the last block of a run comes after the ten deposits. */
  lemma PackedLastBlock(c: Config, blocks: nat -> Block, oracles: nat -> Oracle, n: nat, w: Wallet, txs: seq<Tx>,
                        q: nat)
    requires 0 < n && Consecutive(c, blocks, n) && FundedFirst(Funded(txs), n - 1)
    requires |w.nonces| == NUM_ADDRESSES && Modify(c, w, blocks(n - 1), oracles(n - 1)).Some?
    requires q < |Modify(c, w, blocks(n - 1), oracles(n - 1)).value.1|
    requires IsPacked(Modify(c, w, blocks(n - 1), oracles(n - 1)).value.1[q])
    ensures |Funded(txs + Modify(c, w, blocks(n - 1), oracles(n - 1)).value.1[..q])| == NUM_ADDRESSES
  {
    PhaseOf(c, blocks, n, n - 1);
    PackedAfterFundingBlock(c, w, blocks(n - 1), oracles(n - 1), txs, q);
  }

  /** Nothing is packed before all ten accounts are funded: every packed transaction has
      the ten deposits among the transactions before it. */
  lemma {:induction false} PackedAfterFunding(c: Config, blocks: nat -> Block, oracles: nat -> Oracle, n: nat, p: nat)
    requires Consecutive(c, blocks, n) && Run(c, blocks, oracles, n).Some?
    requires p < |Run(c, blocks, oracles, n).value.1| && IsPacked(Run(c, blocks, oracles, n).value.1[p])
    ensures |Funded(Run(c, blocks, oracles, n).value.1[..p])| == NUM_ADDRESSES
  {
    hide Modify;
    if n > 0 {
      RunUnfolds(c, blocks, oracles, n);
      var (w, txs) := Run(c, blocks, oracles, n - 1).value;
      var more := Modify(c, w, blocks(n - 1), oracles(n - 1)).value.1;
      SliceConcat(txs, more, p);
      if p < |txs| {
        PackedAfterFunding(c, blocks, oracles, n - 1, p);
      } else {
        RunFunds(c, blocks, oracles, n - 1);
        PackedLastBlock(c, blocks, oracles, n, w, txs, p - |txs|);
      }
    }
  }

  lemma SliceConcat<T>(a: seq<T>, b: seq<T>, p: nat)
    requires p < |a + b|
    ensures (a + b)[..p] == if p < |a| then a[..p] else a + b[..p - |a|]
    ensures (a + b)[p] == if p < |a| then a[p] else b[p - |a|]
  {
  }

  lemma FundedPrefix(txs: seq<Tx>, more: seq<Tx>, q: nat)
    requires q <= |more| && Funded(more) == []
    ensures Funded(txs + more[..q]) == Funded(txs)
  {
    assert more == more[..q] + more[q..];
    FundedConcat(more[..q], more[q..]);
    FundedConcat(txs, more[..q]);
  }

  // ---------- What is packed ----------

  lemma {:induction false} TransfersAre(first: nat, m: nat, a: Address)
    ensures forall tx :: tx in Transfers(first, m, a) ==>
      tx.Signed? && tx.from == 0 && tx.to == Contract(a) && tx.gas == 23_000 && tx.data == TokenTransfer(tx.nonce)
  {
    if m > 0 {
      TransfersAre(first, m - 1, a);
    }
  }

  lemma {:induction false} StorageCallsAre(first: nat, signed: seq<bool>, a: Address, gas: u64, f: TestFunction)
    ensures forall tx :: tx in StorageCalls(first, signed, a, gas, f) ==>
      tx.Signed? && tx.from == 0 && tx.to == Contract(a) && tx.gas == gas && tx.data == FunctionCall(f)
  {
    if signed != [] {
      StorageCallsAre(first, signed[..|signed| - 1], a, gas, f);
    }
  }

  lemma {:induction false} RoundsAre(p: Packing, o: Oracle, rounds: nat)
    requires p.txs == []
    ensures forall tx :: tx in PackRounds(p, o, rounds).txs ==>
      tx.Signed? && tx.to.TestAccount? && tx.to.index != tx.from && tx.gas == 21_000 && tx.data == NoData
  {
    if rounds > 0 {
      RoundsAre(p, o, rounds - 1);
    }
  }

  /** What a packed transaction is, for each type of test: a token transfer for 23000 gas whose
      receiver is made from its nonce; the one call of the precompile for all the target; a call of
      the storage function with the target as limit; or a plain transfer between two accounts. */
  predicate IsPackedFor(c: Config, contract: Address, tx: Tx) {
    && tx.Signed?
    && match c.testType {
      case Erc20 =>
        tx.from == 0 && tx.to == Contract(contract) && tx.gas == 23_000 && tx.data == TokenTransfer(tx.nonce)
      case Precompile =>
        tx.from == 0 && tx.to == Contract(contract) && tx.gas == c.gasTarget && tx.data == FunctionCall(c.testFunction)
      case StorageTest =>
        tx.from == 0 && tx.to == Contract(contract) && tx.gas == c.gasTarget && tx.data == FunctionCall(c.testFunction)
      case EthTransfer =>
        tx.to.TestAccount? && tx.to.index != tx.from && tx.gas == 21_000 && tx.data == NoData
    }
  }

  lemma PackedAre(c: Config, w: Wallet, o: Oracle)
    requires |w.nonces| == NUM_ADDRESSES && Pack(c, w, o).Some?
    ensures forall tx :: tx in Pack(c, w, o).value.1 ==> IsPackedFor(c, w.contract, tx)
  {
    hide Transfers, StorageCalls, PackRounds, Successes, Attempts;
    var first := w.nonces[0];
    match c.testType
    case Erc20 => TransfersAre(first, Successes(o.signs, Attempts(c.gasTarget, ERC20_GAS)), w.contract);
    case Precompile =>
    case StorageTest => StorageCallsAre(first, BlockSigned(c, o), w.contract, c.gasTarget, c.testFunction);
    case EthTransfer => RoundsAre(StartPacking(c, w.nonces), o, o.rounds);
  }

  /** The precompile packer emits exactly one call, which takes all of the target. */
  lemma PrecompileFillsTarget(c: Config, w: Wallet, o: Oracle)
    requires |w.nonces| == NUM_ADDRESSES && c.testType.Precompile? && Pack(c, w, o).Some?
    ensures var (w', txs) := Pack(c, w, o).value;
            && |txs| == 1 && SignedGas(txs) == c.gasTarget && txs[0].Signed? && txs[0].gas == c.gasTarget
            && txs[0].to == Contract(w.contract) && txs[0].data == FunctionCall(c.testFunction)
            && txs[0].nonce == w.nonces[0] && w' == w.(nonces := w.nonces[0 := w.nonces[0] + 1])
  {
    var txs := Pack(c, w, o).value.1;
    assert txs[..0] == [];
  }

  /** The first block deploys, for two million gas, the contract that the later blocks call. */
  lemma DeploymentIs(c: Config, w: Wallet, b: Block, o: Oracle)
    requires |w.nonces| == NUM_ADDRESSES && Modify(c, w, b, o).Some? && AllOriginal(b.txs)
    requires InFundingPhase(c, b.number) && Deploys(c, b.number)
    ensures var (w', txs) := Modify(c, w, b, o).value;
            && Users(txs) != [] && Users(txs)[0].Signed? && Users(txs)[0].from == 0
            && Users(txs)[0].to == NewContract && Users(txs)[0].gas == 2_000_000
            && Users(txs)[0].data == Bytecode(c.testType)
            && w'.contract == CreateAddress(0, Users(txs)[0].nonce)
  {
    BlockOrder(c, w, b, o);
  }

  /** Each funding block mints 10^26 wei for its account. */
  lemma FundingIs(c: Config, w: Wallet, b: Block, o: Oracle)
    requires |w.nonces| == NUM_ADDRESSES && Modify(c, w, b, o).Some? && InFundingPhase(c, b.number)
    ensures var deposits := Deposits(Modify(c, w, b, o).value.1);
            deposits != [] && deposits[|deposits| - 1]
              == Deposit(FundingIndex(c, b.number), 100_000_000_000_000_000_000_000_000)
  {
    BlockOrder(c, w, b, o);
  }

  // ---------- Gas of the packed transactions ----------

  lemma {:induction false} SuccessesAre(signs: nat -> bool, k: nat)
    ensures Successes(signs, k) == |set i: nat | i < k && signs(i)|
  {
    var all := set i: nat | i < k && signs(i);
    if k == 0 {
      assert all == {};
    } else {
      var before := set i: nat | i < k - 1 && signs(i);
      SuccessesAre(signs, k - 1);
      assert all == before + if signs(k - 1) then {k - 1} else {};
    }
  }

  lemma {:induction false} CountTrueIs(signed: seq<bool>)
    ensures CountTrue(signed) == |set i | 0 <= i < |signed| && signed[i]|
  {
    var all := set i | 0 <= i < |signed| && signed[i];
    if signed == [] {
      assert all == {};
    } else {
      var n := |signed| - 1;
      var before := set i | 0 <= i < n && signed[..n][i];
      CountTrueIs(signed[..n]);
      assert all == before + if signed[n] then {n} else {};
    }
  }

  function SignedGas(txs: seq<Tx>): nat {
    if txs == [] then 0
    else
      var tx := txs[|txs| - 1];
      SignedGas(txs[..|txs| - 1]) + if tx.Signed? then tx.gas else 0
  }

  lemma {:induction false} SuccessesBounds(signs: nat -> bool, k: nat)
    ensures Successes(signs, k) <= k
    ensures Successes(signs, k) == k <==> forall i: nat :: i < k ==> signs(i)
  {
    if k > 0 {
      SuccessesBounds(signs, k - 1);
    }
  }

  lemma {:induction false} TransfersGas(first: nat, m: nat, a: Address)
    ensures |Transfers(first, m, a)| == m && SignedGas(Transfers(first, m, a)) == m * ERC20_GAS
  {
    if m > 0 {
      TransfersGas(first, m - 1, a);
    }
  }

  /** The budget loop makes floor(target / gas) attempts for a target below 2^63, and
      none at all from there on, where the target turns negative. */
  lemma AttemptsAre(target: u64, gas: nat)
    requires gas > 0
    ensures Attempts(target, gas) == if target < U64 / 2 then target / gas else 0
  {
  }

  /** Token transfers never ask for more gas than the target, and emit and take nonces
      for exactly the successful signings. They fall short of the target by less than one
      transfer if and only if every signing succeeds and the target is below 2^63. */
  lemma Erc20FillsTarget(c: Config, w: Wallet, o: Oracle)
    requires |w.nonces| == NUM_ADDRESSES && c.testType.Erc20?
    ensures var k := Attempts(c.gasTarget, ERC20_GAS);
            var (w', txs) := Pack(c, w, o).value;
            && |txs| == |set i: nat | i < k && o.signs(i)| == w'.nonces[0] - w.nonces[0]
            && SignedGas(txs) <= c.gasTarget
            && (c.gasTarget - SignedGas(txs) < ERC20_GAS <==>
                  c.gasTarget < U64 / 2 && forall i: nat :: i < k ==> o.signs(i))
  {
    var k := Attempts(c.gasTarget, ERC20_GAS);
    AttemptsAre(c.gasTarget, ERC20_GAS);
    SuccessesBounds(o.signs, k);
    SuccessesAre(o.signs, k);
    TransfersGas(w.nonces[0], Successes(o.signs, k), w.contract);
  }

  /** A target of 2^63 gas is negative for the budget loop, which emits nothing. */
  lemma HugeTargetExample(w: Wallet, o: Oracle)
    requires |w.nonces| == NUM_ADDRESSES
    ensures Pack(Config(0, Erc20, Unlisted([]), 0x8000_0000_0000_0000), w, o) == Some((w, []))
  {
    AttemptsAre(0x8000_0000_0000_0000, ERC20_GAS);
    assert w.nonces[0 := w.nonces[0]] == w.nonces;
  }

  /** The iterations among the first n whose draw is usable. */
  function UsableDraws(o: Oracle, n: nat): nat {
    if n == 0 then 0 else UsableDraws(o, n - 1) + if Usable(o.draws(n - 1)) then 1 else 0
  }

  function Min(a: nat, b: nat): nat { if a < b then a else b }

  /** After n iterations the drawing loop has used one transaction's gas for every usable
      draw, up to the number that fits. */
  lemma {:induction false} RoundsUseGas(c: Config, nonces: seq<nat>, o: Oracle, n: nat)
    requires ValidOracle(o) && |nonces| == NUM_ADDRESSES && c.gasTarget < U64 / 2
    ensures PackRounds(StartPacking(c, nonces), o, n).remaining ==
            c.gasTarget - ETH_GAS * Min(UsableDraws(o, n), Attempts(c.gasTarget, ETH_GAS))
  {
    AttemptsAre(c.gasTarget, ETH_GAS);
    if n > 0 {
      RoundsUseGas(c, nonces, o, n - 1);
      var d := o.draws(n - 1);
      assert d.Drawn? ==> d.from < NUM_ADDRESSES;
    }
  }

  /** The drawing loop ends if and only if the random source yields enough usable pairs. */
  lemma DrawingEndsIff(c: Config, nonces: seq<nat>, o: Oracle)
    requires ValidOracle(o) && |nonces| == NUM_ADDRESSES
    ensures DrawsSuffice(c, nonces, o) <==> UsableDraws(o, o.rounds) >= Attempts(c.gasTarget, ETH_GAS)
  {
    AttemptsAre(c.gasTarget, ETH_GAS);
    if c.gasTarget < U64 / 2 {
      RoundsUseGas(c, nonces, o, o.rounds);
    } else {
      NegativeBudget(StartPacking(c, nonces), o, o.rounds);
    }
  }

  lemma {:induction false} NegativeBudget(p: Packing, o: Oracle, n: nat)
    requires p.remaining < ETH_GAS
    ensures PackRounds(p, o, n) == p
  {
    if n > 0 {
      NegativeBudget(p, o, n - 1);
    }
  }

  function NonceSum(nonces: seq<nat>): nat {
    if nonces == [] then 0 else NonceSum(nonces[..|nonces| - 1]) + nonces[|nonces| - 1]
  }

  lemma {:induction false} BumpSum(nonces: seq<nat>, i: nat)
    requires i < |nonces|
    ensures NonceSum(Bump(nonces, i)) == NonceSum(nonces) + 1
  {
    var n := |nonces| - 1;
    if i < n {
      BumpSum(nonces[..n], i);
      assert Bump(nonces, i)[..n] == Bump(nonces[..n], i);
    } else {
      assert Bump(nonces, i)[..n] == nonces[..n];
    }
  }

  /** Iteration i has budget left and draws a usable pair. */
  predicate Spends(p: Packing, o: Oracle, i: nat) {
    var q := PackRounds(p, o, i);
    q.remaining >= ETH_GAS && Usable(o.draws(i)) && o.draws(i).from < |q.nonces|
  }

  lemma SignedGasSnoc(txs: seq<Tx>, tx: Tx)
    requires tx.Signed?
    ensures SignedGas(txs + [tx]) == SignedGas(txs) + tx.gas
  {
    assert (txs + [tx])[..|txs|] == txs;
  }

  /** What one iteration does to the packed gas and nonces. */
  lemma PackOneGas(q: Packing, d: Draw, signed: bool)
    requires SignedGas(q.txs) == |q.txs| * ETH_GAS
    ensures var r := PackOne(q, d, signed);
            var spends := q.remaining >= ETH_GAS && Usable(d) && d.from < |q.nonces|;
            && SignedGas(r.txs) == |r.txs| * ETH_GAS
            && |r.txs| == |q.txs| + (if spends && signed then 1 else 0)
            && r.remaining == q.remaining - (if spends then ETH_GAS else 0)
            && NonceSum(r.nonces) == NonceSum(q.nonces) + |r.txs| - |q.txs|
  {
    hide SignedGas, NonceSum, Bump;
    if q.remaining >= ETH_GAS && Usable(d) && d.from < |q.nonces| && signed {
      BumpSum(q.nonces, d.from);
      SignedGasSnoc(q.txs, Signed(d.from, q.nonces[d.from], TestAccount(d.to), ETH_GAS, NoData));
    }
  }

  /** Every one of the first n iterations that spends gas is signed. */
  ghost predicate SpendsSigned(p: Packing, o: Oracle, n: nat) {
    forall i: nat :: i < n && Spends(p, o, i) ==> o.signs(i)
  }

  lemma SpendsSignedNext(p: Packing, o: Oracle, n: nat)
    requires n > 0
    ensures SpendsSigned(p, o, n) <==> SpendsSigned(p, o, n - 1) && (Spends(p, o, n - 1) ==> o.signs(n - 1))
  {
    hide Spends;
  }

  /** Gas and nonces of the drawing loop: each transaction it emits takes one nonce and one
      transaction's gas; it never takes more gas than the loop has used up, and takes all of it
      if and only if every iteration that spends gas is signed. */
  lemma {:induction false} RoundsGas(p: Packing, o: Oracle, n: nat)
    requires p.txs == []
    ensures var q := PackRounds(p, o, n);
            && SignedGas(q.txs) == |q.txs| * ETH_GAS <= p.remaining - q.remaining
            && NonceSum(q.nonces) == NonceSum(p.nonces) + |q.txs|
            && (SignedGas(q.txs) == p.remaining - q.remaining <==> SpendsSigned(p, o, n))
  {
    hide SpendsSigned, PackOne, NonceSum;
    if n > 0 {
      RoundsGas(p, o, n - 1);
      PackOneGas(PackRounds(p, o, n - 1), o.draws(n - 1), o.signs(n - 1));
      SpendsSignedNext(p, o, n);
    } else {
      NothingToSign(p, o);
    }
  }

  lemma NothingToSign(p: Packing, o: Oracle)
    ensures SpendsSigned(p, o, 0)
  {
  }

  lemma {:induction false} NothingSpent(p: Packing, o: Oracle, n: nat)
    requires p.remaining < ETH_GAS
    ensures SpendsSigned(p, o, n)
  {
    forall i: nat | i < n
      ensures !Spends(p, o, i)
    {
      NegativeBudget(p, o, i);
    }
  }

  /** Plain transfers never ask for more gas than the target. There are at most
      floor(target / 21000) of them below 2^63, and none from there on; and there are as many as
      that if and only if every iteration with a usable pair and budget left is signed. */
  lemma EthFillsTarget(c: Config, w: Wallet, o: Oracle)
    requires |w.nonces| == NUM_ADDRESSES && c.testType.EthTransfer?
    requires ValidOracle(o) && DrawsSuffice(c, w.nonces, o)
    ensures var (w', txs) := Pack(c, w, o).value;
            && NonceSum(w'.nonces) == NonceSum(w.nonces) + |txs|
            && SignedGas(txs) == |txs| * ETH_GAS <= c.gasTarget
            && |txs| <= Attempts(c.gasTarget, ETH_GAS)
            && (|txs| == Attempts(c.gasTarget, ETH_GAS) <==> SpendsSigned(StartPacking(c, w.nonces), o, o.rounds))
  {
    var start := StartPacking(c, w.nonces);
    AttemptsAre(c.gasTarget, ETH_GAS);
    RoundsGas(start, o, o.rounds);
    if c.gasTarget < U64 / 2 {
      RoundsUseGas(c, w.nonces, o, o.rounds);
      DrawingEndsIff(c, w.nonces, o);
    } else {
      NegativeBudget(start, o, o.rounds);
      NothingSpent(start, o, o.rounds);
    }
  }

  lemma {:induction false} StorageCallsGas(first: nat, signed: seq<bool>, a: Address, gas: u64, f: TestFunction)
    ensures var txs := StorageCalls(first, signed, a, gas, f);
            |txs| == CountTrue(signed) && SignedGas(txs) == CountTrue(signed) * gas
  {
    if signed != [] {
      var n := |signed| - 1;
      StorageCallsGas(first, signed[..n], a, gas, f);
      var tx := Signed(0, first + n, Contract(a), gas, FunctionCall(f));
      var before := StorageCalls(first, signed[..n], a, gas, f);
      assert (before + [tx])[..|before|] == before && before + [] == before;
      OneMore(CountTrue(signed[..n]), gas);
    }
  }

  lemma OneMore(n: nat, gas: nat)
    ensures (n + 1) * gas == n * gas + gas
  {
  }

  lemma AtMostOne(n: nat, gas: nat)
    requires n > 0 ==> gas > 0
    ensures n * gas <= gas <==> n <= 1
  {
    if n > 1 {
      assert n * gas >= 2 * gas;
    }
  }

  lemma CallsNeedTarget(f: TestFunction, target: u64)
    ensures StorageCount(f, target) > 0 ==> target > 0
  {
  }

  /** The cost that the packer assumes for a call of a storage function. */
  function CallCost(f: TestFunction): nat {
    match f
    case WriteStorage => 4_849_870
    case WriteStorage2 => 4_963_747
    case DeployContracts => 4_816_325
    case _ => 0
  }

  /** The number of attempts is the number of calls whose assumed cost fits into the target. */
  lemma StorageCountIs(f: TestFunction, target: u64, n: nat)
    requires f.IsStorage()
    ensures StorageCount(f, target) == n <==> n * CallCost(f) <= target < (n + 1) * CallCost(f)
  {
  }

  /** The smallest targets that make a call of each storage function. */
  lemma FirstCalls()
    ensures StorageCount(WriteStorage, 4_849_869) == 0 && StorageCount(WriteStorage, 4_849_870) == 1
    ensures StorageCount(WriteStorage2, 4_963_746) == 0 && StorageCount(WriteStorage2, 4_963_747) == 1
    ensures StorageCount(DeployContracts, 4_816_324) == 0 && StorageCount(DeployContracts, 4_816_325) == 1
  {
  }

  lemma OneCallIff(f: TestFunction, target: u64)
    requires f.IsStorage()
    ensures StorageCount(f, target) <= 1 <==> target < 2 * CallCost(f)
  {
  }

  /** The storage packer divides the target by the cost of a call, but gives every call the whole
      target as its gas limit. So its block stays within the target if and only if at most one of
      its signings succeeds; and if they all do, if and only if the target is less than the cost
      of two calls. */
  lemma StorageGasWithinTargetIff(c: Config, w: Wallet, o: Oracle)
    requires |w.nonces| == NUM_ADDRESSES && c.testType.StorageTest? && Pack(c, w, o).Some?
    ensures var (w', txs) := Pack(c, w, o).value;
            && |txs| == |set i | 0 <= i < |BlockSigned(c, o)| && BlockSigned(c, o)[i]|
            && |txs| == CountTrue(BlockSigned(c, o)) <= |BlockSigned(c, o)| == w'.nonces[0] - w.nonces[0]
            && (SignedGas(txs) <= c.gasTarget <==> CountTrue(BlockSigned(c, o)) <= 1)
            && (AllSigned(BlockSigned(c, o)) ==>
                  (SignedGas(txs) <= c.gasTarget <==> c.gasTarget < 2 * CallCost(c.testFunction)))
  {
    var signed := BlockSigned(c, o);
    CountAll(signed);
    StorageCallsGas(w.nonces[0], signed, w.contract, c.gasTarget, c.testFunction);
    CountTrueIs(signed);
    CallsNeedTarget(c.testFunction, c.gasTarget);
    AtMostOne(CountTrue(signed), c.gasTarget);
    OneCallIff(c.testFunction, c.gasTarget);
  }

  /** A target of ten million makes two writing calls of ten million gas each. */
  lemma OverfullExample(w: Wallet, o: Oracle)
    requires |w.nonces| == NUM_ADDRESSES && o.signs(0) && o.signs(1)
    ensures var c := Config(0, StorageTest, WriteStorage, 10_000_000);
            Pack(c, w, o).Some? && |Pack(c, w, o).value.1| == 2 && SignedGas(Pack(c, w, o).value.1) == 20_000_000
  {
    var c := Config(0, StorageTest, WriteStorage, 10_000_000);
    assert BlockSigned(c, o) == [true, true];
    CountAll([true, true]);
    StorageCallsGas(w.nonces[0], BlockSigned(c, o), w.contract, c.gasTarget, c.testFunction);
  }

  // ---------- The storage packer over a run ----------

  /** All storage signings of the blocks after the funding phase, in order. */
  function RunSigned(c: Config, oracles: nat -> Oracle, n: nat): seq<bool> {
    if n <= NUM_ADDRESSES then [] else RunSigned(c, oracles, n - 1) + BlockSigned(c, oracles(n - 1))
  }

  lemma {:induction false} StorageCallsConcat(first: nat, a: seq<bool>, b: seq<bool>, contract: Address, gas: u64,
                                             f: TestFunction)
    ensures StorageCalls(first, a + b, contract, gas, f) ==
            StorageCalls(first, a, contract, gas, f) + StorageCalls(first + |a|, b, contract, gas, f)
  {
    if b == [] {
      assert a + b == a && StorageCalls(first, a, contract, gas, f) + [] == StorageCalls(first, a, contract, gas, f);
    } else {
      var n := |b| - 1;
      assert (a + b)[..|a + b| - 1] == a + b[..n];
      StorageCallsConcat(first, a, b[..n], contract, gas, f);
    }
  }

  /** The chain and the strategy's state after the ten funding blocks of a storage run. */
  const FUNDED_NONCES: seq<nat> := seq(NUM_ADDRESSES, i requires 0 <= i < NUM_ADDRESSES => if i == 0 then 2 else 1)

  predicate FundedUpTo(nonces: seq<nat>, n: nat)
    requires |nonces| == NUM_ADDRESSES
  {
    forall i: nat :: i < NUM_ADDRESSES ==> nonces[i] == if i == 0 then 2 else if i < n then 1 else 0
  }

  lemma FundingWallet(c: Config, w: Wallet, b: Block, o: Oracle)
    requires |w.nonces| == NUM_ADDRESSES && Modify(c, w, b, o).Some? && InFundingPhase(c, b.number)
    ensures FundingIndex(c, b.number) < NUM_ADDRESSES
    ensures var funded := Bump(w.nonces, FundingIndex(c, b.number));
            Modify(c, w, b, o).value.0.nonces == if Deploys(c, b.number) then Bump(funded, 0) else funded
  {
  }

  lemma FundOne(nonces: seq<nat>, n: nat)
    requires |nonces| == NUM_ADDRESSES && n < NUM_ADDRESSES
    ensures n > 0 && FundedUpTo(nonces, n) ==> FundedUpTo(Bump(nonces, n), n + 1)
    ensures n == 0 && (forall i: nat :: i < NUM_ADDRESSES ==> nonces[i] == 0) ==>
              FundedUpTo(Bump(Bump(nonces, 0), 0), 1)
  {
  }

  lemma {:induction false} FundedWallet(c: Config, blocks: nat -> Block, oracles: nat -> Oracle, n: nat)
    requires 0 < n <= NUM_ADDRESSES && !c.testType.EthTransfer?
    requires Consecutive(c, blocks, n) && Run(c, blocks, oracles, n).Some?
    ensures FundedUpTo(Run(c, blocks, oracles, n).value.0.nonces, n)
  {
    var w := Run(c, blocks, oracles, n - 1).value.0;
    PhaseOf(c, blocks, n, n - 1);
    FundingWallet(c, w, blocks(n - 1), oracles(n - 1));
    if n > 1 {
      FundedWallet(c, blocks, oracles, n - 1);
    }
    FundOne(w.nonces, n - 1);
  }

  function Calls(c: Config, first: nat, signed: seq<bool>): seq<Tx> {
    StorageCalls(first, signed, TEST_CONTRACT, c.gasTarget, c.testFunction)
  }

  /** One more block of a storage run: the source deposits and the next calls. */
  lemma StorageBlock(c: Config, blocks: nat -> Block, oracles: nat -> Oracle, n: nat)
    requires c.testType.StorageTest? && NUM_ADDRESSES < n
    requires Consecutive(c, blocks, n) && Run(c, blocks, oracles, n).Some?
    requires Run(c, blocks, oracles, n - 1).value.0.contract == TEST_CONTRACT
    ensures Run(c, blocks, oracles, n - 1).Some?
    ensures var (w, txs) := Run(c, blocks, oracles, n - 1).value;
            var signed := BlockSigned(c, oracles(n - 1));
            && AllOriginal(blocks(n - 1).txs)
            && Run(c, blocks, oracles, n).value.1 ==
                 txs + (Deposits(blocks(n - 1).txs) + Calls(c, w.nonces[0], signed))
            && Run(c, blocks, oracles, n).value.0.nonces[0] == w.nonces[0] + |signed|
            && Run(c, blocks, oracles, n).value.0.contract == TEST_CONTRACT
  {
    PhaseOf(c, blocks, n, n - 1);
  }

  const FUNDED_CHAIN: Chain := Chain(FUNDED_NONCES, {TEST_CONTRACT})

  lemma StorageRunStart(c: Config, blocks: nat -> Block, oracles: nat -> Oracle, n: nat)
    requires c.testType.StorageTest? && n == NUM_ADDRESSES
    requires Consecutive(c, blocks, n) && Run(c, blocks, oracles, n).Some?
    ensures var (w, txs) := Run(c, blocks, oracles, n).value;
            w.nonces[0] == 2 && w.contract == TEST_CONTRACT && ExecuteAll(EMPTY_CHAIN, txs) == Some(FUNDED_CHAIN)
  {
    RunAccepted(c, blocks, oracles, n);
    FundedWallet(c, blocks, oracles, n);
    var nonces := Run(c, blocks, oracles, n).value.0.nonces;
    assert nonces == FUNDED_NONCES;
  }

  lemma {:induction false} StorageRunWallet(c: Config, blocks: nat -> Block, oracles: nat -> Oracle, n: nat)
    requires c.testType.StorageTest? && NUM_ADDRESSES <= n
    requires Consecutive(c, blocks, n) && Run(c, blocks, oracles, n).Some?
    ensures var w := Run(c, blocks, oracles, n).value.0;
            w.nonces[0] == 2 + |RunSigned(c, oracles, n)| && w.contract == TEST_CONTRACT
  {
    if n == NUM_ADDRESSES {
      StorageRunStart(c, blocks, oracles, n);
    } else {
      StorageRunWallet(c, blocks, oracles, n - 1);
      StorageBlock(c, blocks, oracles, n);
    }
  }

  /** Lists of transactions that grow by source deposits and the next storage calls. */
  ghost predicate GrowsByCalls(c: Config, txsAt: nat -> seq<Tx>, deposits: nat -> seq<Tx>, signedAt: nat -> seq<bool>,
                               k: nat) {
    exists signed: seq<bool> ::
      && signedAt(k + 1) == signedAt(k) + signed
      && txsAt(k + 1) == txsAt(k) + (deposits(k) + Calls(c, 2 + |signedAt(k)|, signed))
      && AllOriginal(deposits(k))
  }

  /** For the chain, such lists are the first one followed by one list of calls. */
  lemma {:induction false} StorageFold(c: Config, ch: Chain, d: Chain, txsAt: nat -> seq<Tx>, deposits: nat -> seq<Tx>,
                                      signedAt: nat -> seq<bool>, start: nat, n: nat)
    requires start <= n && signedAt(start) == []
    requires ExecuteAll(ch, txsAt(start)) == Some(d)
    requires forall k: nat :: start <= k < n ==> GrowsByCalls(c, txsAt, deposits, signedAt, k)
    ensures ExecuteAll(ch, txsAt(n)) == ExecuteAll(d, Calls(c, 2, signedAt(n)))
  {
    if n == start {
      assert Calls(c, 2, signedAt(n)) == [];
    } else {
      StorageFold(c, ch, d, txsAt, deposits, signedAt, start, n - 1);
      assert GrowsByCalls(c, txsAt, deposits, signedAt, n - 1);
      var signed :|
        && signedAt(n - 1 + 1) == signedAt(n - 1) + signed
        && txsAt(n - 1 + 1) == txsAt(n - 1) + (deposits(n - 1) + Calls(c, 2 + |signedAt(n - 1)|, signed))
        && AllOriginal(deposits(n - 1));
      StorageCallsConcat(2, signedAt(n - 1), signed, TEST_CONTRACT, c.gasTarget, c.testFunction);
      AppendCalls(ch, txsAt(n - 1), deposits(n - 1), Calls(c, 2 + |signedAt(n - 1)|, signed), d,
                  Calls(c, 2, signedAt(n - 1)));
    }
  }

  function RunTxs(c: Config, blocks: nat -> Block, oracles: nat -> Oracle, n: nat): seq<Tx> {
    var r := Run(c, blocks, oracles, n);
    if r.Some? then r.value.1 else []
  }

  lemma {:induction false} RunPrefix(c: Config, blocks: nat -> Block, oracles: nat -> Oracle, k: nat, n: nat)
    requires k <= n && Run(c, blocks, oracles, n).Some?
    ensures Run(c, blocks, oracles, k).Some?
    ensures Run(c, blocks, oracles, k).value.1 <= Run(c, blocks, oracles, n).value.1
    decreases n
  {
    if k < n {
      RunPrefix(c, blocks, oracles, k, n - 1);
    }
  }

  lemma StorageRunGrows(c: Config, blocks: nat -> Block, oracles: nat -> Oracle, txsAt: nat -> seq<Tx>,
                        deposits: nat -> seq<Tx>, signedAt: nat -> seq<bool>, k: nat)
    requires c.testType.StorageTest? && NUM_ADDRESSES <= k
    requires Consecutive(c, blocks, k + 1) && Run(c, blocks, oracles, k + 1).Some?
    requires txsAt(k) == RunTxs(c, blocks, oracles, k) && txsAt(k + 1) == RunTxs(c, blocks, oracles, k + 1)
    requires deposits(k) == Deposits(blocks(k).txs)
    requires signedAt(k) == RunSigned(c, oracles, k) && signedAt(k + 1) == RunSigned(c, oracles, k + 1)
    ensures GrowsByCalls(c, txsAt, deposits, signedAt, k)
  {
    StorageRunWallet(c, blocks, oracles, k);
    StorageBlock(c, blocks, oracles, k + 1);
    SplitOriginal(blocks(k).txs);
    var signed := BlockSigned(c, oracles(k));
    assert signedAt(k + 1) == signedAt(k) + signed;
    assert txsAt(k + 1) == txsAt(k) + (deposits(k) + Calls(c, 2 + |signedAt(k)|, signed));
  }

  lemma ShorterRun(c: Config, blocks: nat -> Block, oracles: nat -> Oracle, k: nat, n: nat)
    requires k <= n && Consecutive(c, blocks, n) && Run(c, blocks, oracles, n).Some?
    ensures Consecutive(c, blocks, k) && Run(c, blocks, oracles, k).Some?
  {
    RunPrefix(c, blocks, oracles, k, n);
  }

  lemma NothingSignedYet(c: Config, blocks: nat -> Block, oracles: nat -> Oracle, n: nat)
    requires n <= NUM_ADDRESSES && Run(c, blocks, oracles, n).Some?
    ensures RunSigned(c, oracles, n) == [] && RunTxs(c, blocks, oracles, n) == Run(c, blocks, oracles, n).value.1
  {
  }

  /** A storage run is, for the chain, the funding blocks followed by one list of calls. */
  lemma StorageRunIs(c: Config, blocks: nat -> Block, oracles: nat -> Oracle, n: nat)
    requires c.testType.StorageTest? && NUM_ADDRESSES <= n
    requires Consecutive(c, blocks, n) && Run(c, blocks, oracles, n).Some?
    ensures ExecuteAll(EMPTY_CHAIN, RunTxs(c, blocks, oracles, n)) ==
            ExecuteAll(FUNDED_CHAIN, Calls(c, 2, RunSigned(c, oracles, n)))
  {
    hide Run, RunTxs, RunSigned, ExecuteAll, StorageCalls, Deposits, GrowsByCalls, Consecutive;
    var txsAt, signedAt := (k: nat) => RunTxs(c, blocks, oracles, k), (k: nat) => RunSigned(c, oracles, k);
    var deposits := (k: nat) => Deposits(blocks(k).txs);
    var start := NUM_ADDRESSES;
    forall k: nat | start <= k < n
      ensures GrowsByCalls(c, txsAt, deposits, signedAt, k)
    {
      ShorterRun(c, blocks, oracles, k + 1, n);
      StorageRunGrows(c, blocks, oracles, txsAt, deposits, signedAt, k);
    }
    ShorterRun(c, blocks, oracles, start, n);
    StorageRunStart(c, blocks, oracles, start);
    NothingSignedYet(c, blocks, oracles, start);
    StorageFold(c, EMPTY_CHAIN, FUNDED_CHAIN, txsAt, deposits, signedAt, start, n);
  }

  /** Two executions that agree so far agree after the same calls, source deposits aside. */
  lemma AppendCalls(c: Chain, txs: seq<Tx>, originals: seq<Tx>, calls: seq<Tx>, d: Chain, before: seq<Tx>)
    requires AllOriginal(originals) && ExecuteAll(c, txs) == ExecuteAll(d, before)
    ensures ExecuteAll(c, txs + (originals + calls)) == ExecuteAll(d, before + calls)
  {
    ExecuteConcat(c, txs, originals + calls);
    ExecuteConcat(d, before, calls);
    if ExecuteAll(c, txs).Some? {
      var e := ExecuteAll(c, txs).value;
      ExecuteOriginals(e, originals);
      ExecuteConcat(e, originals, calls);
    }
  }

  /** A chain accepts all transactions of a storage run if and only if, over the whole
      run, no signing succeeds after one that failed. */
  lemma StorageRunAcceptedIff(c: Config, blocks: nat -> Block, oracles: nat -> Oracle, n: nat)
    requires c.testType.StorageTest? && NUM_ADDRESSES <= n
    requires Consecutive(c, blocks, n) && Run(c, blocks, oracles, n).Some?
    ensures ExecuteAll(EMPTY_CHAIN, RunTxs(c, blocks, oracles, n)).Some? <==> NoLateSuccess(RunSigned(c, oracles, n))
  {
    StorageRunIs(c, blocks, oracles, n);
    StorageCallsAcceptedIff(FUNDED_CHAIN, 2, RunSigned(c, oracles, n), TEST_CONTRACT,
                            c.gasTarget, c.testFunction);
  }

  lemma {:induction false} FirstSigned(c: Config, oracles: nat -> Oracle, n: nat)
    requires NUM_ADDRESSES < n
    ensures BlockSigned(c, oracles(NUM_ADDRESSES)) <= RunSigned(c, oracles, n)
  {
    hide BlockSigned;
    if n - 1 > NUM_ADDRESSES {
      FirstSigned(c, oracles, n - 1);
    } else {
      assert RunSigned(c, oracles, n) == [] + BlockSigned(c, oracles(n - 1));
    }
  }

  /** Two writing calls a block; in the first block that has any, the first signing fails and the
      second succeeds. The chain rejects the run, however it goes on. */
  lemma RejectedExample(blocks: nat -> Block, oracles: nat -> Oracle, n: nat)
    requires var c := Config(0, StorageTest, WriteStorage, 10_000_000);
             NUM_ADDRESSES < n && Consecutive(c, blocks, n) && Run(c, blocks, oracles, n).Some?
    requires !oracles(NUM_ADDRESSES).signs(0) && oracles(NUM_ADDRESSES).signs(1)
    ensures ExecuteAll(EMPTY_CHAIN, RunTxs(Config(0, StorageTest, WriteStorage, 10_000_000), blocks, oracles, n)).None?
  {
    hide Run, ExecuteAll, RunSigned;
    var c := Config(0, StorageTest, WriteStorage, 10_000_000);
    StorageRunAcceptedIff(c, blocks, oracles, n);
    FirstSigned(c, oracles, n);
    var signed := RunSigned(c, oracles, n);
    assert BlockSigned(c, oracles(NUM_ADDRESSES)) == [false, true];
    assert !signed[0] && signed[1];
  }

  // ---------- Any run ----------

  /** The run's storage signings; none for the other packers. */
  function SigningsThatMatter(c: Config, oracles: nat -> Oracle, n: nat): seq<bool> {
    if c.testType.StorageTest? then RunSigned(c, oracles, n) else []
  }

  predicate LeavesNonces(start: Chain, txs: seq<Tx>, nonces: seq<nat>) {
    ExecuteAll(start, txs).Some? && ExecuteAll(start, txs).value.nonces == nonces
  }

  lemma {:induction false} AllRunSigned(c: Config, oracles: nat -> Oracle, n: nat)
    requires c.testType.StorageTest?
    ensures StorageSigned(c, oracles, n) <==> AllSigned(RunSigned(c, oracles, n))
  {
    if n > NUM_ADDRESSES {
      var before, last := RunSigned(c, oracles, n - 1), BlockSigned(c, oracles(n - 1));
      AllRunSigned(c, oracles, n - 1);
      AllSignedConcat(before, last);
    }
  }

  lemma AllSignedConcat(a: seq<bool>, b: seq<bool>)
    ensures AllSigned(a + b) <==> AllSigned(a) && AllSigned(b)
  {
    if AllSigned(a + b) {
      forall i | 0 <= i < |b|
        ensures b[i]
      {
        assert (a + b)[|a| + i] == b[i];
      }
      forall i | 0 <= i < |a|
        ensures a[i]
      {
        assert (a + b)[i] == a[i];
      }
    }
  }

  lemma AllSignedIsOrderly(signed: seq<bool>)
    requires AllSigned(signed)
    ensures NoLateSuccess(signed)
  {
  }

  /** A storage run with a failed signing does not leave the strategy's nonces. */
  lemma StorageRunNonces(c: Config, blocks: nat -> Block, oracles: nat -> Oracle, n: nat)
    requires c.testType.StorageTest? && NUM_ADDRESSES <= n
    requires Consecutive(c, blocks, n) && Run(c, blocks, oracles, n).Some?
    requires !AllSigned(RunSigned(c, oracles, n))
    ensures !LeavesNonces(EMPTY_CHAIN, RunTxs(c, blocks, oracles, n), Run(c, blocks, oracles, n).value.0.nonces)
  {
    hide Run, RunTxs, RunSigned;
    var signed := RunSigned(c, oracles, n);
    StorageRunIs(c, blocks, oracles, n);
    StorageCallsAcceptedIff(FUNDED_CHAIN, 2, signed, TEST_CONTRACT, c.gasTarget, c.testFunction);
    StorageRunWallet(c, blocks, oracles, n);
    CountAll(signed);
  }

  /** Any run: a fresh chain accepts it if and only if no storage signing succeeds after one that
      failed, and then has the strategy's nonces if and only if none failed. */
  lemma RunAcceptedIff(c: Config, blocks: nat -> Block, oracles: nat -> Oracle, n: nat)
    requires Consecutive(c, blocks, n) && Run(c, blocks, oracles, n).Some?
    ensures var signed, txs := SigningsThatMatter(c, oracles, n), RunTxs(c, blocks, oracles, n);
            && (ExecuteAll(EMPTY_CHAIN, txs).Some? <==> NoLateSuccess(signed))
            && (LeavesNonces(EMPTY_CHAIN, txs, Run(c, blocks, oracles, n).value.0.nonces) <==> AllSigned(signed))
  {
    hide Run, ExecuteAll, RunSigned, AllSigned, NoLateSuccess;
    var signed := SigningsThatMatter(c, oracles, n);
    if c.testType.StorageTest? {
      AllRunSigned(c, oracles, n);
    }
    if !c.testType.StorageTest? || StorageSigned(c, oracles, n) {
      EmptyIsSigned();
      RunAccepted(c, blocks, oracles, n);
      AllSignedIsOrderly(signed);
    } else {
      ShortStorageRunSigned(c, oracles, n);
      StorageRunAcceptedIff(c, blocks, oracles, n);
      StorageRunNonces(c, blocks, oracles, n);
    }
  }

  lemma EmptyIsSigned()
    ensures AllSigned([])
  {
  }

  lemma ShortStorageRunSigned(c: Config, oracles: nat -> Oracle, n: nat)
    ensures n <= NUM_ADDRESSES ==> StorageSigned(c, oracles, n)
  {
  }
}
