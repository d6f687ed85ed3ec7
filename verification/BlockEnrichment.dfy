/** Filling in a block's record from its receipts, its execution traces and its state diffs. */
module BlockEnrichment {
  import opened Options
  import opened Uint64
  import opened OpCodeTable
  import opened BlockStats
  import opened Trace
  import opened StorageDiff

  /** Which traces are asked for. */
  datatype Flags = Flags(benchmarkOpcodes: bool, diffStorage: bool)

  /** The answers to the look-ups made for a block; None is one that failed on every retry. */
  datatype Lookups = Lookups(receipts: Option<seq<Receipt>>, diffs: Option<seq<StorageTrace>>)

  const NOTHING: Enrichment := Enrichment(0, Some(0.0), map[], 0, 0, 0)

  function GasUsed(rs: seq<Receipt>): u64 {
    if rs == [] then 0 else Add64(GasUsed(rs[..|rs| - 1]), rs[|rs| - 1].gasUsed)
  }

  function SuccessCount(rs: seq<Receipt>): (n: nat)
    ensures n <= |rs|
  {
    if rs == [] then 0 else SuccessCount(rs[..|rs| - 1]) + if rs[|rs| - 1].success then 1 else 0
  }

  function SuccessRatio(rs: seq<Receipt>): Option<real> {
    if rs == [] then None else Some(SuccessCount(rs) as real / |rs| as real)
  }

  function OpCodesOf(f: Flags, rs: seq<Receipt>): Table {
    if f.benchmarkOpcodes then AddEvents(map[], BlockEvents(rs)) else map[]
  }

  /** Without receipts nothing is filled in; without a state diff no storage counts. */
  function EnrichmentOf(f: Flags, l: Lookups): Enrichment {
    match l.receipts
    case None => NOTHING
    case Some(rs) =>
      if f.diffStorage && l.diffs.Some? then
        var ts := l.diffs.value;
        Enrichment(GasUsed(rs), SuccessRatio(rs), OpCodesOf(f, rs),
                   Mod(|PostAccounts(ts)|), Mod(|TouchedTries(ts)|), Mod(|TouchedSlots(ts)|))
      else Enrichment(GasUsed(rs), SuccessRatio(rs), OpCodesOf(f, rs), 0, 0, 0)
  }

  method ReadReceipts(rs: seq<Receipt>) returns (gasUsed: u64, success: Option<real>)
    ensures gasUsed == GasUsed(rs) && success == SuccessRatio(rs)
  {
    gasUsed := 0;
    var count := 0;
    for i := 0 to |rs|
      invariant gasUsed == GasUsed(rs[..i]) && count == SuccessCount(rs[..i])
    {
      assert rs[..i + 1][..i] == rs[..i];
      gasUsed := Add64(gasUsed, rs[i].gasUsed);
      if rs[i].success {
        count := count + 1;
      }
    }
    assert rs[..|rs|] == rs;
    success := if |rs| == 0 then None else Some(count as real / |rs| as real);
  }

  method ComputeTraceStats(f: Flags, rs: seq<Receipt>, diffs: Option<seq<StorageTrace>>, s: TraceStats)
    requires s.opCodes == map[] && s.accountsChanged == s.storageTriesChanged == s.slotsChanged == 0
    modifies s
    ensures Enrichment(GasUsed(rs), SuccessRatio(rs), s.opCodes, s.accountsChanged, s.storageTriesChanged,
                       s.slotsChanged)
         == EnrichmentOf(f, Lookups(Some(rs), diffs))
  {
    if f.benchmarkOpcodes {
      ComputeOpCodes(rs, s);
    }
    if f.diffStorage {
      RecordStorageChanges(diffs, s);
    }
  }

  method Enrich(f: Flags, l: Lookups) returns (e: Enrichment)
    ensures e == EnrichmentOf(f, l)
  {
    if l.receipts.None? {
      return NOTHING;
    }
    var gasUsed, success := ReadReceipts(l.receipts.value);
    var s := new TraceStats();
    ComputeTraceStats(f, l.receipts.value, l.diffs, s);
    e := Enrichment(gasUsed, success, s.opCodes, s.accountsChanged, s.storageTriesChanged, s.slotsChanged);
  }

  lemma {:induction false} ReceiptsConcat(a: seq<Receipt>, b: seq<Receipt>)
    ensures GasUsed(a + b) == Add64(GasUsed(a), GasUsed(b))
    ensures SuccessCount(a + b) == SuccessCount(a) + SuccessCount(b)
  {
    if b == [] {
      assert a + b == a;
    } else {
      var n := |b| - 1;
      assert (a + b)[..|a + b| - 1] == a + b[..n];
      ReceiptsConcat(a, b[..n]);
    }
  }

  /** One receipt taken out of a list. */
  lemma TakenOut(a: seq<Receipt>, r: Receipt, b: seq<Receipt>)
    ensures GasUsed(a + ([r] + b)) == Add64(GasUsed(a + b), r.gasUsed)
    ensures SuccessCount(a + ([r] + b)) == SuccessCount(a + b) + if r.success then 1 else 0
  {
    ReceiptsConcat(a, [r] + b);
    ReceiptsConcat([r], b);
    ReceiptsConcat(a, b);
    assert GasUsed([r]) == r.gasUsed && SuccessCount([r]) == if r.success then 1 else 0;
  }

  lemma {:induction false} ReceiptsPermute(rs: seq<Receipt>, qs: seq<Receipt>)
    requires multiset(rs) == multiset(qs)
    ensures GasUsed(rs) == GasUsed(qs) && SuccessCount(rs) == SuccessCount(qs) && |rs| == |qs|
    decreases |rs|
  {
    if rs == [] {
      assert |qs| == |multiset(qs)| == |multiset(rs)| == 0;
    } else {
      var n := |rs| - 1;
      assert rs == rs[..n] + [rs[n]];
      assert rs[n] in multiset(qs);
      var i :| 0 <= i < |qs| && qs[i] == rs[n];
      var a, b := qs[..i], qs[i + 1..];
      assert qs == a + ([rs[n]] + b);
      WithoutOne(rs[..n], rs[n], qs, i);
      ReceiptsPermute(rs[..n], a + b);
      TakenOut(a, rs[n], b);
    }
  }

  /** A block's enrichment does not depend on the order in which the node reports its receipts
      and its state diffs. */
  lemma OrderIrrelevantToRecord(f: Flags, rs: seq<Receipt>, qs: seq<Receipt>,
                                ts: seq<StorageTrace>, us: seq<StorageTrace>)
    requires multiset(rs) == multiset(qs) && multiset(ts) == multiset(us)
    ensures EnrichmentOf(f, Lookups(Some(rs), Some(ts))) == EnrichmentOf(f, Lookups(Some(qs), Some(us)))
  {
    ReceiptsPermute(rs, qs);
    ReceiptOrderIrrelevant(rs, qs);
    forall t
      ensures t in ts <==> t in us
    {
      assert t in ts <==> t in multiset(ts);
      assert t in us <==> t in multiset(us);
    }
    TraceOrderIrrelevant(ts, us);
  }

  lemma {:induction false} SuccessCountIs(rs: seq<Receipt>)
    ensures SuccessCount(rs) == |rs| <==> forall i :: 0 <= i < |rs| ==> rs[i].success
    ensures SuccessCount(rs) == 0 <==> forall i :: 0 <= i < |rs| ==> !rs[i].success
  {
    if rs != [] {
      var n := |rs| - 1;
      SuccessCountIs(rs[..n]);
      assert forall i :: 0 <= i < n ==> rs[..n][i] == rs[i];
    }
  }

  lemma RatioBounds(k: nat, n: nat)
    requires k <= n && 0 < n
    ensures 0.0 <= k as real / n as real <= 1.0
    ensures k as real / n as real == 1.0 <==> k == n
    ensures k as real / n as real == 0.0 <==> k == 0
  {
    QuotientBounds(k as real, n as real);
  }

  lemma QuotientBounds(x: real, y: real)
    requires 0.0 <= x <= y && 0.0 < y
    ensures 0.0 <= x / y <= 1.0
    ensures x / y == 1.0 <==> x == y
    ensures x / y == 0.0 <==> x == 0.0
  {
    var q := x / y;
    assert q * y == x;
    assert (1.0 - q) * y == y - x;
    SignOfFactor(q, y);
    SignOfFactor(1.0 - q, y);
  }

  lemma SignOfFactor(q: real, y: real)
    requires y > 0.0
    ensures q * y > 0.0 <==> q > 0.0
    ensures q * y < 0.0 <==> q < 0.0
  {
    if q < 0.0 {
      assert (-q) * y > 0.0;
    }
  }

  /** The success ratio is undefined exactly for a block without receipts, and otherwise between 0
      and 1: 1 exactly if all transactions succeeded, 0 exactly if none did. */
  lemma SuccessRatioIs(rs: seq<Receipt>)
    ensures SuccessRatio(rs).None? <==> rs == []
    ensures rs != [] ==>
      var r := SuccessRatio(rs).value;
      && 0.0 <= r <= 1.0
      && (r == 1.0 <==> forall i :: 0 <= i < |rs| ==> rs[i].success)
      && (r == 0.0 <==> forall i :: 0 <= i < |rs| ==> !rs[i].success)
  {
    SuccessCountIs(rs);
    if rs != [] {
      RatioBounds(SuccessCount(rs), |rs|);
    }
  }

  /** The ratio is the number of successful receipts over the number of receipts. */
  lemma SuccessRatioCounts(rs: seq<Receipt>)
    requires rs != []
    ensures SuccessRatio(rs).value * |rs| as real == |set i | 0 <= i < |rs| && rs[i].success| as real
  {
    SuccessCountIsSize(rs);
    QuotientTimes(SuccessCount(rs) as real, |rs| as real);
  }

  lemma QuotientTimes(x: real, y: real)
    requires y != 0.0
    ensures x / y * y == x
  {
  }

  lemma {:induction false} SuccessCountIsSize(rs: seq<Receipt>)
    ensures SuccessCount(rs) == |set i | 0 <= i < |rs| && rs[i].success|
  {
    var all := set i | 0 <= i < |rs| && rs[i].success;
    if rs == [] {
      assert all == {};
    } else {
      var n := |rs| - 1;
      var before := set i | 0 <= i < n && rs[..n][i].success;
      SuccessCountIsSize(rs[..n]);
      assert all == before + if rs[n].success then {n} else {};
    }
  }

  /** The unbounded sum of the receipts' gas. */
  function TotalGasUsed(rs: seq<Receipt>): nat {
    if rs == [] then 0 else rs[0].gasUsed + TotalGasUsed(rs[1..])
  }

  lemma {:induction false} GasUsedIs(rs: seq<Receipt>)
    ensures GasUsed(rs) == Mod(TotalGasUsed(rs))
  {
    if rs != [] {
      GasUsedIs(rs[1..]);
      ReceiptsConcat([rs[0]], rs[1..]);
      assert [rs[0]] + rs[1..] == rs;
      assert GasUsed([rs[0]]) == rs[0].gasUsed;
      ModAdd(rs[0].gasUsed, TotalGasUsed(rs[1..]));
    }
  }

  /** What a record is enriched with: nothing without receipts; else their gas, modulo 2^64; the
      opcode table of the block, bucket by bucket the sum over its receipts, if and only if opcodes
      are asked for; and the storage counts of the block's diffs if and only if they are asked for
      and found. */
  lemma EnrichmentIs(f: Flags, l: Lookups, op: string)
    ensures var e := EnrichmentOf(f, l);
            match l.receipts {
              case None => e.gasUsed == 0 && e.success == Some(0.0) && e.opCodes == map[] && !CountsStorage(e)
              case Some(rs) =>
                && e.gasUsed == Mod(TotalGasUsed(rs)) && e.success == SuccessRatio(rs)
                && (!f.benchmarkOpcodes ==> e.opCodes == map[])
                && (f.benchmarkOpcodes ==>
                      && Lookup(e.opCodes, op) == OpCodeStats(BlockCount(rs, op), Mod(BlockGas(rs, op)))
                      && (op in e.opCodes <==> BlockCount(rs, op) > 0))
                && (!(f.diffStorage && l.diffs.Some?) ==> !CountsStorage(e))
                && (f.diffStorage && l.diffs.Some? ==> CountsOf(e, l.diffs.value))
            }
  {
    if l.receipts.Some? {
      var rs := l.receipts.value;
      GasUsedIs(rs);
      BlockTableIsSum(rs, op);
      BlockEventsBucket(rs, op);
      BucketIsSum(map[], BlockEvents(rs), op);
    }
  }

  /** Some storage counter is not zero. */
  predicate CountsStorage(e: Enrichment) {
    e.slotsChanged != 0 || e.storageTriesChanged != 0 || e.accountsChanged != 0
  }

  /** The counters are the numbers of distinct slots, of their accounts, and of accounts in a post state. */
  predicate CountsOf(e: Enrichment, ts: seq<StorageTrace>) {
    && e.slotsChanged == Mod(|TouchedSlots(ts)|)
    && e.storageTriesChanged == Mod(|TouchedTries(ts)|)
    && e.accountsChanged == Mod(|PostAccounts(ts)|)
  }

  // ---------- Timings ----------

  /** The clock is read before the first call, after it, after the payload came back, after its
      validation, after newPayload, and after the last call. */
  function TimingsOf(clock: nat -> int): Timings {
    var fcu, get := clock(1) - clock(0), clock(2) - clock(1);
    var newPayload, last := clock(4) - clock(3), clock(5) - clock(4);
    Timings(fcu, get, newPayload, last, fcu + get + newPayload + last)
  }

  /** Each call has the time between the looks before and after it; the total is their sum, the
      time from the first look to the last less that of the validation. So by a
      clock that never goes back it is at most the elapsed time, and exactly that if and only if
      the validation takes no time. */
  lemma TotalIsAllButValidation(clock: nat -> int)
    ensures var t := TimingsOf(clock);
            && t.fcu == clock(1) - clock(0) && t.get == clock(2) - clock(1)
            && t.newPayload == clock(4) - clock(3) && t.fcuNoAttrs == clock(5) - clock(4)
            && t.total == t.fcu + t.get + t.newPayload + t.fcuNoAttrs
    ensures TimingsOf(clock).total == clock(5) - clock(0) - (clock(3) - clock(2))
    ensures (forall i: nat :: clock(i) <= clock(i + 1)) ==>
      && 0 <= TimingsOf(clock).total <= clock(5) - clock(0)
      && (TimingsOf(clock).total == clock(5) - clock(0) <==> clock(3) == clock(2))
  {
    if forall i: nat :: clock(i) <= clock(i + 1) {
      assert clock(0) <= clock(0 + 1) <= clock(1 + 1) <= clock(2 + 1) <= clock(3 + 1) <= clock(4 + 1);
    }
  }
}
