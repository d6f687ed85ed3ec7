/** Attribution of a block's gas to opcodes, from the execution log of each transaction. */
module Trace {
  import opened Options
  import opened Uint64
  import opened OpCodeTable
  import opened BlockStats
  import opened CallTree

  datatype TxTrace = TxTrace(gas: u64, structLogs: seq<StructLog>)

  /** A receipt with the answers of the two look-ups made for it: the transaction's gas
      limit and its execution trace. None is a look-up that failed on every retry. */
  datatype Receipt = Receipt(gasUsed: u64, success: bool, txGas: Option<u64>, trace: Option<TxTrace>) {
    predicate Traced() { txGas.Some? && trace.Some? }
  }

  /** The gas charged to a log entry, in unsigned arithmetic. */
  function Charge(log: StructLog, following: seq<StructLog>): u64 {
    if following == [] then log.gasCost
    else if log.depth < following[0].depth then Sub64(log.gasCost, following[0].gas)
    else if log.depth == following[0].depth then Sub64(log.gas, following[0].gas)
    else log.gasCost
  }

  function LogEvents(logs: seq<StructLog>): (es: seq<Event>)
    ensures |es| == |logs|
    ensures forall i :: 0 <= i < |es| ==> es[i] == Event(logs[i].op, Charge(logs[i], logs[i + 1..]))
  {
    seq(|logs|, i requires 0 <= i < |logs| => Event(logs[i].op, Charge(logs[i], logs[i + 1..])))
  }

  function IntrinsicGas(gasLimit: u64, trace: TxTrace): u64 {
    if trace.structLogs == [] then trace.gas else Sub64(gasLimit, trace.structLogs[0].gas)
  }

  function LastRefund(logs: seq<StructLog>): u64 {
    if logs == [] then 0 else logs[|logs| - 1].refund
  }

  /** What one receipt contributes to the opcode table. */
  function ReceiptEvents(r: Receipt): seq<Event> {
    if !r.Traced() then [Event("UNKNOWN", r.gasUsed)]
    else
      [Event("TRANSACTION", IntrinsicGas(r.txGas.value, r.trace.value))]
      + LogEvents(r.trace.value.structLogs)
      + [Event("REFUND", LastRefund(r.trace.value.structLogs))]
  }

  /** What a block's receipts contribute, in order. */
  function BlockEvents(rs: seq<Receipt>): seq<Event> {
    if rs == [] then [] else BlockEvents(rs[..|rs| - 1]) + ReceiptEvents(rs[|rs| - 1])
  }

  // ---------- The code ----------

  method AddOpCode(s: TraceStats, op: string, gas: u64)
    modifies s`opCodes
    ensures s.opCodes == AddEvent(old(s.opCodes), Event(op, gas))
  {
    var was := Lookup(s.opCodes, op);
    s.opCodes := s.opCodes[op := OpCodeStats(was.count + 1, Add64(was.gas, gas))];
  }

  lemma AppendEvent(t: Table, es: seq<Event>, e: Event)
    ensures AddEvents(t, es + [e]) == AddEvent(AddEvents(t, es), e)
  {
    assert (es + [e])[..|es|] == es;
  }

  lemma NextEvent(t: Table, es: seq<Event>, idx: nat)
    requires idx < |es|
    ensures AddEvents(t, es[..idx + 1]) == AddEvent(AddEvents(t, es[..idx]), es[idx])
  {
    assert es[..idx + 1][..idx] == es[..idx];
  }

  lemma NextRefund(logs: seq<StructLog>, idx: nat)
    requires idx < |logs|
    ensures LastRefund(logs[..idx + 1]) == logs[idx].refund
  {
  }

  /** The charge of one entry: its cost, corrected by a look at the next entry. */
  method ChargeEntry(logs: seq<StructLog>, idx: nat) returns (opGas: u64)
    requires idx < |logs|
    ensures opGas == Charge(logs[idx], logs[idx + 1..])
  {
    var log := logs[idx];
    opGas := log.gasCost;
    if idx < |logs| - 1 {
      var nextLog := logs[idx + 1];
      if log.depth < nextLog.depth {
        opGas := Sub64(log.gasCost, nextLog.gas);
      } else if log.depth == nextLog.depth {
        opGas := Sub64(log.gas, nextLog.gas);
      }
    }
  }

  /** The loop over the log entries; returns the refund counter of the last one. */
  method TraceLogs(logs: seq<StructLog>, s: TraceStats) returns (gasRefund: u64)
    modifies s`opCodes
    ensures s.opCodes == AddEvents(old(s.opCodes), LogEvents(logs))
    ensures gasRefund == LastRefund(logs)
  {
    ghost var es := LogEvents(logs);
    gasRefund := 0;
    var idx := 0;
    while idx < |logs|
      invariant 0 <= idx <= |logs|
      invariant s.opCodes == AddEvents(old(s.opCodes), es[..idx])
      invariant gasRefund == LastRefund(logs[..idx])
    {
      var opGas := ChargeEntry(logs, idx);
      NextEvent(old(s.opCodes), es, idx);
      AddOpCode(s, logs[idx].op, opGas);
      NextRefund(logs, idx);
      gasRefund := logs[idx].refund;
      idx := idx + 1;
    }
    assert logs[..idx] == logs && es[..idx] == es;
  }

  method TraceReceipt(r: Receipt, s: TraceStats)
    modifies s`opCodes
    ensures s.opCodes == AddEvents(old(s.opCodes), ReceiptEvents(r))
  {
    ghost var table := s.opCodes;
    if r.txGas.None? || r.trace.None? {
      AddOpCode(s, "UNKNOWN", r.gasUsed);
      AppendEvent(table, [], Event("UNKNOWN", r.gasUsed));
      assert [] + ReceiptEvents(r) == ReceiptEvents(r);
      return;
    }
    var gasLimit, logs := r.txGas.value, r.trace.value.structLogs;

    var gasUsage := r.trace.value.gas;
    if |logs| > 0 {
      gasUsage := Sub64(gasLimit, logs[0].gas);
    }
    AddOpCode(s, "TRANSACTION", gasUsage);
    var gasRefund := TraceLogs(logs, s);
    AddOpCode(s, "REFUND", gasRefund);

    ghost var tx := Event("TRANSACTION", gasUsage);
    AppendEvent(table, [], tx);
    assert [] + [tx] == [tx];
    AddEventsConcat(table, [tx], LogEvents(logs));
    AppendEvent(table, [tx] + LogEvents(logs), Event("REFUND", gasRefund));
  }

  /** The opcode part of computeTraceStats. */
  method ComputeOpCodes(receipts: seq<Receipt>, s: TraceStats)
    modifies s`opCodes
    ensures s.opCodes == AddEvents(map[], BlockEvents(receipts))
  {
    s.opCodes := map[];
    var i := 0;
    while i < |receipts|
      invariant 0 <= i <= |receipts|
      invariant s.opCodes == AddEvents(map[], BlockEvents(receipts[..i]))
    {
      TraceReceipt(receipts[i], s);
      AddEventsConcat(map[], BlockEvents(receipts[..i]), ReceiptEvents(receipts[i]));
      assert receipts[..i + 1][..i] == receipts[..i];
      i := i + 1;
    }
    assert receipts[..i] == receipts;
  }

  // ---------- Charges and the call tree ----------

  lemma ChargeIsSelfGas(log: StructLog, following: seq<StructLog>)
    ensures Charge(log, following) == Mod(SelfGas(log, following))
  {
    if following != [] && log.depth < following[0].depth {
      Sub64IsMod(log.gasCost, following[0].gas);
    } else if following != [] && log.depth == following[0].depth {
      Sub64IsMod(log.gas, following[0].gas);
    }
  }

  lemma {:induction false} OnePassAt(logs: seq<StructLog>)
    ensures |OnePass(logs)| == |logs|
    ensures forall i :: 0 <= i < |logs| ==> OnePass(logs)[i] == SelfGas(logs[i], logs[i + 1..])
  {
    if logs != [] {
      OnePassAt(logs[1..]);
      forall i | 0 <= i < |logs|
        ensures OnePass(logs)[i] == SelfGas(logs[i], logs[i + 1..])
      {
        if i > 0 {
          assert logs[1..][i - 1] == logs[i] && logs[1..][i..] == logs[i + 1..];
        }
      }
    }
  }

  lemma {:induction false} EventGasIsSum(es: seq<Event>, xs: seq<int>)
    requires |es| == |xs| && forall i :: 0 <= i < |es| ==> es[i].gas == Mod(xs[i])
    ensures Mod(EventGas(es)) == Mod(Sum(xs))
  {
    if es != [] {
      var n := |es| - 1;
      EventGasIsSum(es[..n], xs[..n]);
      assert xs == xs[..n] + [xs[n]];
      SumConcat(xs[..n], [xs[n]]);
      assert Sum([xs[n]]) == xs[n];
      ModAdd(EventGas(es[..n]), es[n].gas);
      ModAdd(Sum(xs[..n]), xs[n]);
    }
  }

  lemma LogEventsSum(logs: seq<StructLog>)
    ensures Mod(EventGas(LogEvents(logs))) == Mod(Sum(OnePass(logs)))
  {
    OnePassAt(logs);
    forall i | 0 <= i < |logs|
      ensures LogEvents(logs)[i].gas == Mod(OnePass(logs)[i])
    {
      ChargeIsSelfGas(logs[i], logs[i + 1..]);
    }
    EventGasIsSum(LogEvents(logs), OnePass(logs));
  }

  lemma {:induction false} EventGasConcat(a: seq<Event>, b: seq<Event>)
    ensures EventGas(a + b) == EventGas(a) + EventGas(b)
  {
    if b == [] {
      assert a + b == a;
    } else {
      var n := |b| - 1;
      assert (a + b)[..|a + b| - 1] == a + b[..n];
      EventGasConcat(a, b[..n]);
    }
  }

  // ---------- Main results ----------

  /** The gas one receipt adds to all buckets of the table but the refund. */
  ghost function AttributedGas(t: Table, r: Receipt): u64
    requires r.Traced()
  {
    Mod(Total(AddEvents(t, ReceiptEvents(r)), GasField) - Total(t, GasField) - LastRefund(r.trace.value.structLogs))
  }

  /** The sums behind AttributedGasIs. */
  lemma AttributedSum(limit: u64, start: u64, logGas: int, charges: int, refund: int, before: int, after: int,
                      total: int)
    requires Mod(after) == Mod(before + (Sub64(limit, start) + logGas + refund))
    requires Mod(logGas) == Mod(charges) && total == limit - start + charges
    ensures Mod(after - before - refund) == Mod(total)
  {
    var usage := Sub64(limit, start);
    ModPlus(after, before + (usage + logGas + refund), -before - refund);
    ModPlus(logGas, charges, usage);
    assert Mod(usage + charges) == Mod(total) by {
      if start > limit {
        ModStep(total);
        assert usage + charges == total + U64;
      } else {
        assert usage + charges == total;
      }
    }
  }

  lemma ReceiptGas(r: Receipt)
    requires r.Traced() && r.trace.value.structLogs != []
    ensures var logs := r.trace.value.structLogs;
            EventGas(ReceiptEvents(r))
              == Sub64(r.txGas.value, logs[0].gas) + EventGas(LogEvents(logs)) + LastRefund(logs)
  {
    var logs := r.trace.value.structLogs;
    var tx, refund := Event("TRANSACTION", Sub64(r.txGas.value, logs[0].gas)), Event("REFUND", LastRefund(logs));
    EventGasConcat([tx] + LogEvents(logs), [refund]);
    EventGasConcat([tx], LogEvents(logs));
    assert EventGas([tx]) == tx.gas && EventGas([refund]) == refund.gas;
  }

  /** What one traced receipt adds to the table's total. */
  lemma ReceiptTotal(t: Table, r: Receipt)
    requires r.Traced() && r.trace.value.structLogs != []
    ensures var logs := r.trace.value.structLogs;
            Mod(Total(AddEvents(t, ReceiptEvents(r)), GasField)) ==
            Mod(Total(t, GasField)
                + (Sub64(r.txGas.value, logs[0].gas) + EventGas(LogEvents(logs)) + LastRefund(logs)))
  {
    hide Mod, Total, AddEvents, EventGas, LogEvents, ReceiptEvents, Sub64;
    AddEventsTotal(t, ReceiptEvents(r));
    ReceiptGas(r);
  }

  /** The attributed gas is the intrinsic gas plus the charges of all entries. */
  lemma AttributedGasIsCharges(t: Table, r: Receipt, total: int)
    requires r.Traced() && r.trace.value.structLogs != []
    requires total == r.txGas.value - r.trace.value.structLogs[0].gas + Sum(OnePass(r.trace.value.structLogs))
    ensures AttributedGas(t, r) == Mod(total)
  {
    var logs := r.trace.value.structLogs;
    ReceiptTotal(t, r);
    LogEventsSum(logs);
    AttributedSum(r.txGas.value, logs[0].gas, EventGas(LogEvents(logs)), Sum(OnePass(logs)), LastRefund(logs),
                  Total(t, GasField), Total(AddEvents(t, ReceiptEvents(r)), GasField), total);
  }

  /** f is the call tree of the receipt's log; by NestsIffTree every log that nests has one. */
  predicate HasTree(r: Receipt, f: Frame) {
    r.Traced() && IsTreeOf(r.trace.value.structLogs, 1, f)
  }

  /** For every log with a call tree: the attributed gas is the gas limit minus the gas left
      after the last entry, short by the unattributed and over by the overcharged gas of the tree. */
  lemma AttributedGasIs(t: Table, r: Receipt, f: Frame)
    requires HasTree(r, f)
    ensures AttributedGas(t, r) == Mod(r.txGas.value - f.Left() - Unattributed(f) + Overcharged(f))
  {
    var logs := r.trace.value.structLogs;
    TreeCharges(logs, f);
    AttributedGasIsCharges(t, r, r.txGas.value - logs[0].gas + Sum(OnePass(logs)));
  }

  lemma TreeCharges(logs: seq<StructLog>, f: Frame)
    requires IsTreeOf(logs, 1, f)
    ensures logs != [] && logs[0].gas - Sum(OnePass(logs)) == f.Left() + Unattributed(f) - Overcharged(f)
  {
    OnePassIsTreeRule(f, 1);
    ChargesTelescope(f);
  }

  lemma {:induction false} LeftBounds(f: Frame)
    requires GasRules(f)
    ensures f.Left() <= f.StartGas()
  {
    match f
    case Last(_) =>
    case Op(_, rest) =>
      LeftBounds(rest);
    case Call(_, callee, rest) =>
      LeftBounds(callee);
      LeftBounds(rest);
  }

  /** The gas that a receipt's buckets miss, or count too much: `burnt` is what the transaction
      itself loses after its last entry. */
  function Discrepancy(f: Frame, burnt: nat): int { Unattributed(f) + burnt - Overcharged(f) }

  /** A wrapped sum is right exactly if what it is off by wraps to nothing. */
  lemma OffIffZero(used: u64, off: int, total: int)
    requires total == used - off
    ensures Mod(total) == used <==> Mod(off) == 0
  {
    var q := ModQuotient(off);
    ModShift(used - Mod(off), -q);
    assert total == used - Mod(off) + U64 * -q;
  }

  /** For every log with a call tree, whatever the gas in it: the buckets together are the gas
      used before refunds if and only if missing and overcharged gas cancel out, modulo 2^64. */
  lemma AttributionExactIff(t: Table, r: Receipt, f: Frame, burnt: nat)
    requires HasTree(r, f) && burnt <= f.Left() <= r.txGas.value
    ensures AttributedGas(t, r) == r.txGas.value - (f.Left() - burnt) <==> Discrepancy(f, burnt) % U64 == 0
  {
    hide Mod, AttributedGas, IsTreeOf, Unattributed, Overcharged;
    AttributedGasIs(t, r, f);
    OffIffZero(r.txGas.value - (f.Left() - burnt), Discrepancy(f, burnt),
               r.txGas.value - f.Left() - Unattributed(f) + Overcharged(f));
    ModIsRemainder(Discrepancy(f, burnt));
  }

  lemma SmallRemainder(x: int)
    requires x < U64 && 0 < x + U64
    ensures x % U64 == 0 <==> x == 0
  {
  }

  /** The attribution is exact if no creation runs code, no callee and not the transaction itself
      loses gas, and no last entry costs more than its gas. Of these, given the last, it is exact
      only if the others hold; given the others, only if the last does. */
  lemma AttributionExactWhen(t: Table, r: Receipt, f: Frame, burnt: nat)
    requires HasTree(r, f) && GasRules(f) && f.StartGas() <= r.txGas.value && burnt <= f.Left()
    requires Unattributed(f) + burnt < U64 && Overcharged(f) < U64
    ensures var exact := AttributedGas(t, r) == r.txGas.value - (f.Left() - burnt);
            && (Conserving(f) && burnt == 0 && Affordable(f) ==> exact)
            && (Affordable(f) ==> (exact <==> Conserving(f) && burnt == 0))
            && (Conserving(f) && burnt == 0 ==> (exact <==> Affordable(f)))
  {
    LeftBounds(f);
    AttributionExactIff(t, r, f, burnt);
    UnattributedZeroIff(f);
    OverchargedZeroIff(f);
    SmallRemainder(Discrepancy(f, burnt));
  }

  /** Each charge of the loop is the true difference: no unsigned subtraction wraps. */
  predicate ChargesExact(logs: seq<StructLog>) {
    logs == [] || (Charge(logs[0], logs[1..]) == SelfGas(logs[0], logs[1..]) && ChargesExact(logs[1..]))
  }

  /** No unsigned subtraction of the loop wraps if and only if every creation's own cost
      covers the gas its code starts with. */
  lemma NoSubtractionWrapsIff(f: Frame, d: int)
    requires f.AtDepth(d) && GasDrops(f)
    ensures ChargesExact(f.Flatten()) <==> CreationsCovered(f)
  {
    OnePassIsTreeRule(f, d);
    NoWrapIff(f);
    ChargesExactIff(f.Flatten());
  }

  lemma {:induction false} ChargesExactIff(logs: seq<StructLog>)
    ensures ChargesExact(logs) <==> NonNegative(OnePass(logs))
  {
    if logs != [] {
      ChargesExactIff(logs[1..]);
      ChargeExactIff(logs[0], logs[1..]);
      NonNegativeConcat([SelfGas(logs[0], logs[1..])], OnePass(logs[1..]));
      assert SelfGas(logs[0], logs[1..]) in [SelfGas(logs[0], logs[1..])];
    }
  }

  lemma ChargeExactIff(log: StructLog, following: seq<StructLog>)
    ensures Charge(log, following) == SelfGas(log, following) <==> SelfGas(log, following) >= 0
  {
  }

  /** The log of a transaction that pushes three words and creates a contract from five bytes of
      code, all but a 64th of the gas forwarded and all of it handed back. */
  function CreationLog(refund: u64): Frame {
    Op(StructLog("PUSH1", 100_009, 3, refund, 1),
       Op(StructLog("PUSH1", 100_006, 3, refund, 1),
          Op(StructLog("PUSH1", 100_003, 3, refund, 1),
             Call(StructLog("CREATE", 100_000, 32_005, refund, 1),
                  Last(StructLog("STOP", 66_933, 0, refund, 2)),
                  Last(StructLog("STOP", 67_995, 0, refund, 1))))))
  }

  /** The same with a salt, pushed as well. */
  function SaltedCreationLog(refund: u64): Frame {
    Op(StructLog("PUSH1", 100_012, 3, refund, 1),
       Op(StructLog("PUSH1", 100_009, 3, refund, 1),
          Op(StructLog("PUSH1", 100_006, 3, refund, 1),
             Op(StructLog("PUSH1", 100_003, 3, refund, 1),
                Call(StructLog("CREATE2", 100_000, 32_011, refund, 1),
                     Last(StructLog("STOP", 66_927, 0, refund, 2)),
                     Last(StructLog("STOP", 67_989, 0, refund, 1)))))))
  }

  /** What matters about these logs, from an entry with `gas` left on. */
  predicate CreatesFrom(f: Frame, gas: u64, forwarded: u64, left: u64) {
    && f.AtDepth(1) && f.StartGas() == gas && GasRules(f) && Affordable(f)
    && f.Left() == left && Unattributed(f) == forwarded && Overcharged(f) == 0
  }

  lemma CreateEntry(create: StructLog, callee: StructLog, after: StructLog)
    requires create.op == "CREATE" || create.op == "CREATE2"
    requires create.gas == 100_000 && create.gasCost == 100_000 - after.gas && create.depth == 1
    requires callee.gas <= after.gas <= 100_000 && callee.gasCost == 0 && callee.depth == 2
    requires after.gasCost == 0 && after.depth == 1
    ensures CreatesFrom(Call(create, Last(callee), Last(after)), 100_000, callee.gas, after.gas)
  {
    var a, b := Last(callee), Last(after);
    var f := Call(create, a, b);
    assert a.AtDepth(2) && b.AtDepth(1) && a.Left() == callee.gas && b.Left() == after.gas && f.Left() == b.Left();
    assert GasRules(a) && GasRules(b) && Affordable(a) && Affordable(b);
    assert Unattributed(a) == 0 && Unattributed(b) == 0 && Overcharged(a) == 0 && Overcharged(b) == 0;
    assert Lost(create, a, b) == 0;
  }

  lemma PushEntry(push: StructLog, f: Frame, gas: u64, forwarded: u64, left: u64)
    requires CreatesFrom(f, gas, forwarded, left) && gas <= push.gas && push.depth == 1
    ensures CreatesFrom(Op(push, f), push.gas, forwarded, left)
  {
  }

  lemma PushEntries(f: Frame, refund: u64, forwarded: u64, left: u64)
    requires CreatesFrom(f, 100_000, forwarded, left)
    ensures CreatesFrom(Op(StructLog("PUSH1", 100_009, 3, refund, 1),
                           Op(StructLog("PUSH1", 100_006, 3, refund, 1),
                              Op(StructLog("PUSH1", 100_003, 3, refund, 1), f))), 100_009, forwarded, left)
  {
    hide CreatesFrom;
    PushEntry(StructLog("PUSH1", 100_003, 3, refund, 1), f, 100_000, forwarded, left);
    var g := Op(StructLog("PUSH1", 100_003, 3, refund, 1), f);
    PushEntry(StructLog("PUSH1", 100_006, 3, refund, 1), g, 100_003, forwarded, left);
    g := Op(StructLog("PUSH1", 100_006, 3, refund, 1), g);
    PushEntry(StructLog("PUSH1", 100_009, 3, refund, 1), g, 100_006, forwarded, left);
  }

  lemma CreationLogIs(refund: u64)
    ensures CreatesFrom(CreationLog(refund), 100_009, 66_933, 67_995)
  {
    hide CreatesFrom;
    var create, callee, after := StructLog("CREATE", 100_000, 32_005, refund, 1),
                                 StructLog("STOP", 66_933, 0, refund, 2), StructLog("STOP", 67_995, 0, refund, 1);
    CreateEntry(create, callee, after);
    PushEntries(Call(create, Last(callee), Last(after)), refund, 66_933, 67_995);
  }

  lemma SaltedCreationLogIs(refund: u64)
    ensures CreatesFrom(SaltedCreationLog(refund), 100_012, 66_927, 67_989)
  {
    hide CreatesFrom;
    var create, callee, after := StructLog("CREATE2", 100_000, 32_011, refund, 1),
                                 StructLog("STOP", 66_927, 0, refund, 2), StructLog("STOP", 67_989, 0, refund, 1);
    CreateEntry(create, callee, after);
    PushEntries(Call(create, Last(callee), Last(after)), refund, 66_927, 67_989);
    PushEntry(StructLog("PUSH1", 100_012, 3, refund, 1), SaltedCreationLog(refund).rest, 100_009, 66_927, 67_989);
  }

  /** A transaction with such a log used the gas that it does not hand back, and the gas forwarded
      is missing from the sum. */
  lemma CreationSum(t: Table, f: Frame, gas: u64, forwarded: u64, left: u64, limit: u64)
    requires CreatesFrom(f, gas, forwarded, left) && left <= gas <= limit
    ensures var r := Receipt(limit - left, true, Some(limit), Some(TxTrace(limit - left, f.Flatten())));
            && HasTree(r, f) && GasRules(f) && Affordable(f)
            && AttributedGas(t, r) == Mod(limit - left - forwarded)
  {
    hide AttributedGas;
    var r := Receipt(limit - left, true, Some(limit), Some(TxTrace(limit - left, f.Flatten())));
    assert IsTreeOf(f.Flatten(), 1, f);
    AttributedGasIs(t, r, f);
  }

  /** The other half is real: these transactions used 53014 and 53023 gas, and the creation makes
      their attributed gas wrap below zero. */
  lemma CreationUndercounts(t: Table, refund: u64)
    ensures var f := CreationLog(refund);
            var r := Receipt(53_014, true, Some(121_009), Some(TxTrace(53_014, f.Flatten())));
            && HasTree(r, f) && GasRules(f) && Affordable(f)
            && r.txGas.value - f.Left() == 53_014 && AttributedGas(t, r) == U64 - 13_919
    ensures var f := SaltedCreationLog(refund);
            var r := Receipt(53_023, true, Some(121_012), Some(TxTrace(53_023, f.Flatten())));
            && HasTree(r, f) && GasRules(f) && Affordable(f)
            && r.txGas.value - f.Left() == 53_023 && AttributedGas(t, r) == U64 - 13_904
  {
    hide AttributedGas, GasRules, Affordable, Unattributed, Overcharged;
    CreationLogIs(refund);
    CreationSum(t, CreationLog(refund), 100_009, 66_933, 67_995, 121_009);
    SaltedCreationLogIs(refund);
    CreationSum(t, SaltedCreationLog(refund), 100_012, 66_927, 67_989, 121_012);
  }

  /** And an opcode that runs out of gas is charged more than there was: an addition for 3 gas
      with 2 left, and no call anywhere, makes the attributed gas exceed the 21005 used. */
  lemma OutOfGasOvercounts(t: Table, refund: u64)
    ensures var f := Op(StructLog("PUSH1", 5, 3, refund, 1), Last(StructLog("ADD", 2, 3, refund, 1)));
            var r := Receipt(21_005, false, Some(21_005), Some(TxTrace(21_005, f.Flatten())));
            && HasTree(r, f) && GasRules(f) && Conserving(f) && CreationsCovered(f)
            && f.Left() == 0 && AttributedGas(t, r) == 21_006
  {
    var rest := Last(StructLog("ADD", 2, 3, refund, 1));
    var f := Op(StructLog("PUSH1", 5, 3, refund, 1), rest);
    assert rest.AtDepth(1);
    assert IsTreeOf(f.Flatten(), 1, f);
    var r := Receipt(21_005, false, Some(21_005), Some(TxTrace(21_005, f.Flatten())));
    AttributedGasIs(t, r, f);
  }

  // ---------- What each bucket gains ----------

  lemma OneEvent(e: Event, op: string)
    ensures CountOf([e], op) == (if e.op == op then 1 else 0) && GasOf([e], op) == (if e.op == op then e.gas else 0)
    ensures EventGas([e]) == e.gas
  {
    assert [e][..0] == [];
  }

  /** A receipt that could not be traced adds its gas to the bucket UNKNOWN and nothing elsewhere. */
  lemma UntracedBuckets(t: Table, r: Receipt, op: string)
    requires !r.Traced()
    ensures var after := AddEvents(t, ReceiptEvents(r));
            Lookup(after, op) ==
              if op == "UNKNOWN" then OpCodeStats(Lookup(t, op).count + 1, Add64(Lookup(t, op).gas, r.gasUsed))
              else Lookup(t, op)
  {
    assert ReceiptEvents(r)[..0] == [];
  }

  lemma TracedCounts(transaction: Event, entries: seq<Event>, refund: Event, op: string)
    ensures var es := [transaction] + entries + [refund];
            && CountOf(es, op) == CountOf([transaction], op) + CountOf(entries, op) + CountOf([refund], op)
            && GasOf(es, op) == GasOf([transaction], op) + GasOf(entries, op) + GasOf([refund], op)
  {
    BucketsConcat([transaction] + entries, [refund], op);
    BucketsConcat([transaction], entries, op);
  }

  /** A traced receipt adds to the bucket TRANSACTION the gas limit less the gas of the first entry,
      or all the gas of a trace without entries; to the bucket REFUND the refund counter of the
      last entry; and to every bucket the entries and charges of that name. */
  lemma TracedBuckets(t: Table, r: Receipt, op: string)
    requires r.Traced()
    ensures var logs, after := r.trace.value.structLogs, AddEvents(t, ReceiptEvents(r));
            var intrinsic: u64 := if logs == [] then r.trace.value.gas else Sub64(r.txGas.value, logs[0].gas);
            var refund: u64 := if logs == [] then 0 else logs[|logs| - 1].refund;
            && Lookup(after, op).count == Lookup(t, op).count + CountOf(LogEvents(logs), op)
                 + (if op == "TRANSACTION" then 1 else 0) + (if op == "REFUND" then 1 else 0)
            && Lookup(after, op).gas == Mod(Lookup(t, op).gas + GasOf(LogEvents(logs), op)
                 + (if op == "TRANSACTION" then intrinsic else 0) + (if op == "REFUND" then refund else 0))
  {
    hide AddEvents, GasOf, CountOf, LogEvents, Mod;
    var logs := r.trace.value.structLogs;
    var transaction := Event("TRANSACTION", IntrinsicGas(r.txGas.value, r.trace.value));
    var refund := Event("REFUND", LastRefund(logs));
    BucketIsSum(t, ReceiptEvents(r), op);
    TracedCounts(transaction, LogEvents(logs), refund, op);
    OneEvent(transaction, op);
    OneEvent(refund, op);
  }

  /** A trace without entries, as of a plain transfer, is attributed all of its gas. */
  lemma EmptyLogGas(t: Table, r: Receipt)
    requires r.Traced() && r.trace.value.structLogs == []
    ensures AttributedGas(t, r) == r.trace.value.gas
  {
    hide Mod, Total, AddEvents, EventGas;
    var transaction, refund := Event("TRANSACTION", r.trace.value.gas), Event("REFUND", 0);
    var es := ReceiptEvents(r);
    AddEventsTotal(t, es);
    assert es == [transaction] + [refund];
    EventGasConcat([transaction], [refund]);
    OneEvent(transaction, "TRANSACTION");
    OneEvent(refund, "REFUND");
    var before, after := Total(t, GasField), Total(AddEvents(t, es), GasField);
    assert Mod(after) == Mod(before + transaction.gas);
    ModPlus(after, before + transaction.gas, -before);
    SmallMod(transaction.gas);
  }

  lemma SmallMod(x: u64)
    ensures Mod(x) == x
  {
  }

  // ---------- Blocks ----------

  lemma BlockEventsSnoc(rs: seq<Receipt>, r: Receipt)
    ensures BlockEvents(rs + [r]) == BlockEvents(rs) + ReceiptEvents(r)
  {
    assert (rs + [r])[..|rs|] == rs;
  }

  lemma {:induction false} MoveReceiptToEnd(a: seq<Receipt>, r: Receipt, b: seq<Receipt>)
    ensures multiset(BlockEvents(a + [r] + b)) == multiset(BlockEvents(a + b)) + multiset(ReceiptEvents(r))
  {
    if b == [] {
      BlockEventsSnoc(a, r);
      assert a + [r] + b == a + [r] && a + b == a;
    } else {
      var n := |b| - 1;
      MoveReceiptToEnd(a, r, b[..n]);
      var with, without, last := a + [r] + b[..n], a + b[..n], b[n];
      SplitLast(a + [r], b);
      SplitLast(a, b);
      BlockEventsSnoc(with, last);
      BlockEventsSnoc(without, last);
      MultisetSwap(BlockEvents(with), BlockEvents(without), ReceiptEvents(r), ReceiptEvents(last));
    }
  }

  lemma SplitLast<T>(a: seq<T>, b: seq<T>)
    requires b != []
    ensures a + b == a + b[..|b| - 1] + [b[|b| - 1]]
  {
  }

  lemma MultisetSwap<T>(with: seq<T>, without: seq<T>, r: seq<T>, last: seq<T>)
    requires multiset(with) == multiset(without) + multiset(r)
    ensures multiset(with + last) == multiset(without + last) + multiset(r)
  {
  }

  lemma {:induction false} BlockEventsPermute(rs: seq<Receipt>, qs: seq<Receipt>)
    requires multiset(rs) == multiset(qs)
    ensures multiset(BlockEvents(rs)) == multiset(BlockEvents(qs))
    decreases |rs|
  {
    if rs == [] {
      assert |qs| == |multiset(qs)| == |multiset(rs)| == 0;
    } else {
      var n := |rs| - 1;
      assert rs == rs[..n] + [rs[n]];
      assert rs[n] in multiset(qs);
      var i :| 0 <= i < |qs| && qs[i] == rs[n];
      assert qs == qs[..i] + [rs[n]] + qs[i + 1..];
      WithoutOne(rs[..n], rs[n], qs, i);
      BlockEventsPermute(rs[..n], qs[..i] + qs[i + 1..]);
      MoveReceiptToEnd(qs[..i], rs[n], qs[i + 1..]);
    }
  }

  /** The opcode table of a block does not depend on the order of its receipts. */
  lemma ReceiptOrderIrrelevant(rs: seq<Receipt>, qs: seq<Receipt>)
    requires multiset(rs) == multiset(qs)
    ensures AddEvents(map[], BlockEvents(rs)) == AddEvents(map[], BlockEvents(qs))
  {
    BlockEventsPermute(rs, qs);
    OrderIrrelevant(map[], BlockEvents(rs), BlockEvents(qs));
  }

  lemma {:induction false} BucketsConcat(a: seq<Event>, b: seq<Event>, op: string)
    ensures CountOf(a + b, op) == CountOf(a, op) + CountOf(b, op)
    ensures GasOf(a + b, op) == GasOf(a, op) + GasOf(b, op)
  {
    if b == [] {
      assert a + b == a;
    } else {
      var n := |b| - 1;
      assert (a + b)[..|a + b| - 1] == a + b[..n];
      BucketsConcat(a, b[..n], op);
    }
  }

  /** The contributions of all receipts to one bucket. */
  function BlockCount(rs: seq<Receipt>, op: string): nat {
    if rs == [] then 0 else BlockCount(rs[..|rs| - 1], op) + CountOf(ReceiptEvents(rs[|rs| - 1]), op)
  }

  function BlockGas(rs: seq<Receipt>, op: string): nat {
    if rs == [] then 0 else BlockGas(rs[..|rs| - 1], op) + GasOf(ReceiptEvents(rs[|rs| - 1]), op)
  }

  lemma {:induction false} BlockEventsBucket(rs: seq<Receipt>, op: string)
    ensures CountOf(BlockEvents(rs), op) == BlockCount(rs, op)
    ensures GasOf(BlockEvents(rs), op) == BlockGas(rs, op)
  {
    if rs != [] {
      var n := |rs| - 1;
      BlockEventsBucket(rs[..n], op);
      BucketsConcat(BlockEvents(rs[..n]), ReceiptEvents(rs[n]), op);
    }
  }

  /** A block's opcode table is, bucket by bucket, the sum over its receipts. */
  lemma BlockTableIsSum(rs: seq<Receipt>, op: string)
    ensures var t := AddEvents(map[], BlockEvents(rs));
            Lookup(t, op) == OpCodeStats(BlockCount(rs, op), Mod(BlockGas(rs, op)))
  {
    BlockEventsBucket(rs, op);
    BucketIsSum(map[], BlockEvents(rs), op);
  }

  function EntryCount(rs: seq<Receipt>): nat {
    if rs == [] then 0
    else
      var r := rs[|rs| - 1];
      EntryCount(rs[..|rs| - 1]) + if r.Traced() then |r.trace.value.structLogs| + 2 else 1
  }

  /** All counts of the block's table together: log entries plus two for each traced
      receipt, one for each that could not be traced. */
  lemma {:induction false} TotalCountIs(rs: seq<Receipt>)
    ensures Total(AddEvents(map[], BlockEvents(rs)), CountField) == EntryCount(rs)
    ensures |BlockEvents(rs)| == EntryCount(rs)
  {
    AddEventsTotal(map[], BlockEvents(rs));
    if rs != [] {
      TotalCountIs(rs[..|rs| - 1]);
    }
  }
}
