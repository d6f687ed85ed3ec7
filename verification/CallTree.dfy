/**
 Nested calls behind a flat execution log. Each entry holds the gas left before
 its opcode, the cost of the opcode and the call depth; a call whose callee runs
 code is followed by the callee's entries, one level deeper.
 */
module CallTree {
  import opened Uint64

  datatype StructLog = StructLog(op: string, gas: u64, gasCost: u64, refund: u64, depth: u64)

  // ---------- The one-pass rule ----------

  /** The gas charged to an entry, before any wrap-around: of what follows it, only
      the next entry's depth and gas are looked at. */
  function SelfGas(log: StructLog, following: seq<StructLog>): int {
    if following == [] then log.gasCost
    else if log.depth < following[0].depth then log.gasCost - following[0].gas
    else if log.depth == following[0].depth then log.gas - following[0].gas
    else log.gasCost
  }

  function OnePass(logs: seq<StructLog>): seq<int> {
    if logs == [] then [] else [SelfGas(logs[0], logs[1..])] + OnePass(logs[1..])
  }

  lemma OnePassCons(log: StructLog, following: seq<StructLog>)
    ensures OnePass([log] + following) == [SelfGas(log, following)] + OnePass(following)
  {
    assert ([log] + following)[1..] == following;
  }

  function Sum(xs: seq<int>): int {
    if xs == [] then 0 else xs[0] + Sum(xs[1..])
  }

  lemma {:induction false} SumConcat(a: seq<int>, b: seq<int>)
    ensures Sum(a + b) == Sum(a) + Sum(b)
  {
    if a == [] {
      assert a + b == b;
    } else {
      assert (a + b)[1..] == a[1..] + b;
      SumConcat(a[1..], b);
    }
  }

  // ---------- Call trees ----------

  /** The entries of one call frame: plain opcodes, calls that run a callee, and the
      opcode that ends the frame. */
  datatype Frame =
    | Last(log: StructLog)
    | Op(log: StructLog, rest: Frame)
    | Call(log: StructLog, callee: Frame, rest: Frame)
  {
    /** The gas before the frame's first opcode. */
    function StartGas(): u64 { log.gas }

    /** The gas left after the frame's last opcode: none, if that opcode ran out of gas. */
    function Left(): nat {
      match this
      case Last(l) => if l.gasCost <= l.gas then l.gas - l.gasCost else 0
      case Op(_, rest) => rest.Left()
      case Call(_, _, rest) => rest.Left()
    }

    function Flatten(): (r: seq<StructLog>)
      ensures r != [] && r[0] == log
    {
      match this
      case Last(l) => [l]
      case Op(l, rest) => [l] + rest.Flatten()
      case Call(l, callee, rest) => [l] + (callee.Flatten() + rest.Flatten())
    }

    predicate AtDepth(d: int) {
      && log.depth == d
      && match this {
        case Last(_) => true
        case Op(_, rest) => rest.AtDepth(d)
        case Call(_, callee, rest) => callee.AtDepth(d + 1) && rest.AtDepth(d)
      }
    }
  }

  /** Self-gas by the structure of the calls: a call keeps what it does not hand to its
      callee, every other opcode what is gone at the next opcode of its own frame. */
  function SelfGasTree(f: Frame): seq<int> {
    match f
    case Last(l) => [l.gasCost]
    case Op(l, rest) => [l.gas - rest.StartGas()] + SelfGasTree(rest)
    case Call(l, callee, rest) => [l.gasCost - callee.StartGas()] + (SelfGasTree(callee) + SelfGasTree(rest))
  }

  lemma ConsAssoc<T>(x: T, a: seq<T>, b: seq<T>, c: seq<T>)
    ensures [x] + (a + b) + c == [x] + (a + (b + c))
    ensures ([x] + (a + b) + c)[0] == x && ([x] + (a + b) + c)[1..] == a + (b + c)
  {
    assert a + b + c == a + (b + c);
    assert [x] + (a + b) + c == [x] + (a + b + c);
  }

  /** What follows a frame's first entry. */
  function FrameTail(f: Frame, a: seq<StructLog>): seq<StructLog> {
    match f
    case Last(_) => a
    case Op(_, rest) => rest.Flatten() + a
    case Call(_, callee, rest) => callee.Flatten() + (rest.Flatten() + a)
  }

  lemma TailOfCons<T>(x: T, xs: seq<T>)
    ensures ([x] + xs)[1..] == xs && ([x] + xs)[0] == x
  {
  }

  lemma FrameTailCons(f: Frame, a: seq<StructLog>)
    ensures f.Flatten() + a == [f.log] + FrameTail(f, a)
  {
    match f
    case Last(_) =>
    case Op(_, rest) =>
      ConsAssoc(f.log, [], rest.Flatten(), a);
      assert [] + rest.Flatten() == rest.Flatten() && [] + FrameTail(f, a) == FrameTail(f, a);
    case Call(_, callee, rest) =>
      ConsAssoc(f.log, callee.Flatten(), rest.Flatten(), a);
  }

  lemma FrameTailIs(f: Frame, a: seq<StructLog>)
    ensures f.Flatten() + a == [f.log] + FrameTail(f, a)
    ensures FrameTail(f, a) == (f.Flatten() + a)[1..]
  {
    FrameTailCons(f, a);
    TailOfCons(f.log, FrameTail(f, a));
  }

  lemma FrameTailHead(f: Frame, a: seq<StructLog>)
    requires !f.Last?
    ensures FrameTail(f, a) != [] && FrameTail(f, a)[0] == if f.Op? then f.rest.log else f.callee.log
  {
  }

  /** The first entry of a frame is charged what the tree rule says. */
  lemma HeadCharge(f: Frame, d: int, tail: seq<StructLog>)
    requires f.AtDepth(d)
    requires tail != [] ==> tail[0].depth < d
    ensures SelfGas(f.log, FrameTail(f, tail)) == SelfGasTree(f)[0]
  {
    if !f.Last? {
      FrameTailHead(f, tail);
    }
  }

  lemma {:induction false} OnePassInContext(f: Frame, d: int, tail: seq<StructLog>)
    requires f.AtDepth(d)
    requires tail != [] ==> tail[0].depth < d
    ensures OnePass(f.Flatten() + tail) == SelfGasTree(f) + OnePass(tail)
    decreases f
  {
    FrameTailIs(f, tail);
    HeadCharge(f, d, tail);
    OnePassCons(f.log, FrameTail(f, tail));
    var head := [SelfGas(f.log, FrameTail(f, tail))];
    match f
    case Last(_) =>
    case Op(_, rest) =>
      OnePassInContext(rest, d, tail);
      assert head + (SelfGasTree(rest) + OnePass(tail)) == head + SelfGasTree(rest) + OnePass(tail);
    case Call(_, callee, rest) =>
      OnePassInContext(rest, d, tail);
      OnePassInContext(callee, d + 1, rest.Flatten() + tail);
      ConsAssoc(head[0], SelfGasTree(callee), SelfGasTree(rest), OnePass(tail));
  }

  /** Looking one entry ahead gives every entry, at any depth, the same self-gas as
      the recursive definition on the call tree. */
  lemma OnePassIsTreeRule(f: Frame, d: int)
    requires f.AtDepth(d)
    ensures OnePass(f.Flatten()) == SelfGasTree(f)
  {
    OnePassInContext(f, d, []);
    assert f.Flatten() + [] == f.Flatten();
  }

  // ---------- Gas that no entry accounts for, and gas that was never there ----------

  predicate IsCreate(l: StructLog) { l.op == "CREATE" || l.op == "CREATE2" }

  /** Gas deducted for the callee outside the logged cost: the cost of a message call
      includes it, that of a contract creation does not. */
  function Unlogged(l: StructLog, callee: Frame): nat {
    if IsCreate(l) then callee.StartGas() else 0
  }

  /** What the callee had left but did not hand back: burnt by an exceptional halt, or
      paid for storing created code. */
  function Lost(l: StructLog, callee: Frame, rest: Frame): int {
    l.gas - l.gasCost - Unlogged(l, callee) + callee.Left() - rest.StartGas()
  }

  /** The unlogged and lost gas of all calls of a frame, at any depth. */
  function Unattributed(f: Frame): int {
    match f
    case Last(_) => 0
    case Op(_, rest) => Unattributed(rest)
    case Call(l, callee, rest) =>
      Unlogged(l, callee) + Lost(l, callee, rest) + Unattributed(callee) + Unattributed(rest)
  }

  /** An opcode that runs out of gas is logged with its full cost, above the gas there was.
      The excess of all last entries of a frame, at any depth. */
  function Overcharged(f: Frame): nat {
    match f
    case Last(l) => if l.gasCost <= l.gas then 0 else l.gasCost - l.gas
    case Op(_, rest) => Overcharged(rest)
    case Call(_, callee, rest) => Overcharged(callee) + Overcharged(rest)
  }

  /** For every call tree whatever: the charges add up to the frame's gas drop, short by
      exactly the unattributed gas and over by exactly the overcharged gas. */
  lemma {:induction false} ChargesTelescope(f: Frame)
    ensures Sum(SelfGasTree(f)) == f.StartGas() - f.Left() - Unattributed(f) + Overcharged(f)
  {
    match f
    case Last(_) =>
    case Op(_, rest) =>
      ChargesTelescope(rest);
    case Call(l, callee, rest) =>
      ChargesTelescope(callee);
      ChargesTelescope(rest);
      SumConcat(SelfGasTree(callee), SelfGasTree(rest));
      var own := [l.gasCost - callee.StartGas()];
      SumConcat(own, SelfGasTree(callee) + SelfGasTree(rest));
  }

  /** Gas is only ever spent: it never grows from opcode to opcode of a frame, and a message
      call's cost covers the gas its callee starts with (a stipend is at most the surcharge
      paid for it). Sections 6.2 and 9 and Appendix H of the Ethereum Yellow Paper. */
  predicate GasDrops(f: Frame) {
    match f
    case Last(_) => true
    case Op(l, rest) => rest.StartGas() <= l.gas && GasDrops(rest)
    case Call(l, callee, rest) =>
      && (IsCreate(l) || callee.StartGas() <= l.gasCost)
      && GasDrops(callee) && GasDrops(rest)
  }

  /** No callee hands back more than it had left. */
  predicate NothingGained(f: Frame) {
    match f
    case Last(_) => true
    case Op(_, rest) => NothingGained(rest)
    case Call(l, callee, rest) =>
      Lost(l, callee, rest) >= 0 && NothingGained(callee) && NothingGained(rest)
  }

  predicate GasRules(f: Frame) { GasDrops(f) && NothingGained(f) }

  /** No creation runs code and no callee loses gas. */
  predicate Conserving(f: Frame) {
    match f
    case Last(_) => true
    case Op(_, rest) => Conserving(rest)
    case Call(l, callee, rest) =>
      && Unlogged(l, callee) == 0 && Lost(l, callee, rest) == 0
      && Conserving(callee) && Conserving(rest)
  }

  /** No last entry, at any depth, costs more than its gas. */
  predicate Affordable(f: Frame) {
    match f
    case Last(l) => l.gasCost <= l.gas
    case Op(_, rest) => Affordable(rest)
    case Call(_, callee, rest) => Affordable(callee) && Affordable(rest)
  }

  /** The same of all callees: only the frame's own last entry may. */
  predicate CalleesAffordable(f: Frame) {
    match f
    case Last(_) => true
    case Op(_, rest) => CalleesAffordable(rest)
    case Call(_, callee, rest) => Affordable(callee) && CalleesAffordable(rest)
  }

  /** The call's charge plus everything charged inside its callee is the caller's gas
      drop across the call. */
  predicate CallsBalance(f: Frame) {
    match f
    case Last(_) => true
    case Op(_, rest) => CallsBalance(rest)
    case Call(l, callee, rest) =>
      && l.gasCost - callee.StartGas() + Sum(SelfGasTree(callee)) == l.gas - rest.StartGas()
      && CallsBalance(callee) && CallsBalance(rest)
  }

  lemma {:induction false} UnattributedZeroIff(f: Frame)
    requires NothingGained(f)
    ensures Unattributed(f) >= 0
    ensures Unattributed(f) == 0 <==> Conserving(f)
  {
    match f
    case Last(_) =>
    case Op(_, rest) =>
      UnattributedZeroIff(rest);
    case Call(l, callee, rest) =>
      UnattributedZeroIff(callee);
      UnattributedZeroIff(rest);
  }

  lemma {:induction false} OverchargedZeroIff(f: Frame)
    ensures Overcharged(f) == 0 <==> Affordable(f)
  {
    match f
    case Last(_) =>
    case Op(_, rest) =>
      OverchargedZeroIff(rest);
    case Call(_, callee, rest) =>
      OverchargedZeroIff(callee);
      OverchargedZeroIff(rest);
  }

  /** The gas missing at and inside each call is what its callee was overcharged. */
  predicate CallsOffset(f: Frame) {
    match f
    case Last(_) => true
    case Op(_, rest) => CallsOffset(rest)
    case Call(l, callee, rest) =>
      && Unlogged(l, callee) + Lost(l, callee, rest) + Unattributed(callee) == Overcharged(callee)
      && CallsOffset(callee) && CallsOffset(rest)
  }

  /** For every call tree whatever: each call balances exactly when missing and overcharged
      gas offset each other. */
  lemma {:induction false} CallsBalanceIffOffset(f: Frame)
    ensures CallsBalance(f) <==> CallsOffset(f)
  {
    match f
    case Last(_) =>
    case Op(_, rest) =>
      CallsBalanceIffOffset(rest);
    case Call(l, callee, rest) =>
      CallsBalanceIffOffset(callee);
      CallsBalanceIffOffset(rest);
      ChargesTelescope(callee);
  }

  /** If no callee runs out of gas, every call, at every depth, balances exactly when none has
      unattributed gas; and if none has, exactly when no callee runs out of gas. */
  lemma {:induction false} CallsBalanceIff(f: Frame)
    requires NothingGained(f)
    ensures CalleesAffordable(f) ==> (CallsBalance(f) <==> Conserving(f))
    ensures Conserving(f) ==> (CallsBalance(f) <==> CalleesAffordable(f))
  {
    CallsBalanceIffOffset(f);
    OffsetIff(f);
  }

  lemma {:induction false} OffsetIff(f: Frame)
    requires NothingGained(f)
    ensures CalleesAffordable(f) ==> (CallsOffset(f) <==> Conserving(f))
    ensures Conserving(f) ==> (CallsOffset(f) <==> CalleesAffordable(f))
    ensures Affordable(f) ==> CalleesAffordable(f)
  {
    match f
    case Last(_) =>
    case Op(_, rest) =>
      OffsetIff(rest);
    case Call(l, callee, rest) =>
      OffsetIff(callee);
      OffsetIff(rest);
      UnattributedZeroIff(callee);
      OverchargedZeroIff(callee);
  }

  /** Every creation's own cost covers the gas its code starts with. */
  predicate CreationsCovered(f: Frame) {
    match f
    case Last(_) => true
    case Op(_, rest) => CreationsCovered(rest)
    case Call(l, callee, rest) =>
      && (IsCreate(l) ==> callee.StartGas() <= l.gasCost)
      && CreationsCovered(callee) && CreationsCovered(rest)
  }

  ghost predicate NonNegative(xs: seq<int>) { forall x :: x in xs ==> x >= 0 }

  lemma NonNegativeConcat(a: seq<int>, b: seq<int>)
    ensures NonNegative(a + b) <==> NonNegative(a) && NonNegative(b)
  {
    if NonNegative(a + b) {
      forall x | x in a ensures x >= 0 { assert x in a + b; }
      forall x | x in b ensures x >= 0 { assert x in a + b; }
    }
  }

  /** No charge is negative, so no unsigned subtraction wraps, exactly when every
      creation is covered. How frames end, and what callees hand back, does not matter. */
  lemma {:induction false} NoWrapIff(f: Frame)
    requires GasDrops(f)
    ensures NonNegative(SelfGasTree(f)) <==> CreationsCovered(f)
  {
    match f
    case Last(l) =>
      assert l.gasCost >= 0;
    case Op(l, rest) =>
      NoWrapIff(rest);
      NonNegativeConcat([l.gas - rest.StartGas()], SelfGasTree(rest));
    case Call(l, callee, rest) =>
      NoWrapIff(callee);
      NoWrapIff(rest);
      var own := [l.gasCost - callee.StartGas()];
      NonNegativeConcat(SelfGasTree(callee), SelfGasTree(rest));
      NonNegativeConcat(own, SelfGasTree(callee) + SelfGasTree(rest));
      assert own[0] in own;
  }

  // ---------- Which flat logs are call trees ----------

  /** The depth changes by at most one from the entry before i to entry i. */
  predicate SmallStep(logs: seq<StructLog>, i: nat) {
    1 <= i < |logs| ==> -1 <= logs[i].depth - logs[i - 1].depth <= 1
  }

  /** A flat log nests when it starts and ends at depth d, never goes above it, and
      the depth changes by at most one from entry to entry. */
  predicate Nests(logs: seq<StructLog>, d: int) {
    && logs != []
    && logs[0].depth == d && logs[|logs| - 1].depth == d
    && (forall i :: 0 <= i < |logs| ==> logs[i].depth >= d)
    && (forall i: nat :: i < |logs| ==> SmallStep(logs, i))
  }

  /** The position of the first entry back at depth d. */
  function Return(logs: seq<StructLog>, d: int, from: nat): (j: nat)
    requires from < |logs| && logs[|logs| - 1].depth == d
    ensures from <= j < |logs| && logs[j].depth == d
    ensures forall i :: from <= i < j ==> logs[i].depth != d
    decreases |logs| - from
  {
    if logs[from].depth == d then from else Return(logs, d, from + 1)
  }

  lemma NestsInside(logs: seq<StructLog>, d: int, j: nat)
    requires Nests(logs, d) && 2 <= j < |logs|
    requires logs[j].depth == d && forall i :: 1 <= i < j ==> logs[i].depth != d
    ensures Nests(logs[1..j], d + 1)
  {
    assert SmallStep(logs, 1) && SmallStep(logs, j);
    forall i: nat | i < j - 1
      ensures SmallStep(logs[1..j], i)
    {
      assert SmallStep(logs, i + 1);
    }
  }

  lemma NestsAfter(logs: seq<StructLog>, d: int, j: nat)
    requires Nests(logs, d) && j < |logs| && logs[j].depth == d
    ensures Nests(logs[j..], d)
  {
    forall i: nat | i < |logs| - j
      ensures SmallStep(logs[j..], i)
    {
      assert SmallStep(logs, i + j);
    }
  }

  lemma SplitAt<T>(xs: seq<T>, j: nat)
    requires 1 <= j <= |xs|
    ensures xs == [xs[0]] + (xs[1..j] + xs[j..])
  {
  }

  function Parse(logs: seq<StructLog>, d: int): (f: Frame)
    requires Nests(logs, d)
    ensures f.AtDepth(d) && f.Flatten() == logs
    decreases |logs|
  {
    if |logs| == 1 then Last(logs[0])
    else if logs[1].depth == d then
      NestsAfter(logs, d, 1);
      Op(logs[0], Parse(logs[1..], d))
    else
      assert SmallStep(logs, 1);
      var j := Return(logs, d, 1);
      NestsInside(logs, d, j);
      NestsAfter(logs, d, j);
      SplitAt(logs, j);
      Call(logs[0], Parse(logs[1..j], d + 1), Parse(logs[j..], d))
  }

  lemma NestsCons(log: StructLog, rest: seq<StructLog>, d: int)
    requires log.depth == d && Nests(rest, d)
    ensures Nests([log] + rest, d)
  {
    forall i: nat | i <= |rest|
      ensures SmallStep([log] + rest, i)
    {
      assert i > 0 ==> SmallStep(rest, i - 1);
    }
  }

  lemma NestsConsCall(log: StructLog, inner: seq<StructLog>, rest: seq<StructLog>, d: int)
    requires log.depth == d && Nests(inner, d + 1) && Nests(rest, d)
    ensures Nests([log] + (inner + rest), d)
  {
    forall i: nat | i <= |inner| + |rest|
      ensures SmallStep([log] + (inner + rest), i)
    {
      if 1 < i <= |inner| {
        assert SmallStep(inner, i - 1);
      } else if i > |inner| + 1 {
        assert SmallStep(rest, i - 1 - |inner|);
      }
    }
  }

  lemma {:induction false} FlattenNests(f: Frame, d: int)
    requires f.AtDepth(d)
    ensures Nests(f.Flatten(), d)
  {
    match f
    case Last(_) =>
    case Op(l, rest) =>
      FlattenNests(rest, d);
      NestsCons(l, rest.Flatten(), d);
    case Call(l, callee, rest) =>
      FlattenNests(callee, d + 1);
      FlattenNests(rest, d);
      NestsConsCall(l, callee.Flatten(), rest.Flatten(), d);
  }

  /** A frame's entries followed by entries of a shallower frame determine the frame. */
  lemma {:induction false} FlattenInjective(f: Frame, g: Frame, d: int, a: seq<StructLog>, b: seq<StructLog>)
    requires f.AtDepth(d) && g.AtDepth(d)
    requires a != [] ==> a[0].depth < d
    requires b != [] ==> b[0].depth < d
    requires f.Flatten() + a == g.Flatten() + b
    ensures f == g && a == b
    decreases f
  {
    FrameTailIs(f, a);
    FrameTailIs(g, b);
    if !f.Last? {
      FrameTailHead(f, a);
    }
    if !g.Last? {
      FrameTailHead(g, b);
    }
    assert (f.Flatten() + a)[0] == f.log && (g.Flatten() + b)[0] == g.log;
    assert FrameTail(f, a) == FrameTail(g, b);
    match f
    case Last(_) =>
    case Op(_, rest) =>
      if g.Op? {
        FlattenInjective(rest, g.rest, d, a, b);
      }
    case Call(_, callee, rest) =>
      if g.Call? {
        FlattenInjective(callee, g.callee, d + 1, rest.Flatten() + a, g.rest.Flatten() + b);
        FlattenInjective(rest, g.rest, d, a, b);
      }
  }

  /** `logs` is the flattening of the frame f at depth d. */
  predicate IsTreeOf(logs: seq<StructLog>, d: int, f: Frame) { f.AtDepth(d) && f.Flatten() == logs }

  lemma ParseIsTree(logs: seq<StructLog>, d: int)
    requires Nests(logs, d)
    ensures IsTreeOf(logs, d, Parse(logs, d))
  {
  }

  lemma TreeIsParse(logs: seq<StructLog>, d: int, f: Frame)
    requires IsTreeOf(logs, d, f)
    ensures Nests(logs, d) && f == Parse(logs, d)
  {
    FlattenNests(f, d);
    FlattenInjective(f, Parse(logs, d), d, [], []);
  }

  /** Flat logs that nest and call trees are the same thing: each such log is the
      flattening of exactly one tree, the one Parse finds. */
  lemma NestsIffTree(logs: seq<StructLog>, d: int)
    ensures Nests(logs, d) <==> exists f: Frame :: IsTreeOf(logs, d, f)
  {
    if Nests(logs, d) {
      ParseIsTree(logs, d);
    } else if f: Frame :| IsTreeOf(logs, d, f) {
      TreeIsParse(logs, d, f);
    }
  }

  lemma TreeIsUnique(logs: seq<StructLog>, d: int, f: Frame, g: Frame)
    requires IsTreeOf(logs, d, f) && IsTreeOf(logs, d, g)
    ensures f == g
  {
    TreeIsParse(logs, d, f);
    TreeIsParse(logs, d, g);
  }
}
