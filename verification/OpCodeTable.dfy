/** The per-opcode table of a block: a map from opcode name to a count and a gas sum. */
module OpCodeTable {
  import opened Uint64

  datatype OpCodeStats = OpCodeStats(count: int, gas: u64)

  type Table = map<string, OpCodeStats>

  /** One contribution to the table: one more occurrence of `op`, and its gas. */
  datatype Event = Event(op: string, gas: u64)

  /** Reading a missing key of a Go map gives the zero value. */
  function Lookup(t: Table, op: string): OpCodeStats {
    if op in t then t[op] else OpCodeStats(0, 0)
  }

  function AddEvent(t: Table, e: Event): Table {
    t[e.op := OpCodeStats(Lookup(t, e.op).count + 1, Add64(Lookup(t, e.op).gas, e.gas))]
  }

  /** The table after the contributions `es`, in order. */
  function AddEvents(t: Table, es: seq<Event>): Table {
    if es == [] then t else AddEvent(AddEvents(t, es[..|es| - 1]), es[|es| - 1])
  }

  function CountOf(es: seq<Event>, op: string): nat {
    if es == [] then 0 else CountOf(es[..|es| - 1], op) + if es[|es| - 1].op == op then 1 else 0
  }

  function GasOf(es: seq<Event>, op: string): nat {
    if es == [] then 0 else GasOf(es[..|es| - 1], op) + if es[|es| - 1].op == op then es[|es| - 1].gas else 0
  }

  function EventGas(es: seq<Event>): nat {
    if es == [] then 0 else EventGas(es[..|es| - 1]) + es[|es| - 1].gas
  }

  lemma {:induction false} AddEventsConcat(t: Table, a: seq<Event>, b: seq<Event>)
    ensures AddEvents(t, a + b) == AddEvents(AddEvents(t, a), b)
  {
    if b == [] {
      assert a + b == a;
    } else {
      var n := |b| - 1;
      assert (a + b)[..|a + b| - 1] == a + b[..n];
      AddEventsConcat(t, a, b[..n]);
    }
  }

  /** Every bucket of the table is the sum of the contributions to that opcode. */
  lemma {:induction false} BucketIsSum(t: Table, es: seq<Event>, op: string)
    ensures Lookup(AddEvents(t, es), op).count == Lookup(t, op).count + CountOf(es, op)
    ensures Lookup(AddEvents(t, es), op).gas == Mod(Lookup(t, op).gas + GasOf(es, op))
    ensures op in AddEvents(t, es) <==> op in t || CountOf(es, op) > 0
  {
    if es != [] {
      var n := |es| - 1;
      BucketIsSum(t, es[..n], op);
      if es[n].op == op {
        ModAdd(Lookup(t, op).gas + GasOf(es[..n], op), es[n].gas);
      }
    }
  }

  lemma AddCommutes(g: u64, x: u64, y: u64)
    ensures Add64(Add64(g, x), y) == Add64(Add64(g, y), x)
  {
  }

  lemma AddEventCommutes(t: Table, d: Event, e: Event)
    ensures AddEvent(AddEvent(t, d), e) == AddEvent(AddEvent(t, e), d)
  {
    if d.op == e.op {
      AddCommutes(Lookup(t, d.op).gas, d.gas, e.gas);
    }
    var left, right := AddEvent(AddEvent(t, d), e), AddEvent(AddEvent(t, e), d);
    assert left.Keys == right.Keys;
    forall op | op in left
      ensures left[op] == right[op]
    {
    }
  }

  lemma {:induction false} MoveToEnd(t: Table, a: seq<Event>, e: Event, b: seq<Event>)
    ensures AddEvents(t, a + [e] + b) == AddEvents(t, a + b + [e])
  {
    if b == [] {
      assert a + [e] + b == a + b + [e];
    } else {
      var n := |b| - 1;
      var left, right := a + [e] + b, a + b[..n] + [e];
      assert left[..|left| - 1] == a + [e] + b[..n];
      assert right[..|right| - 1] == a + b[..n];
      assert (a + b + [e])[..|a + b|] == a + b;
      assert (a + b)[..|a + b| - 1] == a + b[..n];
      MoveToEnd(t, a, e, b[..n]);
      AddEventCommutes(AddEvents(t, a + b[..n]), e, b[n]);
    }
  }

  /** Taking the same element out of two lists with the same elements. */
  lemma WithoutOne<T>(rest: seq<T>, e: T, fs: seq<T>, i: nat)
    requires i < |fs| && fs[i] == e && multiset(rest + [e]) == multiset(fs)
    ensures multiset(rest) == multiset(fs[..i] + fs[i + 1..])
  {
    var a, b := fs[..i], fs[i + 1..];
    assert fs == a + ([e] + b);
    var left, right := multiset(rest), multiset(a + b);
    assert left + multiset{e} == right + multiset{e};
    assert left == left + multiset{e} - multiset{e} && right == right + multiset{e} - multiset{e};
  }

  /** The table does not depend on the order of the contributions. */
  lemma {:induction false} OrderIrrelevant(t: Table, es: seq<Event>, fs: seq<Event>)
    requires multiset(es) == multiset(fs)
    ensures AddEvents(t, es) == AddEvents(t, fs)
    decreases |es|
  {
    if es == [] {
      assert |fs| == |multiset(fs)| == |multiset(es)| == 0;
    } else {
      var n := |es| - 1;
      var e := es[n];
      assert es == es[..n] + [e];
      assert e in multiset(fs);
      var i :| 0 <= i < |fs| && fs[i] == e;
      var a, b := fs[..i], fs[i + 1..];
      assert fs == a + [e] + b;
      WithoutOne(es[..n], e, fs, i);
      OrderIrrelevant(t, es[..n], a + b);
      MoveToEnd(t, a, e, b);
      assert (a + b + [e])[..|a + b|] == a + b;
    }
  }

  // ---------- The whole table ----------

  function GasField(s: OpCodeStats): int { s.gas }

  function CountField(s: OpCodeStats): int { s.count }

  /** The sum of one field over all buckets. */
  ghost function Total(t: Table, field: OpCodeStats -> int): int {
    if t == map[] then 0
    else
      var op :| op in t;
      field(t[op]) + Total(t - {op}, field)
  }

  lemma {:induction false} TotalSplit(t: Table, op: string, field: OpCodeStats -> int)
    requires op in t
    ensures Total(t, field) == field(t[op]) + Total(t - {op}, field)
    decreases |t|
  {
    var first :| first in t && Total(t, field) == field(t[first]) + Total(t - {first}, field);
    if first != op {
      var u, w := t - {first}, t - {op};
      assert u.Keys == t.Keys - {first} && w.Keys == t.Keys - {op};
      TotalSplit(u, op, field);
      TotalSplit(w, first, field);
      assert u - {op} == w - {first};
    }
  }

  /** Replacing one bucket changes the total by the change of that bucket. */
  lemma ReplaceBucket(t: Table, op: string, s: OpCodeStats, field: OpCodeStats -> int)
    requires field(OpCodeStats(0, 0)) == 0
    ensures Total(t[op := s], field) == Total(t, field) - field(Lookup(t, op)) + field(s)
  {
    TotalSplit(t[op := s], op, field);
    assert t[op := s] - {op} == t - {op};
    if op in t {
      TotalSplit(t, op, field);
    } else {
      assert t - {op} == t;
    }
  }

  lemma AddEventTotal(t: Table, e: Event)
    ensures Mod(Total(AddEvent(t, e), GasField)) == Mod(Total(t, GasField) + e.gas)
    ensures Total(AddEvent(t, e), CountField) == Total(t, CountField) + 1
  {
    var before := Lookup(t, e.op);
    var after := OpCodeStats(before.count + 1, Add64(before.gas, e.gas));
    ReplaceBucket(t, e.op, after, GasField);
    ReplaceBucket(t, e.op, after, CountField);
    ModShift(Total(t, GasField) + e.gas, -1);
  }

  /** What the contributions add to the whole table: their gas, up to wrap-around, and
      one to the count for each. */
  lemma {:induction false} AddEventsTotal(t: Table, es: seq<Event>)
    ensures Mod(Total(AddEvents(t, es), GasField)) == Mod(Total(t, GasField) + EventGas(es))
    ensures Total(AddEvents(t, es), CountField) == Total(t, CountField) + |es|
  {
    if es != [] {
      var n := |es| - 1;
      AddEventsTotal(t, es[..n]);
      var mid := AddEvents(t, es[..n]);
      AddEventTotal(mid, es[n]);
      ModPlus(Total(mid, GasField), Total(t, GasField) + EventGas(es[..n]), es[n].gas);
    }
  }
}
