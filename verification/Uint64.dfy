/** Go's unsigned 64-bit integers: arithmetic wraps around at 2^64. */
module Uint64 {
  const U64: nat := 0x1_0000_0000_0000_0000

  type u64 = x: int | 0 <= x < U64

  function Add64(x: u64, y: u64): u64 {
    if x + y < U64 then x + y else x + y - U64
  }

  function Sub64(x: u64, y: u64): u64 {
    if y <= x then x - y else x - y + U64
  }

  /** The conversion int64(x): the upper half of the range becomes negative. */
  function ToInt64(x: u64): int {
    if x < U64 / 2 then x else x - U64
  }

  // ---------- Reduction modulo 2^64 ----------

  /** The unsigned 64-bit value an integer wraps around to. */
  function Mod(x: int): u64
    decreases if x < 0 then U64 - x else x
  {
    if x < 0 then Mod(x + U64) else if x >= U64 then Mod(x - U64) else x
  }

  lemma {:induction false} ModQuotient(x: int) returns (q: int)
    ensures x == Mod(x) + U64 * q
    decreases if x < 0 then U64 - x else x
  {
    if x < 0 {
      q := ModQuotient(x + U64);
      q := q - 1;
    } else if x >= U64 {
      q := ModQuotient(x - U64);
      q := q + 1;
    } else {
      q := 0;
    }
  }

  lemma ModIsRemainder(x: int)
    ensures Mod(x) == x % U64
  {
    var q := ModQuotient(x);
    assert x / U64 == q;
  }

  lemma ModStep(x: int)
    ensures Mod(x + U64) == Mod(x)
  {
  }

  lemma {:induction false} ModShift(x: int, k: int)
    ensures Mod(x + U64 * k) == Mod(x)
    decreases if k < 0 then -k else k
  {
    if k > 0 {
      ModStep(x + U64 * (k - 1));
      ModShift(x, k - 1);
    } else if k < 0 {
      ModStep(x + U64 * k);
      ModShift(x, k + 1);
    }
  }

  /** Wrapped arithmetic is integer arithmetic, reduced. */
  lemma ModAdd(x: int, y: int)
    ensures Add64(Mod(x), Mod(y)) == Mod(x + y)
  {
    var qx := ModQuotient(x);
    var qy := ModQuotient(y);
    ModShift(Mod(x) + Mod(y), qx + qy);
  }

  /** Adding an unsigned value to a wrapped sum. */
  lemma ModAddU(x: int, y: u64)
    ensures Add64(Mod(x), y) == Mod(x + y)
  {
    ModAdd(x, y);
  }

  lemma Sub64IsMod(x: u64, y: u64)
    ensures Sub64(x, y) == Mod(x - y)
  {
  }

  lemma ModReduce(x: int, y: int)
    ensures Mod(Mod(x) + y) == Mod(x + y)
  {
    var q := ModQuotient(x);
    ModShift(Mod(x) + y, q);
  }

  lemma ModPlus(x: int, y: int, z: int)
    requires Mod(x) == Mod(y)
    ensures Mod(x + z) == Mod(y + z)
  {
    ModReduce(x, z);
    ModReduce(y, z);
  }
}
