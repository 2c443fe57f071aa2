/** Bit-level helpers for the peripheral drivers: C `uint16_t` values and
    single bits of a non-negative integer. */
module Bits {

  /** A C `uint16_t`. */
  type u16 = x: int | 0 <= x < 65536

  /** 2^n. */
  function Pow2(n: nat): (r: nat)
    ensures r > 0
  {
    if n == 0 then 1 else 2 * Pow2(n - 1)
  }

  /** Bit i of x is set: `(x >> i) & 1`, or `(1 << i) & x` being non-zero. */
  predicate Bit(x: nat, i: nat)
  {
    x / Pow2(i) % 2 == 1
  }

  /** The indices below n whose bit is set in x, in ascending order. */
  function SetBits(x: nat, n: nat): (r: seq<nat>)
    ensures forall j :: 0 <= j < |r| ==> r[j] < n && Bit(x, r[j])
    ensures forall i: nat :: i < n && Bit(x, i) ==> i in r
    ensures forall j, k :: 0 <= j < k < |r| ==> r[j] < r[k]
  {
    if n == 0 then [] else SetBits(x, n - 1) + (if Bit(x, n - 1) then [n - 1] else [])
  }
}
