/** Byte strings and the integer encodings used on both sides of the host<->MCU link:
    C `uint8_t` values, little- and big-endian integers (Python's `int.from_bytes` /
    `int.to_bytes`), and the decimal/hex renderings the firmware prints. */
module Bytes {

  /** A C `uint8_t` / Python byte. */
  type byte = x: int | 0 <= x < 256

  /** 256^k. */
  function Pow256(k: nat): (r: nat)
    ensures r > 0
  {
    if k == 0 then 1 else 256 * Pow256(k - 1)
  }

  /** `int.from_bytes(s, 'little', signed=False)`. */
  function LeValue(s: seq<byte>): nat
  {
    if s == [] then 0 else s[0] + 256 * LeValue(s[1..])
  }

  /** `int.from_bytes(s, 'big', signed=False)`. */
  function BeValue(s: seq<byte>): nat
  {
    if s == [] then 0 else 256 * BeValue(s[..|s| - 1]) + s[|s| - 1]
  }

  /** The k low-order bytes of n, least significant first: what
      `n.to_bytes(k, 'little')` produces when n fits, and what a C loop
      `buf[i] = (uint8_t)n; n >>= 8;` stores. */
  function LeBytes(n: nat, k: nat): (r: seq<byte>)
    ensures |r| == k
  {
    if k == 0 then [] else [n % 256] + LeBytes(n / 256, k - 1)
  }

  /** Uniqueness of Euclidean division. */
  lemma DivUnique(n: int, d: int, q: int, r: int)
    requires d > 0 && 0 <= r < d && n == d * q + r
    ensures n / d == q && n % d == r
  {
    var x := q - n / d;
    assert d * x == n % d - r;
    if x >= 1 {
      MulMonotone(d, 1, x);
    } else if x <= -1 {
      MulMonotone(d, 1, -x);
    }
  }

  lemma MulMonotone(d: int, a: int, b: int)
    requires d > 0 && a <= b
    ensures d * a <= d * b
  {
  }

  lemma DivDiv(n: nat, a: nat, b: nat)
    requires a > 0 && b > 0
    ensures n / a / b == n / (a * b)
  {
    var q, r := n / (a * b), n % (a * b);
    assert n == (a * b) * q + r;
    var r1, r2 := r / a, r % a;
    assert r == a * r1 + r2;
    assert r1 < b by {
      if r1 >= b {
        MulMonotone(a, b, r1);
      }
    }
    assert n == a * (b * q + r1) + r2;
    DivUnique(n, a, b * q + r1, r2);
    DivUnique(n / a, b, q, r1);
  }

  /** Shifting right by eight more bits divides by one more power of 256. */
  lemma ShiftByte(n: nat, i: nat)
    ensures n / Pow256(i) / 256 == n / Pow256(i + 1)
  {
    DivDiv(n, Pow256(i), 256);
  }

  /** Byte i of `LeBytes(n, k)` is byte i of n. */
  lemma {:induction false} LeBytesAt(n: nat, k: nat, i: nat)
    requires i < k
    ensures LeBytes(n, k)[i] == (n / Pow256(i)) % 256
  {
    if i > 0 {
      LeBytesAt(n / 256, k - 1, i - 1);
      DivDiv(n, 256, Pow256(i - 1));
    }
  }

  /** A k-byte little-endian string is below 256^k. */
  lemma {:induction false} LeValueBound(s: seq<byte>)
    ensures LeValue(s) < Pow256(|s|)
  {
    if s != [] {
      LeValueBound(s[1..]);
    }
  }

  /** Encoding then decoding a number that fits in k bytes gives it back. */
  lemma {:induction false} LeRoundTrip(n: nat, k: nat)
    requires n < Pow256(k)
    ensures LeValue(LeBytes(n, k)) == n
  {
    if k > 0 {
      assert n / 256 < Pow256(k - 1);
      LeRoundTrip(n / 256, k - 1);
      assert LeBytes(n, k)[1..] == LeBytes(n / 256, k - 1);
    }
  }

  /** Decoding then re-encoding with the same width gives the string back. */
  lemma {:induction false} LeBytesOfValue(s: seq<byte>)
    ensures LeBytes(LeValue(s), |s|) == s
  {
    if s != [] {
      LeBytesOfValue(s[1..]);
      var v := LeValue(s[1..]);
      DivUnique(s[0] + 256 * v, 256, v, s[0]);
    }
  }

  /** A two-byte little-endian value. */
  lemma LeValue2(s: seq<byte>)
    requires |s| == 2
    ensures LeValue(s) == s[0] as int + 256 * s[1] as int
  {
    assert s[1..][1..] == [];
    assert LeValue(s[1..]) == s[1] as int + 256 * LeValue([]);
  }

  /** A two-byte big-endian value. */
  lemma BeValue2(s: seq<byte>)
    requires |s| == 2
    ensures BeValue(s) == 256 * s[0] as int + s[1] as int
  {
    assert s[..1][..0] == [];
    assert BeValue(s[..1]) == 256 * BeValue([]) + s[0] as int;
  }

  /** Appending bytes to a little-endian string adds them above the old ones. */
  lemma {:induction false} LeValueAppend(s: seq<byte>, t: seq<byte>)
    ensures LeValue(s + t) == LeValue(s) + Pow256(|s|) * LeValue(t)
  {
    if s != [] {
      assert (s + t)[1..] == s[1..] + t;
      LeValueAppend(s[1..], t);
      var a, p, lt := LeValue(s[1..]), Pow256(|s| - 1), LeValue(t);
      assert LeValue(s + t) == s[0] as int + 256 * (a + p * lt);
      Regroup(a, p, lt);
    } else {
      assert s + t == t;
    }
  }

  lemma Regroup(a: int, p: int, lt: int)
    ensures 256 * (a + p * lt) == 256 * a + (256 * p) * lt
  {
  }

  /** Trailing zero bytes do not change a little-endian value. */
  lemma {:induction false} LeValueZeros(s: seq<byte>, k: nat)
    ensures LeValue(s + seq(k, _ => 0)) == LeValue(s)
  {
    LeValueAppend(s, seq(k, _ => 0));
    ZerosValue(k);
  }

  lemma {:induction false} ZerosValue(k: nat)
    ensures LeValue(seq(k, _ => 0)) == 0
  {
    if k > 0 {
      assert seq(k, _ => 0)[1..] == seq(k - 1, _ => 0);
      ZerosValue(k - 1);
    }
  }
}
