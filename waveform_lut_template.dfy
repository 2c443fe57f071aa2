/** The two waveform look-up-table readers that the code generator instantiates
    (`DEF_GET_LUT_VALUE_FULL` and `DEF_GET_LUT_VALUE_OPT`), the per-instance
    settings record they mutate, and the `get_waveform_lgth_*` helpers.

    The FULL reader walks a table holding one whole period. The OPT reader walks a
    quarter-wave table forwards and backwards, once added to and once subtracted
    from the offset, to produce a whole sine period. Both keep their place in
    `state` (C `uint8_t`) and `lut_position` (C `uint16_t`); the increments and
    decrements of `lut_position` wrap modulo 2^16 as in C. */
module WaveformLutTemplate {

  /** The mutable part of `WaveformSettings`: `state` and `lut_position`. */
  datatype Cursor = Cursor(state: int, pos: int)

  const U16: int := 65536

  // ------------------------------------------------------------------
  // FULL reader
  // ------------------------------------------------------------------

  /** Where the FULL reader goes after one call. */
  function FullNext(c: Cursor, len: int, skip: bool): Cursor
  {
    if c.pos == len - 1 && !skip then Cursor(0, 0)
    else if c.pos == len - 2 && skip then Cursor(0, 0)
    else Cursor(1, (c.pos + 1) % U16)
  }

  /** Number of FULL-reader calls per period, as `get_waveform_lgth_<id>` of a FULL
      instance reports it (a `uint16_t`). */
  function GetWaveformLgthFull(len: int, skip: bool): (r: int)
    ensures 0 <= r < U16
  {
    (if skip then len - 1 else len - 1 + 1) % U16
  }

  /** Position after k FULL calls. */
  function FullRun(c: Cursor, len: int, skip: bool, k: nat): Cursor
    decreases k
  {
    if k == 0 then c else FullRun(FullNext(c, len, skip), len, skip, k - 1)
  }

  /** The k values returned by k FULL calls starting at position `pos`. */
  function FullTrace(pos: int, len: int, skip: bool, offset: int, lut: seq<int>, k: nat): seq<int>
    requires 0 <= pos <= (if skip then len - 2 else len - 1) && len <= |lut| && len < U16
    decreases k
  {
    if k == 0 then []
    else
      var next := FullNext(Cursor(1, pos), len, skip).pos;
      [offset + lut[pos]] + FullTrace(next, len, skip, offset, lut, k - 1)
  }

  /** The last position the FULL reader visits before it wraps. */
  function FullLast(len: int, skip: bool): int
  {
    if skip then len - 2 else len - 1
  }

  /** With `skip_last_point` held constant, the position stays within the table
      (within all but its last entry when skipping). */
  lemma FullNextInBounds(pos: int, len: int, skip: bool)
    requires 0 <= pos <= FullLast(len, skip) && len < U16
    ensures 0 <= FullNext(Cursor(1, pos), len, skip).pos <= FullLast(len, skip)
    ensures FullNext(Cursor(1, pos), len, skip).pos
            == (if pos == FullLast(len, skip) then 0 else pos + 1)
  {
  }

  /** From position i, the FULL reader returns `offset + lut[i]`, `offset + lut[i+1]`, ...
      up to the last position, and then stands at position 0 in state 0. */
  lemma {:induction false} FullSweep(i: int, len: int, skip: bool, offset: int, lut: seq<int>)
    requires 0 <= i <= FullLast(len, skip) && len <= |lut| && len < U16
    ensures FullRun(Cursor(1, i), len, skip, FullLast(len, skip) + 1 - i) == Cursor(0, 0)
    ensures FullTrace(i, len, skip, offset, lut, FullLast(len, skip) + 1 - i)
            == seq(FullLast(len, skip) + 1 - i, j requires 0 <= j < FullLast(len, skip) + 1 - i => offset + lut[i + j])
    decreases FullLast(len, skip) - i
  {
    var n := FullLast(len, skip) + 1 - i;
    if i == FullLast(len, skip) {
      assert FullNext(Cursor(1, i), len, skip) == Cursor(0, 0);
    } else {
      FullSweep(i + 1, len, skip, offset, lut);
      assert FullNext(Cursor(1, i), len, skip) == Cursor(1, i + 1);
      var tail := FullTrace(i + 1, len, skip, offset, lut, n - 1);
      assert FullTrace(i, len, skip, offset, lut, n) == [offset + lut[i]] + tail;
    }
  }

  /** One FULL period from the reset state: the reader returns
      `offset + lut[0..P)` where P is the length `get_waveform_lgth_<id>` reports,
      and is back at the reset state. Requires a table of at least two entries
      when skipping (with one entry, `lut_length - 2` is never reached). */
  lemma FullPeriod(len: int, skip: bool, offset: int, lut: seq<int>)
    requires (if skip then 2 else 1) <= len <= |lut| && len < U16
    ensures GetWaveformLgthFull(len, skip) == FullLast(len, skip) + 1
    ensures FullRun(Cursor(0, 0), len, skip, GetWaveformLgthFull(len, skip)) == Cursor(0, 0)
    ensures FullTrace(0, len, skip, offset, lut, GetWaveformLgthFull(len, skip))
            == seq(GetWaveformLgthFull(len, skip), j requires 0 <= j < GetWaveformLgthFull(len, skip) => offset + lut[j])
  {
    FullSweep(0, len, skip, offset, lut);
    var p := GetWaveformLgthFull(len, skip);
    assert FullNext(Cursor(0, 0), len, skip) == FullNext(Cursor(1, 0), len, skip);
    if p > 1 {
      assert FullRun(Cursor(0, 0), len, skip, p) == FullRun(FullNext(Cursor(1, 0), len, skip), len, skip, p - 1);
    }
  }

  /** Switching `skip_last_point` from false to true while the reader stands on
      the last entry takes it past the table: neither reset branch fires. */
  lemma FullSkipSwitchOverruns(len: int)
    requires 2 <= len < U16
    ensures FullNext(Cursor(1, len - 1), len, true) == Cursor(1, len)
  {
  }

  // ------------------------------------------------------------------
  // OPT reader
  // ------------------------------------------------------------------

  /** Where the OPT reader goes after one call. */
  function OptNext(c: Cursor, len: int, skip: bool): Cursor
  {
    if c.state == 0 then
      var p := (c.pos + 1) % U16;
      Cursor(if p == len - 1 then 1 else 0, p)
    else if c.state == 1 then
      var p := (c.pos - 1) % U16;
      Cursor(if p == 0 then 2 else 1, p)
    else if c.state == 2 then
      var p := (c.pos + 1) % U16;
      Cursor(if p == len - 1 then 3 else 2, p)
    else if c.state == 3 then
      var p := (c.pos - 1) % U16;
      Cursor(if p == 0 then (if skip then 0 else 4) else 3, p)
    else
      Cursor(0, 0)
  }

  /** Whether a call in this state reads `lut[pos]`. */
  predicate OptReads(c: Cursor)
  {
    0 <= c.state <= 3
  }

  /** The value one OPT call returns. */
  function OptValue(c: Cursor, offset: int, lut: seq<int>): int
    requires OptReads(c) ==> 0 <= c.pos < |lut|
  {
    if c.state == 0 || c.state == 1 then offset + lut[c.pos]
    else if c.state == 2 || c.state == 3 then offset - lut[c.pos]
    else offset
  }

  /** Number of OPT-reader calls per period, as `get_waveform_lgth_<id>` of an OPT
      instance reports it (a `uint16_t`). */
  function GetWaveformLgthOpt(len: int, skip: bool): (r: int)
    ensures 0 <= r < U16
  {
    (if skip then 4 * len - 2 else 4 * len - 3) % U16
  }

  /** The states an OPT reader started in the reset state can be in, for a
      table of `len` >= 2 entries: rising through [0, len-2] in states 0 and 2,
      falling through [1, len-1] in states 1 and 3, and the zero point (state 4)
      at position 0. */
  predicate OptInv(c: Cursor, len: int)
  {
    && 0 <= c.state <= 4
    && (c.state == 0 || c.state == 2 ==> 0 <= c.pos <= len - 2)
    && (c.state == 1 || c.state == 3 ==> 1 <= c.pos <= len - 1)
    && (c.state == 4 ==> c.pos == 0)
  }

  /** The invariant holds in the reset state and every OPT call preserves it;
      in particular `lut_position` stays in [0, len-1] and `state` in 0..4. */
  lemma OptNextInv(c: Cursor, len: int, skip: bool)
    requires 2 <= len < U16 && OptInv(c, len)
    ensures OptInv(OptNext(c, len, skip), len)
    ensures 0 <= c.pos <= len - 1
  {
  }

  /** Any `state` outside 0..4 returns the offset and resets the reader. */
  lemma OptInvalidStateResets(c: Cursor, offset: int, lut: seq<int>, len: int, skip: bool)
    requires !(0 <= c.state <= 4)
    ensures OptNext(c, len, skip) == Cursor(0, 0)
    ensures OptValue(c, offset, lut) == offset
  {
  }

  /** Position after k OPT calls. */
  function OptRun(c: Cursor, len: int, skip: bool, k: nat): Cursor
    decreases k
  {
    if k == 0 then c else OptRun(OptNext(c, len, skip), len, skip, k - 1)
  }

  /** The k values returned by k OPT calls from a reachable state. */
  function OptTrace(c: Cursor, len: int, skip: bool, offset: int, lut: seq<int>, k: nat): seq<int>
    requires 2 <= len <= |lut| && len < U16 && OptInv(c, len)
    decreases k
  {
    if k == 0 then []
    else
      OptNextInv(c, len, skip);
      [OptValue(c, offset, lut)] + OptTrace(OptNext(c, len, skip), len, skip, offset, lut, k - 1)
  }

  lemma {:induction false} OptRunAdd(c: Cursor, len: int, skip: bool, a: nat, b: nat)
    ensures OptRun(c, len, skip, a + b) == OptRun(OptRun(c, len, skip, a), len, skip, b)
    decreases a
  {
    if a > 0 {
      OptRunAdd(OptNext(c, len, skip), len, skip, a - 1, b);
    }
  }

  lemma {:induction false} OptRunInv(c: Cursor, len: int, skip: bool, k: nat)
    requires 2 <= len < U16 && OptInv(c, len)
    ensures OptInv(OptRun(c, len, skip, k), len)
    decreases k
  {
    if k > 0 {
      OptNextInv(c, len, skip);
      OptRunInv(OptNext(c, len, skip), len, skip, k - 1);
    }
  }

  /** Running a + b calls returns the a values followed by the b values. */
  lemma {:induction false} OptTraceAdd(c: Cursor, len: int, skip: bool, offset: int, lut: seq<int>, a: nat, b: nat)
    requires 2 <= len <= |lut| && len < U16 && OptInv(c, len)
    ensures OptInv(OptRun(c, len, skip, a), len)
    ensures OptTrace(c, len, skip, offset, lut, a + b)
            == OptTrace(c, len, skip, offset, lut, a)
               + OptTrace(OptRun(c, len, skip, a), len, skip, offset, lut, b)
    decreases a
  {
    OptRunInv(c, len, skip, a);
    if a > 0 {
      OptNextInv(c, len, skip);
      var c' := OptNext(c, len, skip);
      OptTraceAdd(c', len, skip, offset, lut, a - 1, b);
      assert OptTrace(c, len, skip, offset, lut, a + b)
             == [OptValue(c, offset, lut)] + OptTrace(c', len, skip, offset, lut, a - 1 + b);
    }
  }

  /** `offset + sign*lut[i]`, `offset + sign*lut[i+1]`, ... (n values). */
  function Ascent(lut: seq<int>, i: int, n: nat, offset: int, sign: int): (r: seq<int>)
    requires 0 <= i && i + n <= |lut|
    ensures |r| == n
  {
    seq(n, j requires 0 <= j < n => offset + sign * lut[i + j])
  }

  /** `offset + sign*lut[i]`, `offset + sign*lut[i-1]`, ... (n values). */
  function Descent(lut: seq<int>, i: int, n: nat, offset: int, sign: int): (r: seq<int>)
    requires 0 <= i - n + 1 && i < |lut|
    ensures |r| == n
  {
    seq(n, j requires 0 <= j < n => offset + sign * lut[i - j])
  }

  /** Sign applied to the table in a state: + in states 0 and 1, - in 2 and 3. */
  function Sign(state: int): int
  {
    if state == 0 || state == 1 then 1 else -1
  }

  /** A rising quarter (state 0 or 2) from position i ends, after len-1-i calls,
      at the last entry in the following falling state. */
  lemma {:induction false} RisingQuarter(st: int, i: int, len: int, skip: bool, offset: int, lut: seq<int>)
    requires st == 0 || st == 2
    requires 2 <= len <= |lut| && len < U16 && 0 <= i <= len - 2
    ensures OptRun(Cursor(st, i), len, skip, len - 1 - i) == Cursor(st + 1, len - 1)
    ensures OptTrace(Cursor(st, i), len, skip, offset, lut, len - 1 - i)
            == Ascent(lut, i, len - 1 - i, offset, Sign(st))
    decreases len - i
  {
    var c := Cursor(st, i);
    var n := len - 1 - i;
    if i == len - 2 {
      assert OptNext(c, len, skip) == Cursor(st + 1, len - 1);
    } else {
      assert OptNext(c, len, skip) == Cursor(st, i + 1);
      RisingQuarter(st, i + 1, len, skip, offset, lut);
      assert OptTrace(c, len, skip, offset, lut, n)
             == [OptValue(c, offset, lut)] + OptTrace(Cursor(st, i + 1), len, skip, offset, lut, n - 1);
      assert OptValue(c, offset, lut) == offset + Sign(st) * lut[i];
      AscentCons(lut, i, n, offset, Sign(st));
    }
  }

  lemma AscentCons(lut: seq<int>, i: int, n: nat, offset: int, sign: int)
    requires 0 <= i && i + n <= |lut| && 1 <= n
    ensures Ascent(lut, i, n, offset, sign) == [offset + sign * lut[i]] + Ascent(lut, i + 1, n - 1, offset, sign)
  {
    var a := Ascent(lut, i, n, offset, sign);
    var b := [offset + sign * lut[i]] + Ascent(lut, i + 1, n - 1, offset, sign);
    forall j | 0 <= j < n
      ensures a[j] == b[j]
    {
      if j > 0 {
        assert b[j] == Ascent(lut, i + 1, n - 1, offset, sign)[j - 1];
      }
    }
  }

  lemma DescentCons(lut: seq<int>, i: int, n: nat, offset: int, sign: int)
    requires 0 <= i - n + 1 && i < |lut| && 1 <= n
    ensures Descent(lut, i, n, offset, sign) == [offset + sign * lut[i]] + Descent(lut, i - 1, n - 1, offset, sign)
  {
    var a := Descent(lut, i, n, offset, sign);
    var b := [offset + sign * lut[i]] + Descent(lut, i - 1, n - 1, offset, sign);
    forall j | 0 <= j < n
      ensures a[j] == b[j]
    {
      if j > 0 {
        assert b[j] == Descent(lut, i - 1, n - 1, offset, sign)[j - 1];
      }
    }
  }

  /** The state a falling quarter hands over to when it reaches position 0. */
  function AfterFall(st: int, skip: bool): int
  {
    if st == 1 then 2 else if skip then 0 else 4
  }

  /** A falling quarter (state 1 or 3) from position i ends, after i calls, at
      position 0 in the next state. */
  lemma {:induction false} FallingQuarter(st: int, i: int, len: int, skip: bool, offset: int, lut: seq<int>)
    requires st == 1 || st == 3
    requires 2 <= len <= |lut| && len < U16 && 1 <= i <= len - 1
    ensures OptRun(Cursor(st, i), len, skip, i) == Cursor(AfterFall(st, skip), 0)
    ensures OptTrace(Cursor(st, i), len, skip, offset, lut, i) == Descent(lut, i, i, offset, Sign(st))
    decreases i
  {
    var c := Cursor(st, i);
    if i == 1 {
      assert OptNext(c, len, skip) == Cursor(AfterFall(st, skip), 0);
    } else {
      assert OptNext(c, len, skip) == Cursor(st, i - 1);
      FallingQuarter(st, i - 1, len, skip, offset, lut);
      assert OptTrace(c, len, skip, offset, lut, i)
             == [OptValue(c, offset, lut)] + OptTrace(Cursor(st, i - 1), len, skip, offset, lut, i - 1);
      assert OptValue(c, offset, lut) == offset + Sign(st) * lut[i];
      DescentCons(lut, i, i, offset, Sign(st));
    }
  }

  /** Number of OPT calls the machine takes to return to the reset state. */
  function OptPeriod(len: int, skip: bool): int
  {
    if skip then 4 * (len - 1) else 4 * (len - 1) + 1
  }

  /** The whole-period sine an OPT instance should produce from a quarter-wave
      table: rise, fall, negative rise, negative fall, and (without skipping)
      one zero point. */
  function OptWave(lut: seq<int>, len: int, offset: int, skip: bool): (r: seq<int>)
    requires 2 <= len <= |lut|
    ensures |r| == OptPeriod(len, skip)
  {
    Ascent(lut, 0, len - 1, offset, 1) + Descent(lut, len - 1, len - 1, offset, 1)
    + Ascent(lut, 0, len - 1, offset, -1) + Descent(lut, len - 1, len - 1, offset, -1)
    + (if skip then [] else [offset])
  }

  /** Two runs glued: the run from c of a + b calls ends where the second run ends
      and returns the first run's values followed by the second's. */
  lemma OptChain(c: Cursor, m: Cursor, e: Cursor, len: int, skip: bool, offset: int, lut: seq<int>,
                 a: nat, b: nat, ta: seq<int>, tb: seq<int>)
    requires 2 <= len <= |lut| && len < U16 && OptInv(c, len) && OptInv(m, len)
    requires OptRun(c, len, skip, a) == m && OptRun(m, len, skip, b) == e
    requires OptTrace(c, len, skip, offset, lut, a) == ta && OptTrace(m, len, skip, offset, lut, b) == tb
    ensures OptRun(c, len, skip, a + b) == e
    ensures OptTrace(c, len, skip, offset, lut, a + b) == ta + tb
  {
    OptRunAdd(c, len, skip, a, b);
    OptTraceAdd(c, len, skip, offset, lut, a, b);
  }

  /** The first half period: rise then fall, ending at position 0 in state 2. */
  lemma OptPositiveHalf(len: int, skip: bool, offset: int, lut: seq<int>)
    requires 2 <= len <= |lut| && len < U16
    ensures OptRun(Cursor(0, 0), len, skip, 2 * (len - 1)) == Cursor(2, 0)
    ensures OptTrace(Cursor(0, 0), len, skip, offset, lut, 2 * (len - 1))
            == Ascent(lut, 0, len - 1, offset, 1) + Descent(lut, len - 1, len - 1, offset, 1)
  {
    var n := len - 1;
    RisingQuarter(0, 0, len, skip, offset, lut);
    FallingQuarter(1, n, len, skip, offset, lut);
    OptChain(Cursor(0, 0), Cursor(1, n), Cursor(2, 0), len, skip, offset, lut, n, n,
             Ascent(lut, 0, n, offset, 1), Descent(lut, n, n, offset, 1));
  }

  /** The second half period: negative rise then negative fall, ending at
      position 0 in state 0 (skipping) or 4. */
  lemma OptNegativeHalf(len: int, skip: bool, offset: int, lut: seq<int>)
    requires 2 <= len <= |lut| && len < U16
    ensures OptRun(Cursor(2, 0), len, skip, 2 * (len - 1)) == Cursor(if skip then 0 else 4, 0)
    ensures OptTrace(Cursor(2, 0), len, skip, offset, lut, 2 * (len - 1))
            == Ascent(lut, 0, len - 1, offset, -1) + Descent(lut, len - 1, len - 1, offset, -1)
  {
    var n := len - 1;
    RisingQuarter(2, 0, len, skip, offset, lut);
    FallingQuarter(3, n, len, skip, offset, lut);
    OptChain(Cursor(2, 0), Cursor(3, n), Cursor(if skip then 0 else 4, 0), len, skip, offset, lut, n, n,
             Ascent(lut, 0, n, offset, -1), Descent(lut, n, n, offset, -1));
  }

  /** One OPT period from the reset state: the reader returns `OptWave` and is back
      in the reset state after `OptPeriod` calls (4L-4 with skipping, 4L-3 without). */
  lemma OptCycle(len: int, skip: bool, offset: int, lut: seq<int>)
    requires 2 <= len <= |lut| && len < U16
    ensures OptRun(Cursor(0, 0), len, skip, OptPeriod(len, skip)) == Cursor(0, 0)
    ensures OptTrace(Cursor(0, 0), len, skip, offset, lut, OptPeriod(len, skip)) == OptWave(lut, len, offset, skip)
  {
    var n := len - 1;
    var c4 := Cursor(if skip then 0 else 4, 0);
    var pos := Ascent(lut, 0, n, offset, 1) + Descent(lut, n, n, offset, 1);
    var neg := Ascent(lut, 0, n, offset, -1) + Descent(lut, n, n, offset, -1);
    OptPositiveHalf(len, skip, offset, lut);
    OptNegativeHalf(len, skip, offset, lut);
    OptChain(Cursor(0, 0), Cursor(2, 0), c4, len, skip, offset, lut, 2 * n, 2 * n, pos, neg);
    assert OptWave(lut, len, offset, skip) == pos + neg + (if skip then [] else [offset]);
    if skip {
      assert pos + neg + [] == pos + neg;
    } else {
      assert OptNext(c4, len, skip) == Cursor(0, 0);
      assert OptTrace(c4, len, skip, offset, lut, 1) == [offset];
      OptChain(Cursor(0, 0), c4, Cursor(0, 0), len, skip, offset, lut, 4 * n, 1, pos + neg, [offset]);
    }
  }

  /** The second half of a period mirrors the first about the offset:
      call k + 2(L-1) returns 2*offset minus what call k returned. */
  lemma OptWaveMirror(lut: seq<int>, len: int, offset: int, skip: bool, k: int)
    requires 2 <= len <= |lut| && 0 <= k < 2 * (len - 1)
    ensures OptWave(lut, len, offset, skip)[k + 2 * (len - 1)] == 2 * offset - OptWave(lut, len, offset, skip)[k]
  {
    var n := len - 1;
    var a, d := Ascent(lut, 0, n, offset, 1), Descent(lut, n, n, offset, 1);
    var na, nd := Ascent(lut, 0, n, offset, -1), Descent(lut, n, n, offset, -1);
    var w := OptWave(lut, len, offset, skip);
    assert w == a + d + na + nd + (if skip then [] else [offset]);
    if k < n {
      assert w[k] == a[k] && w[k + 2 * n] == na[k];
    } else {
      assert w[k] == d[k - n] && w[k + 2 * n] == nd[k - n];
    }
  }

  /** A table of values in [0, m] produces a wave within m of the offset. */
  lemma OptWaveBounds(lut: seq<int>, len: int, offset: int, skip: bool, m: int, k: int)
    requires 2 <= len <= |lut| && 0 <= k < OptPeriod(len, skip)
    requires forall j :: 0 <= j < len ==> 0 <= lut[j] <= m
    ensures offset - m <= OptWave(lut, len, offset, skip)[k] <= offset + m
  {
    var n := len - 1;
    var a, d := Ascent(lut, 0, n, offset, 1), Descent(lut, n, n, offset, 1);
    var na, nd := Ascent(lut, 0, n, offset, -1), Descent(lut, n, n, offset, -1);
    var w := OptWave(lut, len, offset, skip);
    assert w == a + d + na + nd + (if skip then [] else [offset]);
    if k < n {
      assert w[k] == a[k];
    } else if k < 2 * n {
      assert w[k] == d[k - n];
    } else if k < 3 * n {
      assert w[k] == na[k - 2 * n];
    } else if k < 4 * n {
      assert w[k] == nd[k - 3 * n];
    } else {
      assert w[k] == offset;
    }
  }

  /** Without skipping, `get_waveform_lgth_<id>` of an OPT instance is the period. */
  lemma OptLengthNoSkip(len: int)
    requires 1 <= len && 4 * len < U16
    ensures GetWaveformLgthOpt(len, false) == OptPeriod(len, false)
  {
  }

  /** With skipping, `get_waveform_lgth_<id>` of an OPT instance reports 4L-2,
      two more than the 4L-4 calls after which the machine is back at the reset state. */
  lemma OptLengthSkipDisagrees(len: int)
    requires 2 <= len && 4 * len < U16
    ensures GetWaveformLgthOpt(len, true) == OptPeriod(len, true) + 2
  {
  }

  /** The period length `get_waveform_lgth_<id>` should report for an OPT
      instance: one call fewer when the last (zero) point is skipped. */
  function GetWaveformLgthOptCorrected(len: int, skip: bool): (r: int)
    requires 2 <= len && 4 * len < U16
    ensures r == OptPeriod(len, skip)
    ensures !skip ==> r == GetWaveformLgthOpt(len, skip)
  {
    if skip then 4 * len - 4 else 4 * len - 3
  }

  /** With a one-entry table the reader never leaves state 0 and walks past the
      table: after k calls (k < 2^16) it stands at position k. */
  lemma {:induction false} OptSingleEntryRunsAway(skip: bool, k: nat)
    requires k < U16
    ensures OptRun(Cursor(0, 0), 1, skip, k) == Cursor(0, k)
  {
    if k > 0 {
      OptSingleEntryRunsAway(skip, k - 1);
      OptRunAdd(Cursor(0, 0), 1, skip, k - 1, 1);
      assert OptRun(Cursor(0, k - 1), 1, skip, 1) == OptNext(Cursor(0, k - 1), 1, skip);
    }
  }

  // ------------------------------------------------------------------
  // The per-instance settings record
  // ------------------------------------------------------------------

  /** `WaveformSettings`: one static instance per generated table. `lut_length`,
      `lut_offset` and the table pointer never change after initialisation; the
      readers update `state` and `lut_position`. */
  class WaveformSettings {
    var state: int
    var lutPosition: int
    const lutLength: int
    const lutOffset: int
    const lutData: seq<int>

    /** The C field widths. */
    ghost predicate Valid()
      reads this
    {
      0 <= state < 256 && 0 <= lutPosition < U16 && 0 <= lutLength < U16 && 0 <= lutOffset < U16
    }

    /** The static initialiser of `DEF_NEW_WAVEFORM_LUT_*_IMPL`: the length
        and the offset are stored in `uint16_t` fields, so they are kept
        modulo 2^16 (an unsigned 32- or 64-bit table's offset 2^31 or 2^63
        is stored as 0). */
    constructor (lgth: int, offset: int, data: seq<int>)
      ensures Valid()
      ensures state == 0 && lutPosition == 0
      ensures lutLength == lgth % U16 && lutOffset == offset % U16 && lutData == data
      ensures 0 <= lgth < U16 ==> lutLength == lgth
      ensures 0 <= offset < U16 ==> lutOffset == offset
    {
      state := 0;
      lutPosition := 0;
      lutLength := lgth % U16;
      lutOffset := offset % U16;
      lutData := data;
    }

    /** `read_waveform_value_runtime` of a FULL instance. */
    method ReadFull(skipLastPoint: bool) returns (data: int)
      requires Valid() && lutPosition < |lutData|
      modifies this
      ensures Valid()
      ensures data == lutOffset + lutData[old(lutPosition)]
      ensures Cursor(state, lutPosition) == FullNext(old(Cursor(state, lutPosition)), lutLength, skipLastPoint)
    {
      data := lutOffset + lutData[lutPosition];
      if lutPosition == lutLength - 1 && !skipLastPoint {
        lutPosition := 0;
        state := 0;
      } else if lutPosition == lutLength - 2 && skipLastPoint {
        lutPosition := 0;
        state := 0;
      } else {
        lutPosition := (lutPosition + 1) % U16;
        state := 1;
      }
    }

    /** `read_waveform_value_runtime` of an OPT instance. */
    method ReadOpt(skipLastPoint: bool) returns (data: int)
      requires Valid() && (0 <= state <= 3 ==> lutPosition < |lutData|)
      modifies this
      ensures Valid()
      ensures data == OptValue(old(Cursor(state, lutPosition)), lutOffset, lutData)
      ensures Cursor(state, lutPosition) == OptNext(old(Cursor(state, lutPosition)), lutLength, skipLastPoint)
    {
      data := 0;
      if state == 0 {
        data := lutOffset + lutData[lutPosition];
        lutPosition := (lutPosition + 1) % U16;
        if lutPosition == lutLength - 1 {
          state := 1;
        } else {
          state := 0;
        }
      } else if state == 1 {
        data := lutOffset + lutData[lutPosition];
        lutPosition := (lutPosition - 1) % U16;
        if lutPosition == 0 {
          state := 2;
        } else {
          state := 1;
        }
      } else if state == 2 {
        data := lutOffset - lutData[lutPosition];
        lutPosition := (lutPosition + 1) % U16;
        if lutPosition == lutLength - 1 {
          state := 3;
        } else {
          state := 2;
        }
      } else if state == 3 {
        data := lutOffset - lutData[lutPosition];
        lutPosition := (lutPosition - 1) % U16;
        if lutPosition == 0 {
          if skipLastPoint {
            state := 0;
          } else {
            state := 4;
          }
        } else {
          state := 3;
        }
      } else if state == 4 {
        data := lutOffset;
        lutPosition := 0;
        state := 0;
      } else {
        data := lutOffset;
        state := 0;
        lutPosition := 0;
      }
    }
  }
}
