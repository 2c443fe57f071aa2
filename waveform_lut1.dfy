/** The one generated waveform instance the firmware links: an OPT (quarter-wave)
    table with id 1, read once per DAQ timer tick with `skip_last_point` set. */
module WaveformLut1 {
  import opened WaveformLutTemplate

  /** The instance as written: seven entries declared, offset 0, six values listed. */
  const Lut1Length: int := 7
  const Lut1Offset: int := 0
  const Lut1Values: seq<int> := [2120, 4095, 5792, 7094, 7912, 8192]

  /** The quarter sine the values sample (8192 * sin(15k degrees), k = 0..6)
      with its leading zero: seven values for the seven declared entries. */
  const Lut1ValuesCorrected: seq<int> := [0, 2120, 4095, 5792, 7094, 7912, 8192]

  /** As written, the sixth call from the reset state leaves the reader in
      state 1 at position 6, so the seventh call reads `lut[6]`, past the
      six listed values. */
  lemma Lut1ReadsPastTable()
    ensures OptRun(Cursor(0, 0), Lut1Length, true, 6) == Cursor(1, 6)
    ensures OptReads(Cursor(1, 6)) && 6 >= |Lut1Values|
  {
    var c := Cursor(0, 0);
    assert OptRun(Cursor(0, 5), Lut1Length, true, 1) == Cursor(1, 6);
    assert OptRun(Cursor(0, 4), Lut1Length, true, 2) == Cursor(1, 6);
    assert OptRun(Cursor(0, 3), Lut1Length, true, 3) == Cursor(1, 6);
    assert OptRun(Cursor(0, 2), Lut1Length, true, 4) == Cursor(1, 6);
    assert OptRun(Cursor(0, 1), Lut1Length, true, 5) == Cursor(1, 6);
  }

  /** With the corrected table every call from the reset state reads inside the
      table (position at most 6). */
  lemma Lut1CorrectedInBounds(k: nat)
    ensures OptInv(OptRun(Cursor(0, 0), Lut1Length, true, k), Lut1Length)
    ensures OptRun(Cursor(0, 0), Lut1Length, true, k).pos < |Lut1ValuesCorrected|
  {
    OptRunInv(Cursor(0, 0), Lut1Length, true, k);
    OptNextInv(OptRun(Cursor(0, 0), Lut1Length, true, k), Lut1Length, true);
  }

  /** With the corrected table one period is 24 calls, after which the reader is
      back in the reset state having returned the whole-period wave. */
  lemma Lut1CorrectedCycle()
    ensures OptPeriod(Lut1Length, true) == 24
    ensures OptRun(Cursor(0, 0), Lut1Length, true, 24) == Cursor(0, 0)
    ensures OptTrace(Cursor(0, 0), Lut1Length, true, Lut1Offset, Lut1ValuesCorrected, 24)
            == OptWave(Lut1ValuesCorrected, Lut1Length, Lut1Offset, true)
  {
    OptCycle(Lut1Length, true, Lut1Offset, Lut1ValuesCorrected);
  }

  /** The corrected wave runs from 0 up to 8192 (call 6), down through 0 to -8192
      (call 18) and back, and every value fits the instance's `int16_t` output. */
  lemma Lut1CorrectedRange(k: nat)
    requires k < 24
    ensures -8192 <= OptWave(Lut1ValuesCorrected, Lut1Length, Lut1Offset, true)[k] <= 8192
    ensures OptWave(Lut1ValuesCorrected, Lut1Length, Lut1Offset, true)[6] == 8192
    ensures OptWave(Lut1ValuesCorrected, Lut1Length, Lut1Offset, true)[18] == -8192
  {
    var lut := Lut1ValuesCorrected;
    assert forall j :: 0 <= j < 7 ==> 0 <= lut[j] <= 8192;
    OptWaveBounds(lut, Lut1Length, Lut1Offset, true, 8192, k);
    var w := OptWave(lut, Lut1Length, Lut1Offset, true);
    var a, d := Ascent(lut, 0, 6, 0, 1), Descent(lut, 6, 6, 0, 1);
    var na, nd := Ascent(lut, 0, 6, 0, -1), Descent(lut, 6, 6, 0, -1);
    assert w == a + d + na + nd + [];
    assert w[6] == d[0];
    assert w[18] == nd[0];
  }
}
