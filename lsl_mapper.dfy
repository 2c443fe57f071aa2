/** The LSL frame builder of the firmware library: a start byte, a command,
    an 8-bit length, the data bytes, and an additive checksum. The start byte
    `LSL_FRAME_START` is defined outside the shown files and is a parameter
    here; `lsl_init` and `lsl_do_transmission` are stdio calls. */
module LslMapper {
  import opened Bytes

  /** The arithmetic sum of the bytes. */
  function Sum(s: seq<byte>): nat
  {
    if |s| == 0 then 0 else Sum(s[..|s| - 1]) + s[|s| - 1]
  }

  /** The checksum byte: the sum's low eight bits. */
  function Checksum(s: seq<byte>): (r: byte)
    ensures (Sum(s) - r) % 256 == 0
  {
    Sum(s) % 256
  }

  /** Adding a byte to a sum kept modulo 2^16 tracks the full sum modulo 2^16. */
  lemma AddMod(a: nat, x: nat, m: nat)
    requires m > 0
    ensures (a % m + x) % m == (a + x) % m
  {
    DivUnique(a % m + x, m, (a % m + x) / m, (a % m + x) % m);
    DivUnique(a + x, m, a / m + (a % m + x) / m, (a % m + x) % m);
  }

  /** The low eight bits of the low sixteen bits. */
  lemma ModMod(a: nat)
    ensures (a % 65536) % 256 == a % 256
  {
    DivUnique(a, 256, 256 * (a / 65536) + (a % 65536) / 256, (a % 65536) % 256);
  }

  /** `calc_checksum(frame, len)`: sums `frame[0..len)` in a `uint16_t`,
      stores the low byte at `frame[len]` and returns it. */
  method CalcChecksum(frame: array<byte>, len: nat) returns (c: byte)
    requires len < frame.Length && len < 65536
    modifies frame
    ensures c == Checksum(old(frame[..len]))
    ensures frame[..] == old(frame[..])[len := c]
  {
    var sum: nat := 0;
    var idx := 0;
    while idx < len
      invariant 0 <= idx <= len
      invariant sum == Sum(frame[..idx]) % 65536
      invariant frame[..] == old(frame[..])
    {
      assert frame[..idx + 1][..idx] == frame[..idx];
      AddMod(Sum(frame[..idx]), frame[idx], 65536);
      sum := (sum + frame[idx]) % 65536;
      idx := idx + 1;
    }
    ModMod(Sum(frame[..len]));
    c := sum % 256;
    frame[len] := c;
  }

  /** The header and the data, before the checksum: the start byte, the
      command, the length truncated to `uint8_t`, the data. */
  function Body(start: byte, cmd: byte, data: seq<byte>): (r: seq<byte>)
    ensures |r| == |data| + 3 && r[0] == start && r[1] == cmd && r[2] == |data| % 256
    ensures r[3..] == data
  {
    [start, cmd, |data| % 256] + data
  }

  /** `lsl_build_frame(cmd, len_data, data, frame)`: writes the header and
      copies the data, then checksums the first `len_data + 3` bytes; that
      count is a `uint16_t` parameter, so it wraps for the three largest
      lengths. Always returns true. */
  method LslBuildFrame(start: byte, cmd: byte, data: seq<byte>, frame: array<byte>) returns (ok: bool)
    requires |data| < 65536 && frame.Length >= |data| + 4
    modifies frame
    ensures ok
    ensures var n := (|data| + 3) % 65536;
            var w := Body(start, cmd, data) + old(frame[|data| + 3..]);
            frame[..] == w[n := Checksum(w[..n])]
  {
    ghost var rest := frame[|data| + 3..];
    frame[0] := start;
    frame[1] := cmd;
    frame[2] := |data| % 256;
    var idx := 0;
    while idx < |data|
      invariant 0 <= idx <= |data|
      invariant frame[..3 + idx] == Body(start, cmd, data)[..3 + idx]
      invariant frame[|data| + 3..] == rest
    {
      frame[idx + 3] := data[idx];
      idx := idx + 1;
    }
    assert frame[..] == Body(start, cmd, data) + rest by {
      assert frame[..] == frame[..|data| + 3] + frame[|data| + 3..];
    }
    var _ := CalcChecksum(frame, (|data| + 3) % 65536);
    ok := true;
  }

  /** The complete frame when the count does not wrap. */
  function LslFrame(start: byte, cmd: byte, data: seq<byte>): (r: seq<byte>)
    ensures |r| == |data| + 4
  {
    Body(start, cmd, data) + [Checksum(Body(start, cmd, data))]
  }

  /** Below the wrap the built frame is the header, the data and the checksum
      of both, and the bytes after it are untouched. */
  lemma BuiltFrame(start: byte, cmd: byte, data: seq<byte>, old_: seq<byte>, n: nat)
    requires |data| + 3 < 65536 && |old_| >= |data| + 4 && n == |data| + 3
    ensures var w := Body(start, cmd, data) + old_[|data| + 3..];
            w[n := Checksum(w[..n])] == LslFrame(start, cmd, data) + old_[|data| + 4..]
  {
    var w := Body(start, cmd, data) + old_[|data| + 3..];
    assert w[..n] == Body(start, cmd, data);
    assert old_[|data| + 3..] == [old_[|data| + 3]] + old_[|data| + 4..];
  }

  /** A frame is accepted when its last byte is the checksum of the rest. */
  predicate Validates(frame: seq<byte>)
  {
    |frame| >= 1 && frame[|frame| - 1] == Checksum(frame[..|frame| - 1])
  }

  /** Every built frame validates, and its length byte is the data length
      modulo 256. */
  lemma BuiltFrameValidates(start: byte, cmd: byte, data: seq<byte>)
    ensures Validates(LslFrame(start, cmd, data))
    ensures LslFrame(start, cmd, data)[2] == |data| % 256
  {
    var f := LslFrame(start, cmd, data);
    assert f[..|f| - 1] == Body(start, cmd, data);
  }

  /** Replacing one byte changes the sum by the difference of the two bytes. */
  lemma {:induction false} SumUpdate(s: seq<byte>, i: nat, b: byte)
    requires i < |s|
    ensures Sum(s[i := b]) + s[i] == Sum(s) + b
    decreases |s|
  {
    var t := s[i := b];
    if i < |s| - 1 {
      assert t[..|t| - 1] == s[..|s| - 1][i := b];
      SumUpdate(s[..|s| - 1], i, b);
    } else {
      assert t[..|t| - 1] == s[..|s| - 1];
    }
  }

  /** A single corrupted byte is always detected: the checksum changes. */
  lemma SingleByteErrorDetected(s: seq<byte>, i: nat, b: byte)
    requires i < |s| && b != s[i]
    ensures Checksum(s[i := b]) != Checksum(s)
  {
    SumUpdate(s, i, b);
    var x, y := Sum(s[i := b]), Sum(s);
    assert x == 256 * (x / 256) + x % 256;
    assert y == 256 * (y / 256) + y % 256;
  }
}
