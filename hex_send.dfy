/** The compressed senders `send_{uint16,int16}_data_to_hex{,string}`: a
    separator followed by the 16-bit value as two raw bytes (high first) or
    as four lowercase hex digits. The same four senders appear in four
    firmware and template files; they are modelled once, as the bytes they
    print. */
module HexSend {
  import opened Bytes

  predicate IsInt16(v: int)
  {
    -32768 <= v < 32768
  }

  /** The 16 bits of an `int16_t` as an unsigned value (two's complement). */
  function Bits16(v: int): (r: nat)
    requires IsInt16(v)
    ensures r < 65536 && (r == v || r == v + 65536)
  {
    if v < 0 then v + 65536 else v
  }

  /** `send_uint16_data_to_hex(sep, data)`: `(data >> 8) & 0xFF`, then
      `data & 0xFF`. */
  function Uint16ToHex(sep: byte, data: nat): (r: seq<byte>)
    requires data < 65536
    ensures |r| == 3 && r[0] == sep
    ensures BeValue(r[1..]) == data
  {
    var r := [sep, (data / 256) % 256, data % 256];
    BeValue2(r[1..]);
    r
  }

  /** `send_int16_data_to_hex(sep, data)`: the arithmetic shift of a negative
      value keeps the two's-complement bits, so the pair is the split of the
      16-bit pattern. */
  function Int16ToHex(sep: byte, data: int): (r: seq<byte>)
    requires IsInt16(data)
    ensures |r| == 3 && r[0] == sep
    ensures BeValue(r[1..]) == Bits16(data)
    ensures r[1] >= 0x80 <==> data < 0
  {
    var r := [sep, (data / 256) % 256, data % 256];
    assert (data / 256) % 256 == Bits16(data) / 256 && data % 256 == Bits16(data) % 256 by {
      if data < 0 {
        DivUnique(data + 65536, 256, data / 256 + 256, data % 256);
      }
    }
    BeValue2(r[1..]);
    r
  }

  /** The two-byte message decodes back to the signed value. */
  lemma Int16RoundTrip(sep: byte, data: int)
    requires IsInt16(data)
    ensures var r := Int16ToHex(sep, data);
            (if r[1] >= 0x80 then 256 * (r[1] as int) + r[2] - 65536 else 256 * (r[1] as int) + r[2]) == data
  {
    BeValue2(Int16ToHex(sep, data)[1..]);
  }

  // ------------------------------------------------------------------
  // `%04x`
  // ------------------------------------------------------------------

  function HexDigit(d: nat): (r: char)
    requires d < 16
    ensures IsLowerHex(r)
  {
    if d < 10 then ('0' as int + d) as char else ('a' as int + d - 10) as char
  }

  predicate IsLowerHex(c: char)
  {
    '0' <= c <= '9' || 'a' <= c <= 'f'
  }

  function HexValue(c: char): (r: nat)
    requires IsLowerHex(c)
    ensures r < 16
  {
    if c <= '9' then c as int - '0' as int else c as int - 'a' as int + 10
  }

  /** `printf("%c%04x", sep, data & 0xFFFF)` for a value that already fits in
      16 bits: the separator and four zero-padded digits, most significant
      first. */
  function HexString4(sep: char, v: nat): (r: string)
    requires v < 65536
    ensures |r| == 5 && r[0] == sep
    ensures forall i :: 1 <= i < 5 ==> IsLowerHex(r[i])
  {
    [sep, HexDigit(v / 4096), HexDigit((v / 256) % 16), HexDigit((v / 16) % 16), HexDigit(v % 16)]
  }

  /** The four digits read back as the value. */
  lemma HexString4Value(sep: char, v: nat)
    requires v < 65536
    ensures var r := HexString4(sep, v);
            4096 * HexValue(r[1]) + 256 * HexValue(r[2]) + 16 * HexValue(r[3]) + HexValue(r[4]) == v
  {
    var d0, d1, d2, d3 := v / 4096, (v / 256) % 16, (v / 16) % 16, v % 16;
    assert HexValue(HexDigit(d0)) == d0 && HexValue(HexDigit(d1)) == d1;
    assert HexValue(HexDigit(d2)) == d2 && HexValue(HexDigit(d3)) == d3;
    assert v == 4096 * d0 + 256 * d1 + 16 * d2 + d3 by {
      var q := v / 16;
      assert v == 16 * q + d3;
      assert q == 16 * (q / 16) + q % 16;
      assert q / 16 == v / 256;
      assert v / 256 == 16 * (v / 4096) + d1;
    }
  }

  /** `send_uint16_data_to_hexstring(sep, data)`. */
  function Uint16ToHexString(sep: char, data: nat): (r: string)
    requires data < 65536
    ensures |r| == 5 && r[0] == sep
  {
    HexString4(sep, data)
  }

  /** `send_int16_data_to_hexstring(sep, data)`: `data & 0xFFFF` is the
      two's-complement pattern. */
  function Int16ToHexString(sep: char, data: int): (r: string)
    requires IsInt16(data)
    ensures |r| == 5 && r[0] == sep
  {
    HexString4(sep, Bits16(data))
  }

  /** The two forms carry the same 16 bits: the digit pairs of the string are
      the two bytes of the raw message. */
  lemma HexFormsAgree(data: int, sepByte: byte)
    requires IsInt16(data)
    ensures var s := Int16ToHexString(sepByte as char, data);
            var r := Int16ToHex(sepByte, data);
            16 * HexValue(s[1]) + HexValue(s[2]) == r[1] && 16 * HexValue(s[3]) + HexValue(s[4]) == r[2]
  {
    var v := Bits16(data);
    var r := Int16ToHex(sepByte, data);
    BeValue2(r[1..]);
    var d0, d1, d2, d3 := v / 4096, (v / 256) % 16, (v / 16) % 16, v % 16;
    assert HexValue(HexDigit(d0)) == d0 && HexValue(HexDigit(d1)) == d1;
    assert HexValue(HexDigit(d2)) == d2 && HexValue(HexDigit(d3)) == d3;
    assert r[1] == v / 256 && r[2] == v % 256;
    assert v / 256 == 16 * d0 + d1 by {
      assert v / 256 / 16 == v / 4096;
    }
    assert v % 256 == 16 * d2 + d3 by {
      assert v == 256 * (v / 256) + v % 256;
      assert v == 16 * (v / 16) + d3;
      assert v / 16 == 16 * (v / 256) + d2 by {
        assert (v / 16) / 16 == v / 256;
      }
    }
  }
}
