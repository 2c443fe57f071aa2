/** The byte-level half of the host's serial interface (`InterfaceSerial`):
    command framing, the string chunking used by the echo command and its
    inverse, and the choice of the serial port. Opening, reading and writing
    the port are not modelled; replies are inputs. */
module Interface {
  import opened Wrappers
  import opened Bytes

  /** The two byte counts fixed when the interface is built. */
  datatype InterfaceSerial = InterfaceSerial(bytesHead: nat, bytesData: nat)

  /** `total_num_bytes`. */
  function TotalNumBytes(i: InterfaceSerial): nat
  {
    i.bytesData + i.bytesHead
  }

  /** `num_bytes`. */
  function NumBytes(i: InterfaceSerial): nat
  {
    i.bytesData
  }

  /** `int.to_bytes(k, 'little')`: OverflowError for a negative value or one
      that needs more than k bytes. */
  function ToBytesLittle(n: int, k: nat): (r: Result<seq<byte>>)
    ensures r.Ok? <==> 0 <= n < Pow256(k)
    ensures r.Err? ==> r.error == OverflowError
    ensures r.Ok? ==> |r.value| == k && LeValue(r.value) == n
  {
    if 0 <= n < Pow256(k) then
      LeRoundTrip(n, k);
      Ok(LeBytes(n, k))
    else Err(OverflowError)
  }

  /** `convert(head, data)`: the data bytes, little-endian, then the head bytes. */
  function Convert(i: InterfaceSerial, head: int, data: int): (r: Result<seq<byte>>)
    ensures r.Ok? <==> 0 <= data < Pow256(i.bytesData) && 0 <= head < Pow256(i.bytesHead)
    ensures r.Err? ==> r.error == OverflowError
    ensures r.Ok? ==> |r.value| == TotalNumBytes(i)
    ensures r.Ok? ==> LeValue(r.value[..i.bytesData]) == data && LeValue(r.value[i.bytesData..]) == head
  {
    match ToBytesLittle(data, i.bytesData)
    case Err(e) => Err(e)
    case Ok(d) =>
      match ToBytesLittle(head, i.bytesHead)
      case Err(e) => Err(e)
      case Ok(h) =>
        var r := d + h;
        assert r[..i.bytesData] == d && r[i.bytesData..] == h;
        assert |r| == TotalNumBytes(i);
        Ok(r)
  }

  /** With one head byte and two data bytes the frame is `[lo, hi, head]`. */
  lemma ConvertThreeBytes(head: int, data: int)
    requires 0 <= head < 256 && 0 <= data < 65536
    ensures Convert(InterfaceSerial(1, 2), head, data) == Ok([data % 256, data / 256, head])
  {
    LeBytesAt(data, 2, 0);
    LeBytesAt(data, 2, 1);
    LeBytesAt(head, 1, 0);
    var r := LeBytes(data, 2) + LeBytes(head, 1);
    assert r == [data % 256, data / 256, head];
  }

  // ------------------------------------------------------------------
  // UTF-8
  // ------------------------------------------------------------------

  /** Continuation byte carrying the six bits `v`. */
  function Cont(v: int): byte
    requires 0 <= v < 64
  {
    0x80 + v
  }

  /** The UTF-8 encoding of one character (`str.encode('utf-8')`). */
  function Utf8(c: char): (r: seq<byte>)
    ensures 1 <= |r| <= 4
    ensures |r| == 1 <==> (c as int) < 0x80
  {
    var n := c as int;
    if n < 0x80 then [n]
    else if n < 0x800 then [0xC0 + n / 64, Cont(n % 64)]
    else if n < 0x10000 then [0xE0 + n / 4096, Cont((n / 64) % 64), Cont(n % 64)]
    else [0xF0 + n / 262144, Cont((n / 4096) % 64), Cont((n / 64) % 64), Cont(n % 64)]
  }

  function Encode(s: string): (r: seq<byte>)
    ensures |r| >= |s|
    decreases |s|
  {
    if |s| == 0 then [] else Utf8(s[0]) + Encode(s[1..])
  }

  predicate IsCont(b: byte)
  {
    0x80 <= b < 0xC0
  }

  /** The first character of a strict UTF-8 byte string and its length in
      bytes; None for a malformed, overlong, surrogate or truncated sequence. */
  function DecodeOne(b: seq<byte>): (r: Option<(char, nat)>)
    requires |b| > 0
    ensures r.Some? ==> 1 <= r.value.1 <= |b|
  {
    var b0 := b[0] as int;
    if b0 < 0x80 then Some((b0 as char, 1))
    else if 0xC2 <= b0 < 0xE0 && |b| >= 2 && IsCont(b[1]) then
      Some((((b0 - 0xC0) * 64 + (b[1] as int - 0x80)) as char, 2))
    else if 0xE0 <= b0 < 0xF0 && |b| >= 3 && IsCont(b[1]) && IsCont(b[2]) then
      var v := (b0 - 0xE0) * 4096 + (b[1] as int - 0x80) * 64 + (b[2] as int - 0x80);
      if 0x800 <= v < 0xD800 || 0xE000 <= v then Some((v as char, 3)) else None
    else if 0xF0 <= b0 < 0xF5 && |b| >= 4 && IsCont(b[1]) && IsCont(b[2]) && IsCont(b[3]) then
      var v := (b0 - 0xF0) * 262144 + (b[1] as int - 0x80) * 4096 + (b[2] as int - 0x80) * 64 + (b[3] as int - 0x80);
      if 0x10000 <= v <= 0x10FFFF then Some((v as char, 4)) else None
    else None
  }

  /** `bytes.decode('utf8')`; a malformed input raises UnicodeDecodeError, a
      ValueError. */
  function Decode(b: seq<byte>): Result<string>
    decreases |b|
  {
    if |b| == 0 then Ok("")
    else
      match DecodeOne(b)
      case None => Err(ValueError)
      case Some((c, k)) =>
        match Decode(b[k..])
        case Err(e) => Err(e)
        case Ok(rest) => Ok([c] + rest)
  }

  /** Decoding reads back the first encoded character. */
  lemma DecodeOneUtf8(c: char, rest: seq<byte>)
    ensures DecodeOne(Utf8(c) + rest) == Some((c, |Utf8(c)|))
  {
    var n := c as int;
    var b := Utf8(c) + rest;
    if n < 0x80 {
    } else if n < 0x800 {
      assert (n / 64) * 64 + n % 64 == n;
    } else if n < 0x10000 {
      assert n == (n / 4096) * 4096 + ((n / 64) % 64) * 64 + n % 64 by {
        DivMod64(n);
      }
    } else {
      assert n == (n / 262144) * 262144 + ((n / 4096) % 64) * 4096 + ((n / 64) % 64) * 64 + n % 64 by {
        DivMod64(n);
        DivMod64(n / 64);
        assert n / 64 / 64 == n / 4096;
        assert n / 4096 / 64 == n / 262144;
      }
    }
  }

  lemma DivMod64(n: nat)
    ensures n == (n / 4096) * 4096 + ((n / 64) % 64) * 64 + n % 64
  {
    var q := n / 64;
    assert n == q * 64 + n % 64;
    assert q == (q / 64) * 64 + q % 64;
    assert q / 64 == n / 4096;
  }

  /** Decoding undoes encoding, for every string. */
  lemma {:induction false} DecodeEncode(s: string)
    ensures Decode(Encode(s)) == Ok(s)
    decreases |s|
  {
    if |s| > 0 {
      var b := Encode(s);
      DecodeOneUtf8(s[0], Encode(s[1..]));
      assert b[|Utf8(s[0])|..] == Encode(s[1..]);
      DecodeEncode(s[1..]);
      assert s == [s[0]] + s[1..];
    }
  }

  // ------------------------------------------------------------------
  // String chunking
  // ------------------------------------------------------------------

  /** Python `data[i:i + 2]`. */
  function Pair(s: string, i: nat): string
    requires i < |s|
  {
    if i + 2 <= |s| then s[i..i + 2] else s[i..]
  }

  /** The string after optional padding with one blank. */
  function Padded(data: string, doPadding: bool): (r: string)
    ensures |r| == |data| + (if doPadding then 1 else 0)
  {
    if doPadding then data + " " else data
  }

  /** `serialize_string(data, do_padding)`. */
  function SerializeString(data: string, doPadding: bool): (r: seq<nat>)
    ensures var d := Padded(data, doPadding);
            |r| == (|d| + 1) / 2
            && forall k :: 0 <= k < |r| ==> r[k] == BeValue(Encode(Pair(d, 2 * k)))
  {
    var d := Padded(data, doPadding);
    seq((|d| + 1) / 2, k requires 0 <= k < (|d| + 1) / 2 => BeValue(Encode(Pair(d, 2 * k))))
  }

  /** `deserialize_string(data, do_padding)`: drop the last byte when padded
      (nothing to drop in an empty string), then decode. */
  function DeserializeString(data: seq<byte>, doPadding: bool): (r: Result<string>)
    ensures doPadding && |data| > 0 ==> r == Decode(data[..|data| - 1])
    ensures !doPadding || |data| == 0 ==> r == Decode(data)
  {
    var v := if !doPadding || |data| == 0 then data else data[..|data| - 1];
    Decode(v)
  }

  predicate IsAscii(s: string)
  {
    forall i :: 0 <= i < |s| ==> (s[i] as int) < 0x80
  }

  function AsciiBytes(s: string): (r: seq<byte>)
    requires IsAscii(s)
    ensures |r| == |s| && forall i :: 0 <= i < |s| ==> r[i] == s[i] as int
  {
    seq(|s|, i requires 0 <= i < |s| => s[i] as int)
  }

  lemma {:induction false} EncodeAscii(s: string)
    requires IsAscii(s)
    ensures Encode(s) == AsciiBytes(s)
    decreases |s|
  {
    if |s| > 0 {
      EncodeAscii(s[1..]);
    }
  }

  /** The two big-endian bytes a chunk below 65536 is written as. */
  function ChunkBytes(v: nat): seq<byte>
    requires v < 65536
  {
    [v / 256, v % 256]
  }

  /** Concatenation of the two-byte form of every chunk. */
  function ChunksBytes(cs: seq<nat>): seq<byte>
    requires forall k :: 0 <= k < |cs| ==> cs[k] < 65536
  {
    if |cs| == 0 then [] else ChunkBytes(cs[0]) + ChunksBytes(cs[1..])
  }

  /** Each chunk of an ASCII string is the two characters' codes, big-endian. */
  lemma AsciiChunk(d: string, k: nat)
    requires IsAscii(d) && 2 * k + 1 < |d|
    ensures BeValue(Encode(Pair(d, 2 * k))) == 256 * (d[2 * k] as int) + d[2 * k + 1] as int
  {
    var p := Pair(d, 2 * k);
    assert IsAscii(p);
    EncodeAscii(p);
    BeValue2(AsciiBytes(p));
  }

  /** Writing the chunks of an even-length ASCII string as two big-endian bytes
      each gives the string's bytes. */
  lemma {:induction false} ChunksOfAscii(d: string, cs: seq<nat>)
    requires IsAscii(d) && |d| % 2 == 0 && |cs| == |d| / 2
    requires forall k :: 0 <= k < |cs| ==> cs[k] == BeValue(Encode(Pair(d, 2 * k)))
    ensures forall k :: 0 <= k < |cs| ==> cs[k] < 65536
    ensures ChunksBytes(cs) == AsciiBytes(d)
    decreases |cs|
  {
    forall k | 0 <= k < |cs|
      ensures cs[k] == 256 * (d[2 * k] as int) + d[2 * k + 1] as int
    {
      AsciiChunk(d, k);
    }
    if |cs| > 0 {
      var d' := d[2..];
      forall k | 0 <= k < |cs| - 1
        ensures cs[1..][k] == BeValue(Encode(Pair(d', 2 * k)))
      {
        assert Pair(d', 2 * k) == Pair(d, 2 * (k + 1));
      }
      ChunksOfAscii(d', cs[1..]);
      ChunkOfPair(d[0] as int, d[1] as int);
      AsciiBytesCons(d);
    }
  }

  /** The chunk of two bytes is written back as those two bytes. */
  lemma ChunkOfPair(a: byte, b: byte)
    ensures 256 * a + b < 65536 && ChunkBytes(256 * a + b) == [a, b]
  {
    DivUnique(256 * a + b, 256, a, b);
  }

  /** The bytes of an ASCII string of two or more characters: its first two,
      then those of the rest. */
  lemma AsciiBytesCons(d: string)
    requires IsAscii(d) && |d| >= 2
    ensures IsAscii(d[2..]) && AsciiBytes(d) == [d[0] as int, d[1] as int] + AsciiBytes(d[2..])
  {
  }

  /** The echo round trip: pad iff the length is odd, chunk, write every chunk as
      two big-endian bytes, and deserialise with the same flag; an ASCII string
      comes back unchanged. */
  lemma StringRoundTrip(s: string)
    requires IsAscii(s)
    ensures var doPadding := |s| % 2 == 1;
            var cs := SerializeString(s, doPadding);
            (forall k :: 0 <= k < |cs| ==> cs[k] < 65536)
            && DeserializeString(ChunksBytes(cs), doPadding) == Ok(s)
  {
    var doPadding := |s| % 2 == 1;
    var d := Padded(s, doPadding);
    var cs := SerializeString(s, doPadding);
    assert IsAscii(d);
    ChunksOfAscii(d, cs);
    var b := ChunksBytes(cs);
    if doPadding {
      assert b[..|b| - 1] == AsciiBytes(s);
    }
    EncodeAscii(s);
    DecodeEncode(s);
  }

  // ------------------------------------------------------------------
  // Port selection
  // ------------------------------------------------------------------

  /** One entry of the port listing; non-USB ports have no VID/PID. */
  datatype PortInfo = PortInfo(device: string, vid: Option<int>, pid: Option<int>)

  predicate Matches(p: PortInfo, usbVid: int, usbPid: int)
  {
    p.vid == Some(usbVid) && p.pid == Some(usbPid)
  }

  /** `get_comport_name(usb_vid, usb_pid)` over the given port listing. */
  function GetComportName(ports: seq<PortInfo>, usbVid: int, usbPid: int): (r: Result<string>)
    ensures r.Ok? <==> exists i :: 0 <= i < |ports| && Matches(ports[i], usbVid, usbPid)
    ensures r.Err? ==> r.error == ConnectionError
    ensures r.Ok? ==> (exists i :: 0 <= i < |ports| && Matches(ports[i], usbVid, usbPid)
                                && r.value == ports[i].device
                                && forall j :: 0 <= j < i ==> !Matches(ports[j], usbVid, usbPid))
    decreases |ports|
  {
    if |ports| == 0 then Err(ConnectionError)
    else if Matches(ports[0], usbVid, usbPid) then Ok(ports[0].device)
    else
      var r := GetComportName(ports[1..], usbVid, usbPid);
      if r.Ok? then
        var i :| 0 <= i < |ports| - 1 && Matches(ports[1..][i], usbVid, usbPid)
                 && r.value == ports[1..][i].device
                 && forall j :: 0 <= j < i ==> !Matches(ports[1..][j], usbVid, usbPid);
        assert Matches(ports[i + 1], usbVid, usbPid);
        assert forall j :: 0 <= j < i + 1 ==> !Matches(ports[j], usbVid, usbPid) by {
          forall j | 0 <= j < i + 1 ensures !Matches(ports[j], usbVid, usbPid) {
            if j > 0 {
              assert ports[j] == ports[1..][j - 1];
            }
          }
        }
        r
      else
        assert forall i :: 1 <= i < |ports| ==> ports[i] == ports[1..][i - 1];
        r
  }
}
