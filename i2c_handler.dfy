/** The firmware's I2C helpers: the reserved-address test, the little-endian
    assembly of received bytes, the module set-up flag, and the write and
    read transactions. Bus traffic is recorded as calls; the results of
    reads are inputs. */
module I2cHandler {
  import opened Bytes
  import opened Wrappers

  /** `PICO_ERROR_GENERIC` of the pico SDK. */
  const PicoErrorGeneric: int := -1

  /** `addr & 0x78`: bits 3 to 6 of the address, in place. */
  function Mask78(addr: byte): (r: byte)
    ensures r % 8 == 0 && r <= 0x78
  {
    addr / 8 % 16 * 8
  }

  /** The arithmetic mask agrees with the bitwise one on every byte. */
  lemma Mask78IsAnd(addr: bv8)
    ensures Mask78(addr as int) == (addr & 0x78) as int
  {
  }

  /** `reserved_addr(addr)`: bits 6..3 all clear or all set. */
  predicate ReservedAddr(addr: byte)
  {
    Mask78(addr) == 0 || Mask78(addr) == 0x78
  }

  /** On seven-bit addresses these are the two groups 0000xxx and 1111xxx
      that the I2C-bus specification (section 3.1.12 of NXP UM10204)
      reserves. */
  lemma ReservedGroups(addr: byte)
    requires addr < 0x80
    ensures ReservedAddr(addr) <==> addr < 0x08 || 0x78 <= addr
  {
  }

  /** How many of the addresses below n are reserved. */
  function CountReserved(n: nat): nat
    requires n <= 256
  {
    if n == 0 then 0 else CountReserved(n - 1) + (if ReservedAddr(n - 1) then 1 else 0)
  }

  lemma {:induction false} CountReservedBelow(n: nat)
    requires n <= 0x80
    ensures CountReserved(n) == (if n <= 8 then n else 8) + (if n <= 0x78 then 0 else n - 0x78)
  {
    if n > 0 {
      CountReservedBelow(n - 1);
      ReservedGroups(n - 1);
    }
  }

  /** Sixteen of the 128 seven-bit addresses are reserved. */
  lemma SixteenReserved()
    ensures CountReserved(0x80) == 16
  {
    CountReservedBelow(0x80);
  }

  /** `translate_array_into_uint(buffer, len)`: each byte is shifted left by
      8 * idx in `int` and OR-ed into the result. Since the shifted bytes have
      no bit in common, OR-ing adds them. The shift is defined only while it
      stays inside a signed 32-bit `int`: for fewer than four bytes, or four
      with the top byte below 0x80; otherwise there is no result. */
  method TranslateArrayIntoUint(buffer: seq<byte>) returns (r: Option<nat>)
    ensures r.Some? <==> |buffer| < 4 || (|buffer| == 4 && buffer[3] < 0x80)
    ensures r.Some? ==> r.value == LeValue(buffer) && r.value < 0x8000_0000
  {
    var raw := 0;
    var idx := 0;
    while idx < |buffer|
      invariant 0 <= idx <= |buffer| && idx <= 4
      invariant raw == LeValue(buffer[..idx])
      invariant idx == 4 ==> buffer[3] < 0x80
    {
      if idx >= 4 || (idx == 3 && buffer[3] >= 0x80) {
        return None;
      }
      LeValueSnoc(buffer, idx);
      raw := raw + buffer[idx] * Pow256(idx);
      idx := idx + 1;
    }
    assert buffer[..idx] == buffer;
    IntRange(buffer);
    r := Some(raw);
  }

  /** One more byte adds its value at the next power of 256. */
  lemma LeValueSnoc(s: seq<byte>, i: nat)
    requires i < |s|
    ensures LeValue(s[..i + 1]) == LeValue(s[..i]) + s[i] * Pow256(i)
  {
    LeValueAppend(s[..i], [s[i]]);
    assert s[..i + 1] == s[..i] + [s[i]];
  }

  /** Up to three bytes, or four with the top byte below 0x80, stay below
      2^31. */
  lemma IntRange(s: seq<byte>)
    requires |s| < 4 || (|s| == 4 && s[3] < 0x80)
    ensures LeValue(s) < 0x8000_0000
  {
    LeValueBound(s);
    if |s| == 4 {
      LeValueSnoc(s, 3);
      assert s[..4] == s;
      LeValueBound(s[..3]);
      assert Pow256(3) == 0x100_0000;
      MulMonotone(0x100_0000, s[3], 0x7F);
    } else {
      assert Pow256(|s|) <= Pow256(3) == 0x100_0000;
    }
  }

  /** Calls into the pico SDK, in the order made. */
  datatype I2cCall =
    | Init(baudrate: nat)
    | SetFunctionI2c(pin: byte)
    | PullUp(pin: byte)
    | WriteBlocking(addr: byte, data: seq<byte>, noStop: bool)
    | ReadBlocking(addr: byte, len: nat)
    | SleepUs(us: nat)

  /** `i2c_device_handler_t` (the module instance is left out). */
  class I2cDevice {
    var pinSda: byte
    var pinScl: byte
    var fi2cKhz: nat
    var initDone: bool
    var calls: seq<I2cCall>

    /** `DEVICE_I2C_DEFAULT`: 100 kHz, not configured. */
    constructor (sda: byte, scl: byte)
      ensures pinSda == sda && pinScl == scl && fi2cKhz == 100 && !initDone && calls == []
    {
      pinSda, pinScl, fi2cKhz := sda, scl, 100;
      initDone := false;
      calls := [];
    }

    /** `configure_i2c_module`: the module at `fi2c_khz * 1000` Hz, both pins
        to I2C with pull-ups; the flag is set and returned. */
    method ConfigureI2cModule() returns (r: bool)
      modifies this
      ensures r && initDone
      ensures pinSda == old(pinSda) && pinScl == old(pinScl) && fi2cKhz == old(fi2cKhz)
      ensures calls == old(calls) + [Init(fi2cKhz * 1000), SetFunctionI2c(pinSda), SetFunctionI2c(pinScl), PullUp(pinSda), PullUp(pinScl)]
    {
      calls := calls + [Init(fi2cKhz * 1000), SetFunctionI2c(pinSda), SetFunctionI2c(pinScl), PullUp(pinSda), PullUp(pinScl)];
      initDone := true;
      r := initDone;
    }

    /** `construct_i2c_write_data`: one write with a stop, then 10 us. */
    method ConstructI2cWriteData(adr: byte, tx: seq<byte>) returns (r: bool)
      modifies this
      ensures r && initDone == old(initDone)
      ensures calls == old(calls) + [WriteBlocking(adr, tx, false), SleepUs(10)]
    {
      calls := calls + [WriteBlocking(adr, tx, false), SleepUs(10)];
      r := true;
    }

    /** `construct_i2c_read_data`: a write without stop, 10 us, then reads
        until one does not return `PICO_ERROR_GENERIC`, waiting 2 ms after
        each failed one. `results` are the successive read results; the
        source loops for ever unless one of them succeeds. Returns how many
        reads were made. */
    method ConstructI2cReadData(adr: byte, tx: seq<byte>, lenRx: nat, results: seq<int>) returns (r: bool, count: nat)
      requires exists i :: 0 <= i < |results| && results[i] != PicoErrorGeneric
      modifies this
      ensures r && initDone == old(initDone)
      ensures 1 <= count <= |results| && results[count - 1] != PicoErrorGeneric
      ensures forall i :: 0 <= i < count - 1 ==> results[i] == PicoErrorGeneric
      ensures calls == old(calls) + [WriteBlocking(adr, tx, true), SleepUs(10)] + RetryCalls(adr, lenRx, count - 1) + [ReadBlocking(adr, lenRx)]
    {
      calls := calls + [WriteBlocking(adr, tx, true), SleepUs(10)];
      ghost var start := calls;
      var k := 0;
      while results[k] == PicoErrorGeneric
        invariant 0 <= k < |results|
        invariant forall i :: 0 <= i < k ==> results[i] == PicoErrorGeneric
        invariant exists i :: k <= i < |results| && results[i] != PicoErrorGeneric
        invariant calls == start + RetryCalls(adr, lenRx, k)
        invariant initDone == old(initDone)
        decreases |results| - k
      {
        calls := calls + [ReadBlocking(adr, lenRx), SleepUs(2000)];
        k := k + 1;
      }
      calls := calls + [ReadBlocking(adr, lenRx)];
      count := k + 1;
      r := true;
    }
  }

  /** n failed reads, each followed by a 2 ms wait. */
  function RetryCalls(adr: byte, lenRx: nat, n: nat): (r: seq<I2cCall>)
    ensures |r| == 2 * n
    ensures forall i :: 0 <= i < n ==> r[2 * i] == ReadBlocking(adr, lenRx) && r[2 * i + 1] == SleepUs(2000)
  {
    if n == 0 then [] else RetryCalls(adr, lenRx, n - 1) + [ReadBlocking(adr, lenRx), SleepUs(2000)]
  }
}
