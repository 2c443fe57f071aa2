/** Driver of the SHT21 humidity and temperature sensor at I2C address 0x40:
    the user-register set-up, the start of a measurement, and the
    relative-humidity reading. What the sensor answers and what the bus calls
    return are inputs. */
module Sht21 {
  import opened Bytes
  import opened Bits
  import opened I2cHandler

  const Sht21Address: byte := 0x40
  const UserRegW: byte := 0xE6
  const UserRegR: byte := 0xE7
  const Resolution12_14: bv8 := 0x00
  const Resolution08_12: bv8 := 0x01
  const Resolution10_13: bv8 := 0x80
  const Resolution11_11: bv8 := 0x81
  const EnableHeaterMask: bv8 := 0x04
  const DisableOtpMask: bv8 := 0x02

  // --------------------------------------------------------- user register

  /** The user register `SHT21_init` writes back: the value read, with the
      heater bit, the OTP bit and the two resolution bits (0 and 7) set as
      asked; an unknown resolution code selects 12/14 bit. */
  function UserRegister(current: bv8, heaterEnabled: bool, otpDisabled: bool, resolution: bv8): (r: bv8)
  {
    var r1 := if heaterEnabled then current | EnableHeaterMask else current & !EnableHeaterMask;
    var r2 := if otpDisabled then r1 | DisableOtpMask else r1 & !DisableOtpMask;
    if resolution == Resolution12_14 then r2 & 0x7E
    else if resolution == Resolution08_12 then (r2 & 0x7F) | 0x01
    else if resolution == Resolution10_13 then (r2 & 0xFE) | 0x80
    else if resolution == Resolution11_11 then r2 | 0x81
    else r2 & 0x7E
  }

  /** Bit 2 is the heater, bit 1 the OTP reload, bits 0 and 7 the resolution
      code (or 12/14 bit for an unknown code), and bits 3 to 6 are those read
      from the sensor. */
  lemma UserRegisterFields(current: bv8, heaterEnabled: bool, otpDisabled: bool, resolution: bv8)
    ensures var r := UserRegister(current, heaterEnabled, otpDisabled, resolution);
            (r & 0x04 != 0 <==> heaterEnabled)
            && (r & 0x02 != 0 <==> otpDisabled)
            && r & 0x81 == (if resolution in {Resolution12_14, Resolution08_12, Resolution10_13, Resolution11_11}
                            then resolution else Resolution12_14)
            && r & 0x78 == current & 0x78
  {
  }

  // ------------------------------------------------------------- humidity

  /** `SHT21_read_data_no_hold`: the first two bytes big-endian, with the two
      status bits cleared by `& 0xFFFC`. */
  function RawData(b0: byte, b1: byte): (r: u16)
    ensures r % 4 == 0 && r <= b0 * 256 + b1 < r + 4
  {
    var v := b0 as int * 256 + b1 as int;
    v - v % 4
  }

  /** Clearing the status bits with `& 0xFFFC` keeps the first byte and
      clears the two low bits of the second. */
  lemma RawDataIsMask(b0: byte, b1: bv8)
    ensures RawData(b0, b1 as int) == b0 * 256 + ((b1 & 0xFC) as int)
  {
    ClearLowTwo(b1);
    var v := b0 as int * 256 + b1 as int;
    assert v == 4 * (b0 as int * 64) + b1 as int;
    assert v % 4 == b1 as int % 4;
  }

  lemma ClearLowTwo(x: bv8)
    ensures (x & 0xFC) as int == x as int - x as int % 4
  {
  }

  /** `SHT21_get_humidity_no_hold` as written: `125 * raw_data` and the
      division by `1 << 16` are integer operations, so the humidity is a
      whole number. */
  function HumidityAsWritten(raw: u16): (h: int)
  {
    -6 + (125 * raw) / 65536
  }

  /** Relative humidity in percent by the SHT21 data sheet's conversion,
      -6 + 125 * S / 2^16, without rounding. */
  function Humidity(raw: u16): (h: real)
  {
    -6.0 + 125.0 * (raw as real) / 65536.0
  }

  /** The written value is the exact one rounded down to a whole percent. */
  lemma HumidityTruncated(raw: u16)
    ensures HumidityAsWritten(raw) as real <= Humidity(raw) < HumidityAsWritten(raw) as real + 1.0
  {
    var q := (125 * raw) / 65536;
    assert 125 * raw == 65536 * q + (125 * raw) % 65536;
    assert (125 * raw) as real == 65536.0 * (q as real) + ((125 * raw) % 65536) as real;
  }

  /** Half-scale reading: 56.5 % by the conversion, 56 as written. */
  lemma HalfScaleLosesFraction()
    ensures HumidityAsWritten(0x8000) == 56 && Humidity(0x8000) == 56.5
  {
  }

  /** The written value is an integer between -6 and 118. */
  lemma HumidityAsWrittenRange(raw: u16)
    ensures -6 <= HumidityAsWritten(raw) <= 118
  {
    assert 125 * raw < 125 * 65536;
  }

  /** The conversion stays between -6 % and 119 % and grows with the raw
      value. */
  lemma HumidityRange(raw: u16, raw2: u16)
    ensures -6.0 <= Humidity(raw) < 119.0
    ensures raw <= raw2 ==> Humidity(raw) <= Humidity(raw2)
  {
  }

  // --------------------------------------------------------------- sensor

  /** The bus traffic of the driver, with the pico SDK calls of the I2C
      module. */
  class Sht21Sensor {
    var log: seq<I2cCall>

    constructor ()
      ensures log == []
    {
      log := [];
    }

    /** `SHT21_init`: read the user register, write it back changed; false
        exactly when the write returns `PICO_ERROR_GENERIC`. `current` is
        the register value the sensor answers with, `writeResult` what the
        write returns. */
    method Init(heaterEnabled: bool, otpDisabled: bool, resolution: byte, current: byte, writeResult: int) returns (r: bool)
      modifies this
      ensures r <==> writeResult != PicoErrorGeneric
      ensures log == old(log) + [WriteBlocking(Sht21Address, [UserRegR], true), ReadBlocking(Sht21Address, 1),
                                 WriteBlocking(Sht21Address, [UserRegW, UserRegister(current as bv8, heaterEnabled, otpDisabled, resolution as bv8) as int], false)]
    {
      log := log + [WriteBlocking(Sht21Address, [UserRegR], true), ReadBlocking(Sht21Address, 1)];
      var reg := current as bv8;
      if heaterEnabled {
        reg := reg | EnableHeaterMask;
      } else {
        reg := reg & !EnableHeaterMask;
      }
      if otpDisabled {
        reg := reg | DisableOtpMask;
      } else {
        reg := reg & !DisableOtpMask;
      }
      var res := resolution as bv8;
      if res == Resolution12_14 {
        reg := reg & 0x7E;
      } else if res == Resolution08_12 {
        reg := (reg & 0x7F) | 0x01;
      } else if res == Resolution10_13 {
        reg := (reg & 0xFE) | 0x80;
      } else if res == Resolution11_11 {
        reg := reg | 0x81;
      } else {
        reg := reg & 0x7E;
      }
      log := log + [WriteBlocking(Sht21Address, [UserRegW, reg as int], false)];
      r := writeResult != PicoErrorGeneric;
    }

    /** `SHT21_start_measurement_no_hold`: false exactly when the write
        returns a negative error code. */
    method StartMeasurementNoHold(command: byte, writeResult: int) returns (r: bool)
      modifies this
      ensures r <==> writeResult > -1
      ensures log == old(log) + [WriteBlocking(Sht21Address, [command], false)]
    {
      log := log + [WriteBlocking(Sht21Address, [command], false)];
      if writeResult <= -1 {
        r := false;
      } else {
        r := true;
      }
    }

    /** `SHT21_read_data_no_hold`: three-byte reads repeated while they fail.
        `results` are the successive read results (the source waits for
        ever unless one succeeds), `b0` and `b1` the first two bytes of the
        successful read. */
    method ReadDataNoHold(results: seq<int>, b0: byte, b1: byte) returns (raw: u16)
      requires exists i :: 0 <= i < |results| && results[i] != PicoErrorGeneric
      modifies this
      ensures raw == RawData(b0, b1)
      ensures exists k :: 0 <= k < |results| && results[k] != PicoErrorGeneric
                          && (forall i :: 0 <= i < k ==> results[i] == PicoErrorGeneric)
                          && log == old(log) + Reads(k + 1)
    {
      var k := 0;
      while results[k] == PicoErrorGeneric
        invariant 0 <= k < |results|
        invariant forall i :: 0 <= i < k ==> results[i] == PicoErrorGeneric
        invariant exists i :: k <= i < |results| && results[i] != PicoErrorGeneric
        invariant log == old(log) + Reads(k)
        decreases |results| - k
      {
        log := log + [ReadBlocking(Sht21Address, 3)];
        k := k + 1;
      }
      log := log + [ReadBlocking(Sht21Address, 3)];
      var v := b0 as int * 256 + b1 as int;
      raw := v - v % 4;
    }

    /** `SHT21_get_humidity_no_hold`. */
    method GetHumidityNoHold(results: seq<int>, b0: byte, b1: byte) returns (h: int)
      requires exists i :: 0 <= i < |results| && results[i] != PicoErrorGeneric
      modifies this
      ensures h == HumidityAsWritten(RawData(b0, b1))
    {
      var raw := ReadDataNoHold(results, b0, b1);
      h := -6 + (125 * raw as int) / 65536;
    }
  }

  /** n three-byte reads from the sensor. */
  function Reads(n: nat): (r: seq<I2cCall>)
    ensures |r| == n && forall i :: 0 <= i < n ==> r[i] == ReadBlocking(Sht21Address, 3)
  {
    if n == 0 then [] else Reads(n - 1) + [ReadBlocking(Sht21Address, 3)]
  }
}
