/** Driver of the VEML7700 ambient-light sensor at I2C address 0x10: the
    identity check, the configuration write, the power-saving write and the
    two light readings. What the sensor answers and what the bus calls
    return are inputs; the `printf` of the identity is left out. */
module Veml7700 {
  import opened Bytes
  import opened Bits
  import opened I2cHandler

  const Veml7700Address: byte := 0x10
  const AlsConfCommand: byte := 0x00
  const PowerSavingCommand: byte := 0x03
  const AlsCommand: byte := 0x04
  const WhiteCommand: byte := 0x05
  const IdCommand: byte := 0x07

  /** The two identities `VEML7700_read_id` accepts. */
  predicate KnownId(id: int)
  {
    id == 0xC481 || id == 0xD481
  }

  // ------------------------------------------------------ configuration

  /** The low byte of the ALS_CONF_0 word `VEML7700_init` writes: the two
      low bits of the integration time in bits 7..6, the threshold
      interrupt in bit 1, and bit 0 set unless power saving is enabled. */
  function ConfigLow(intTime: byte, enPwrSaving: bool, useIsrThres: bool): (r: byte)
  {
    intTime % 4 * 64 + (if useIsrThres then 2 else 0) + (if enPwrSaving then 0 else 1)
  }

  /** The high byte: the gain (three bits) in bits 5..3, the two high bits
      of the four-bit integration time in bits 1..0. */
  function ConfigHigh(gain: byte, intTime: byte): (r: byte)
  {
    gain % 8 * 8 + intTime % 16 / 4
  }

  /** The three bytes of the configuration write: command 0 and the word,
      low byte first. */
  function ConfigFrame(gain: byte, intTime: byte, enPwrSaving: bool, useIsrThres: bool): (r: seq<byte>)
    ensures |r| == 3 && r[0] == AlsConfCommand
  {
    [AlsConfCommand, ConfigLow(intTime, enPwrSaving, useIsrThres), ConfigHigh(gain, intTime)]
  }

  /** The fields of the ALS_CONF_0 register, by the VEML7700 data sheet:
      gain in bits 12..11, integration time in bits 9..6, persistence in
      bits 5..4, interrupt enable in bit 1, shutdown in bit 0. */
  datatype AlsConf = AlsConf(gain: nat, intTime: nat, persistence: nat, intEnable: bool, shutDown: bool)

  function DecodeAlsConf(w: nat): (c: AlsConf)
  {
    AlsConf(w / 2048 % 4, w / 64 % 16, w / 16 % 4, w / 2 % 2 == 1, w % 2 == 1)
  }

  /** The low register byte as `VEML7700_init` computes it, bit by bit:
      it is `ConfigLow`. */
  method ConfigLowByte(intTime: bv8, enPwrSaving: bool, useIsrThres: bool) returns (low: byte)
    ensures low == ConfigLow(intTime as int, enPwrSaving, useIsrThres)
  {
    var lo: bv8 := (intTime & 0x03) << 6;
    if enPwrSaving {
      lo := lo & !0x01;
    } else {
      lo := lo | 0x01;
    }
    if useIsrThres {
      lo := lo | 0x02;
    } else {
      lo := lo & !0x02;
    }
    LowBits(intTime, enPwrSaving, useIsrThres, lo);
    low := lo as int;
  }

  /** The high register byte as `VEML7700_init` computes it: it is
      `ConfigHigh`. */
  method ConfigHighByte(gain: bv8, intTime: bv8) returns (high: byte)
    ensures high == ConfigHigh(gain as int, intTime as int)
  {
    var hi: bv8 := ((gain & 0x07) << 3) | ((intTime & 0x0C) >> 2);
    GainBits(gain);
    TimeHighBits(intTime);
    OrDisjoint((gain & 0x07) << 3, (intTime & 0x0C) >> 2);
    high := hi as int;
  }

  /** The low byte after the two flag updates. */
  lemma LowBits(intTime: bv8, enPwrSaving: bool, useIsrThres: bool, lo: bv8)
    requires var b0 := (intTime & 0x03) << 6;
             var b1 := if enPwrSaving then b0 & !0x01 else b0 | 0x01;
             lo == if useIsrThres then b1 | 0x02 else b1 & !0x02
    ensures lo as int == ConfigLow(intTime as int, enPwrSaving, useIsrThres)
  {
  }

  lemma GainBits(gain: bv8)
    ensures ((gain & 0x07) << 3) as int == gain as int % 8 * 8
    ensures ((gain & 0x07) << 3) & 0x07 == 0
  {
  }

  lemma TimeHighBits(intTime: bv8)
    ensures ((intTime & 0x0C) >> 2) as int == intTime as int % 16 / 4
    ensures ((intTime & 0x0C) >> 2) < 4
  {
  }

  lemma OrDisjoint(hi: bv8, lo: bv8)
    requires hi & 0x07 == 0 && lo < 4
    ensures (hi | lo) as int == hi as int + lo as int
  {
  }

  /** The word the sensor assembles from the configuration write carries the
      four-bit integration time across the two bytes, the gain code, no
      persistence, the threshold interrupt as asked, and shutdown exactly
      when power saving is not enabled. */
  lemma ConfigDecodes(gain: byte, intTime: byte, enPwrSaving: bool, useIsrThres: bool)
    ensures var f := ConfigFrame(gain, intTime, enPwrSaving, useIsrThres);
            DecodeAlsConf(f[1] as int + 256 * f[2] as int)
              == AlsConf(gain % 4, intTime % 16, 0, useIsrThres, !enPwrSaving)
  {
    var flags := (if useIsrThres then 2 else 0) + (if enPwrSaving then 0 else 1);
    ConfigWord(gain, intTime, enPwrSaving, useIsrThres);
    WordFields(gain % 8, intTime % 16, flags);
    DivUnique(gain % 8, 4, gain % 8 / 4, gain % 4);
  }

  /** The configuration word: gain from bit 11, integration time from bit 6,
      the two flags in bits 1 and 0. */
  lemma ConfigWord(gain: byte, intTime: byte, enPwrSaving: bool, useIsrThres: bool)
    ensures var f := ConfigFrame(gain, intTime, enPwrSaving, useIsrThres);
            f[1] as int + 256 * f[2] as int
              == 2048 * (gain % 8) + 64 * (intTime % 16)
                 + (if useIsrThres then 2 else 0) + (if enPwrSaving then 0 else 1)
  {
    DivUnique(intTime % 16, 4, intTime % 16 / 4, intTime % 4);
  }

  /** Reading the fields back out of a word built from them. */
  lemma WordFields(g: nat, t: nat, flags: nat)
    requires t < 16 && flags < 4
    ensures DecodeAlsConf(2048 * g + 64 * t + flags) == AlsConf(g % 4, t, 0, flags / 2 == 1, flags % 2 == 1)
  {
    var w := 2048 * g + 64 * t + flags;
    DivUnique(w, 2048, g, 64 * t + flags);
    DivUnique(w, 64, 32 * g + t, flags);
    DivUnique(32 * g + t, 16, 2 * g, t);
    DivUnique(w, 16, 128 * g + 4 * t, flags);
    DivUnique(128 * g + 4 * t, 4, 32 * g + t, 0);
    DivUnique(w, 2, 1024 * g + 32 * t + flags / 2, flags % 2);
    DivUnique(1024 * g + 32 * t + flags / 2, 2, 512 * g + 16 * t, flags / 2);
  }

  // ------------------------------------------------------- the two words

  /** How the driver assembles a two-byte reading: the first byte received
      as the high byte. */
  function WordAsWritten(b0: byte, b1: byte): (w: u16)
  {
    b0 * 256 + b1
  }

  /** The two bytes the sensor sends for a register word, low byte first,
      the same order the configuration write uses. */
  function DeviceBytes(w: u16): (r: seq<byte>)
  {
    [w % 256, w / 256]
  }

  /** A reading assembled low byte first. */
  function Word(b0: byte, b1: byte): (w: u16)
  {
    b0 + 256 * b1
  }

  /** The driver's order is big-endian, the sensor's little-endian. */
  lemma WordOrders(b0: byte, b1: byte)
    ensures WordAsWritten(b0, b1) == BeValue([b0, b1])
    ensures Word(b0, b1) == LeValue([b0, b1])
  {
    BeValue2([b0, b1]);
    LeValue2([b0, b1]);
  }

  /** Read low byte first, the sensor's word comes back unchanged. */
  lemma WordRoundTrip(w: u16)
    ensures Word(DeviceBytes(w)[0], DeviceBytes(w)[1]) == w
  {
  }

  /** As written, every word whose two bytes differ is read swapped. */
  lemma WordAsWrittenSwaps(w: u16)
    ensures WordAsWritten(DeviceBytes(w)[0], DeviceBytes(w)[1]) == w % 256 * 256 + w / 256
    ensures WordAsWritten(DeviceBytes(w)[0], DeviceBytes(w)[1]) == w <==> w % 256 == w / 256
  {
  }

  /** The identity 0xC481 arrives as 0x81 then 0xC4, which the driver
      assembles to 0x81C4 and rejects. */
  lemma IdRejectedAsWritten()
    ensures DeviceBytes(0xC481) == [0x81, 0xC4]
    ensures WordAsWritten(0x81, 0xC4) == 0x81C4 && !KnownId(WordAsWritten(0x81, 0xC4))
  {
  }

  /** Assembled low byte first, an identity is accepted exactly when it is
      one of the two. */
  lemma IdAccepted(w: u16)
    ensures KnownId(Word(DeviceBytes(w)[0], DeviceBytes(w)[1])) <==> KnownId(w)
  {
    WordRoundTrip(w);
  }

  // -------------------------------------------------------- power saving

  /** The write of `VEML7700_set_power_saving_mode` as written: command
      0x04, the mode in bits 2..1 of the first data byte, the enable flag
      in bit 0 of the second. */
  function PowerSavingFrameAsWritten(mode: byte, enPwrSaving: bool): (r: seq<byte>)
  {
    [AlsCommand, mode % 4 * 2, if enPwrSaving then 1 else 0]
  }

  /** The power-saving write by the VEML7700 data sheet: command 0x03, the
      mode in bits 2..1 and the enable flag in bit 0 of the low byte. */
  function PowerSavingFrame(mode: byte, enPwrSaving: bool): (r: seq<byte>)
  {
    [PowerSavingCommand, mode % 4 * 2 + (if enPwrSaving then 1 else 0), 0]
  }

  /** The bit-wise operations of the source compute the mode byte. */
  lemma PowerSavingModeIsBits(mode: bv8)
    ensures ((mode & 0x03) << 1) as int == mode as int % 4 * 2
  {
  }

  /** What a three-byte write does to the sensor's registers, by the data
      sheet: commands 0 to 3 are the writable configuration registers and
      take the word low byte first; 4 to 7 are read-only outputs. */
  function WriteEffect(f: seq<byte>, regs: map<byte, u16>): (r: map<byte, u16>)
    requires |f| == 3
  {
    if f[0] < 4 then regs[f[0] := f[1] as int + 256 * f[2] as int] else regs
  }

  /** As written the power-saving write lands on the read-only ALS output
      and changes nothing. */
  lemma PowerSavingIgnoredAsWritten(mode: byte, enPwrSaving: bool, regs: map<byte, u16>)
    ensures WriteEffect(PowerSavingFrameAsWritten(mode, enPwrSaving), regs) == regs
  {
  }

  /** The data-sheet write sets the mode and the enable flag of the
      power-saving register and no other register. */
  lemma PowerSavingApplied(mode: byte, enPwrSaving: bool, regs: map<byte, u16>)
    ensures var r := WriteEffect(PowerSavingFrame(mode, enPwrSaving), regs);
            PowerSavingCommand in r
            && r[PowerSavingCommand] / 2 % 4 == mode % 4
            && (r[PowerSavingCommand] % 2 == 1 <==> enPwrSaving)
            && forall c :: c in regs && c != PowerSavingCommand ==> c in r && r[c] == regs[c]
  {
  }

  // --------------------------------------------------------------- sensor

  datatype Action =
    | ConfigureI2c          // `configure_i2c_module` of the shared I2C handler
    | Bus(call: I2cCall)

  /** n two-byte reads from the sensor. */
  function Reads(n: nat): (r: seq<Action>)
    ensures |r| == n && forall i :: 0 <= i < n ==> r[i] == Bus(ReadBlocking(Veml7700Address, 2))
  {
    if n == 0 then [] else Reads(n - 1) + [Bus(ReadBlocking(Veml7700Address, 2))]
  }

  /** `veml7700_handler_t` together with the `init_done` flag of its I2C
      handler. */
  class Veml7700Sensor {
    var i2cInitDone: bool
    var gain: bv8
    var intTime: bv8
    var initDone: bool
    var enPwrSaving: bool
    var useIsrThres: bool
    var log: seq<Action>

    constructor (i2cInit: bool, g: bv8, it: bv8, pwrSaving: bool, isrThres: bool)
      ensures i2cInitDone == i2cInit && gain == g && intTime == it && !initDone
      ensures enPwrSaving == pwrSaving && useIsrThres == isrThres && log == []
    {
      i2cInitDone, gain, intTime := i2cInit, g, it;
      initDone, enPwrSaving, useIsrThres := false, pwrSaving, isrThres;
      log := [];
    }

    /** A one-byte command write, then two-byte reads until one does not
        return `PICO_ERROR_GENERIC`; the word is assembled as the driver
        does. `results` are the successive read results, `b0` and `b1` the
        bytes of the successful read. */
    method Query(command: byte, results: seq<int>, b0: byte, b1: byte) returns (w: u16, count: nat)
      requires exists i :: 0 <= i < |results| && results[i] != PicoErrorGeneric
      modifies this`log
      ensures w == WordAsWritten(b0, b1)
      ensures 0 < count <= |results| && results[count - 1] != PicoErrorGeneric
      ensures forall i :: 0 <= i < count - 1 ==> results[i] == PicoErrorGeneric
      ensures log == old(log) + [Bus(WriteBlocking(Veml7700Address, [command], false))] + Reads(count)
    {
      log := log + [Bus(WriteBlocking(Veml7700Address, [command], false))];
      ghost var start := log;
      var k := 0;
      while results[k] == PicoErrorGeneric
        invariant 0 <= k < |results|
        invariant forall i :: 0 <= i < k ==> results[i] == PicoErrorGeneric
        invariant exists i :: k <= i < |results| && results[i] != PicoErrorGeneric
        invariant log == start + Reads(k)
        decreases |results| - k
      {
        log := log + [Bus(ReadBlocking(Veml7700Address, 2))];
        k := k + 1;
      }
      log := log + [Bus(ReadBlocking(Veml7700Address, 2))];
      count := k + 1;
      w := b0 * 256 + b1;
    }

    /** `VEML7700_read_id`: true exactly when the assembled identity is one
        of the two known ones. */
    method ReadId(results: seq<int>, b0: byte, b1: byte) returns (r: bool)
      requires exists i :: 0 <= i < |results| && results[i] != PicoErrorGeneric
      modifies this`log
      ensures r <==> KnownId(WordAsWritten(b0, b1))
      ensures exists n :: 0 < n <= |results|
                          && log == old(log) + [Bus(WriteBlocking(Veml7700Address, [IdCommand], false))] + Reads(n)
    {
      var id, count := Query(IdCommand, results, b0, b1);
      r := id == 0xC481 || id == 0xD481;
    }

    /** `VEML7700_init`: the I2C set-up when needed, then the configuration
        write; `init_done` is false exactly when that write returns
        `PICO_ERROR_GENERIC`, and is returned. */
    method Init(writeResult: int) returns (r: bool)
      modifies this`log, this`i2cInitDone, this`initDone
      ensures r == initDone && (initDone <==> writeResult != PicoErrorGeneric) && i2cInitDone
      ensures log == old(log) + (if old(i2cInitDone) then [] else [ConfigureI2c])
                     + [Bus(WriteBlocking(Veml7700Address, ConfigFrame(gain as int, intTime as int, enPwrSaving, useIsrThres), false))]
    {
      if !i2cInitDone {
        log := log + [ConfigureI2c];
        i2cInitDone := true;
      }
      var low := ConfigLowByte(intTime, enPwrSaving, useIsrThres);
      var high := ConfigHighByte(gain, intTime);
      log := log + [Bus(WriteBlocking(Veml7700Address, [0x00, low, high], false))];
      initDone := writeResult != PicoErrorGeneric;
      r := initDone;
    }

    /** `VEML7700_set_power_saving_mode`, as written. */
    method SetPowerSavingMode(mode: bv8)
      modifies this`log
      ensures log == old(log) + [Bus(WriteBlocking(Veml7700Address, PowerSavingFrameAsWritten(mode as int, enPwrSaving), false))]
    {
      var b1: bv8 := (mode & 0x03) << 1;
      var b2: bv8 := 0x00;
      if enPwrSaving {
        b2 := b2 | 0x01;
      } else {
        b2 := b2 & !0x01;
      }
      PowerSavingModeIsBits(mode);
      log := log + [Bus(WriteBlocking(Veml7700Address, [AlsCommand, b1 as int, b2 as int], false))];
    }

    /** `VEML7700_get_als_value`. */
    method GetAlsValue(results: seq<int>, b0: byte, b1: byte) returns (v: u16)
      requires exists i :: 0 <= i < |results| && results[i] != PicoErrorGeneric
      modifies this`log
      ensures v == WordAsWritten(b0, b1)
      ensures exists n :: 0 < n <= |results|
                          && log == old(log) + [Bus(WriteBlocking(Veml7700Address, [AlsCommand], false))] + Reads(n)
    {
      var count;
      v, count := Query(AlsCommand, results, b0, b1);
    }

    /** `VEML7700_get_white`. */
    method GetWhite(results: seq<int>, b0: byte, b1: byte) returns (v: u16)
      requires exists i :: 0 <= i < |results| && results[i] != PicoErrorGeneric
      modifies this`log
      ensures v == WordAsWritten(b0, b1)
      ensures exists n :: 0 < n <= |results|
                          && log == old(log) + [Bus(WriteBlocking(Veml7700Address, [WhiteCommand], false))] + Reads(n)
    {
      var count;
      v, count := Query(WhiteCommand, results, b0, b1);
    }
  }
}
