/** Driver of the LTC2668, a sixteen-channel 16-bit (or 12-bit) DAC behind SPI.
    Every command is one three-byte frame: a command nibble and an address
    nibble, then a 16-bit data word, most significant byte first. The
    header with the command codes is not part of this model; the codes
    below are those of the command table in the LTC2668 data sheet (write
    code to n 0x0, power up n 0x1, write code to n and update n 0x3, power
    down chip 0x5, config 0x7, write code to all 0x8, power up all 0x9,
    write code to all and update all 0xA, monitor mux 0xB, write span to
    all 0xE). GPIO set-up and the waits are not modelled. */
module Ltc2668 {
  import opened Bytes
  import opened Bits

  const CmdWrDacN: byte := 0x00
  const CmdPowerUpN: byte := 0x01
  const CmdWrUpdDacN: byte := 0x03
  const CmdPowerDownChip: byte := 0x05
  const CmdConfig: byte := 0x07
  const CmdWrDacAll: byte := 0x08
  const CmdPowerUpAll: byte := 0x09
  const CmdWrUpdDacAll: byte := 0x0A
  const CmdMuxControl: byte := 0x0B
  const CmdSpanDacAll: byte := 0x0E

  /** What the driver does to the outside world, in order. */
  datatype Action =
    | ConfigureSpi            // `configure_spi_module` of the shared SPI handler
    | Transfer(frame: seq<byte>)
    | Clr(level: bool)        // `gpio_put` on the CLR pin

  // ---------------------------------------------------------------- frames

  /** `handler_pico_spi_transmission`: the frame of one command. */
  function SpiFrame(command: byte, adr: byte, data: u16): (r: seq<byte>)
    ensures |r| == 3
  {
    [command % 16 * 16 + adr % 16, data / 256, data % 256]
  }

  /** A frame as the DAC reads it. */
  datatype Command = Command(command: byte, adr: byte, data: u16)

  function DecodeFrame(f: seq<byte>): (r: Command)
    requires |f| == 3
    ensures r.command < 16 && r.adr < 16
  {
    Command(f[0] / 16, f[0] % 16, f[1] as int * 256 + f[2] as int)
  }

  /** The DAC reads back the command and the address truncated to their four
      bits, and the data word whole. */
  lemma FrameRoundTrip(command: byte, adr: byte, data: u16)
    ensures DecodeFrame(SpiFrame(command, adr, data)) == Command(command % 16, adr % 16, data)
  {
  }

  /** Every three-byte frame is the frame of the command it decodes to. */
  lemma FrameOfDecoded(f: seq<byte>)
    requires |f| == 3
    ensures var c := DecodeFrame(f); SpiFrame(c.command, c.adr, c.data) == f
  {
    var c := DecodeFrame(f);
    assert (f[1] as int * 256 + f[2] as int) / 256 == f[1];
    assert SpiFrame(c.command, c.adr, c.data) == [f[0], f[1], f[2]];
  }

  // ------------------------------------------------------------ init pieces

  /** The per-channel power-up frames: one "power up n" per set bit of the
      mask, addressed to that bit, in the order given. */
  function PowerUpFrames(channels: seq<nat>): (r: seq<Action>)
    requires forall i :: 0 <= i < |channels| ==> channels[i] < 16
    ensures |r| == |channels|
    ensures forall i :: 0 <= i < |r| ==> r[i] == Transfer(SpiFrame(CmdPowerUpN, channels[i], 0))
  {
    if channels == [] then []
    else PowerUpFrames(channels[..|channels| - 1]) + [Transfer(SpiFrame(CmdPowerUpN, channels[|channels| - 1], 0))]
  }

  /** One more bit of the mask adds its frame, when set, at the end. */
  lemma PowerUpStep(mask: nat, idx: nat)
    requires idx < 16
    ensures PowerUpFrames(SetBits(mask, idx + 1))
            == PowerUpFrames(SetBits(mask, idx)) + (if Bit(mask, idx) then [Transfer(SpiFrame(CmdPowerUpN, idx, 0))] else [])
  {
    var a := SetBits(mask, idx);
    if Bit(mask, idx) {
      assert SetBits(mask, idx + 1) == a + [idx];
      assert (a + [idx])[..|a|] == a;
    } else {
      assert SetBits(mask, idx + 1) == a;
    }
  }

  /** The power-up step of `ltc2668_init` for the channel mask. */
  function PowerUp(mask: u16): seq<Action>
  {
    if mask == 0xFFFF then [Transfer(SpiFrame(CmdPowerUpAll, 0, 0))]
    else if mask == 0 then [Transfer(SpiFrame(CmdPowerDownChip, 0, 0))]
    else PowerUpFrames(SetBits(mask, 16))
  }

  /** Frame i of a partial power-up is "power up n" for the i-th set bit. */
  lemma PowerUpDecodes(mask: u16, i: nat)
    requires mask != 0 && mask != 0xFFFF && i < |PowerUp(mask)|
    ensures PowerUp(mask)[i].Transfer?
    ensures DecodeFrame(PowerUp(mask)[i].frame) == Command(CmdPowerUpN, SetBits(mask, 16)[i], 0)
  {
    var chs := SetBits(mask, 16);
    assert PowerUp(mask) == PowerUpFrames(chs);
    var ch := chs[i];
    assert PowerUp(mask)[i].frame == SpiFrame(CmdPowerUpN, ch, 0);
    FrameRoundTrip(CmdPowerUpN, ch, 0);
    NibbleMod(ch);
  }

  lemma NibbleMod(x: nat)
    requires x < 16
    ensures x % 16 == x
  {
  }

  /** A partial mask powers up exactly the channels whose bit is set. */
  lemma PowerUpChannels(mask: u16, ch: nat)
    requires mask != 0 && mask != 0xFFFF && ch < 16
    ensures Bit(mask, ch) <==> exists i :: 0 <= i < |PowerUp(mask)| && DecodeFrame(PowerUp(mask)[i].frame).adr == ch
  {
    var chs := SetBits(mask, 16);
    if Bit(mask, ch) {
      assert ch in chs;
      var i :| 0 <= i < |chs| && chs[i] == ch;
      PowerUpDecodes(mask, i);
    }
    if i :| 0 <= i < |PowerUp(mask)| && DecodeFrame(PowerUp(mask)[i].frame).adr == ch {
      PowerUpDecodes(mask, i);
    }
  }

  /** ... each once, in ascending channel order. */
  lemma PowerUpAscending(mask: u16, j: nat, k: nat)
    requires mask != 0 && mask != 0xFFFF && j < k < |PowerUp(mask)|
    ensures DecodeFrame(PowerUp(mask)[j].frame).adr < DecodeFrame(PowerUp(mask)[k].frame).adr
  {
    PowerUpDecodes(mask, j);
    PowerUpDecodes(mask, k);
  }

  /** `ltc2668_clear_data` with the CLR pin: n low-high pulses. */
  function ClrPulses(n: nat): (r: seq<Action>)
    ensures |r| == 2 * n
  {
    if n == 0 then [] else ClrPulses(n - 1) + [Clr(false), Clr(true)]
  }

  /** The pulses alternate low, high, starting low. */
  lemma {:induction false} ClrPulsesAlternate(n: nat, i: nat)
    requires i < n
    ensures ClrPulses(n)[2 * i] == Clr(false) && ClrPulses(n)[2 * i + 1] == Clr(true)
  {
    if i < n - 1 {
      ClrPulsesAlternate(n - 1, i);
    }
  }

  /** `ltc2668_clear_data`: four pulses on the CLR pin, or, without it, every
      channel written and updated to mid-scale 0x8000. */
  function ClearData(useClrnHw: bool): seq<Action>
  {
    if useClrnHw then ClrPulses(4) else [Transfer(SpiFrame(CmdWrUpdDacAll, 0, 0x8000))]
  }

  /** Either way of clearing leaves the device in a defined state: the CLR pin
      released high after its last pulse, or one broadcast write of the
      mid-scale code. */
  lemma ClearDataEnds(useClrnHw: bool)
    ensures var r := ClearData(useClrnHw);
            |r| > 0
            && (useClrnHw ==> r[|r| - 1] == Clr(true) && |r| == 8)
            && (!useClrnHw ==> DecodeFrame(r[0].frame) == Command(CmdWrUpdDacAll, 0, 0x8000) && |r| == 1)
  {
    ClrPulsesAlternate(4, 3);
  }

  /** Everything `ltc2668_init` does, from the handler's settings. */
  function InitActions(spiInitDone: bool, useClrnHw: bool, useIntVref: bool, pwrUpChnnl: u16, vrefRange: u16): seq<Action>
  {
    InitHead(spiInitDone, useClrnHw, useIntVref)
    + PowerUp(pwrUpChnnl)
    + ClearData(useClrnHw)
    + [Transfer(SpiFrame(CmdSpanDacAll, 0, vrefRange))]
  }

  /** The SPI set-up, the CLR pin held low, and the reference selection:
      data 0 for the internal reference, 1 for an external one. */
  function InitHead(spiInitDone: bool, useClrnHw: bool, useIntVref: bool): seq<Action>
  {
    (if spiInitDone then [] else [ConfigureSpi])
    + (if useClrnHw then [Clr(false)] else [])
    + [Transfer(SpiFrame(CmdConfig, 0, if useIntVref then 0 else 1))]
  }

  // ---------------------------------------------------------- data commands

  /** The data word of `ltc2668_mux_control`: bit 4 enables the monitor and
      the low nibble selects the channel. */
  function MuxData(enable: bool, channel: byte): (r: u16)
    ensures enable ==> r / 16 == 1 && r % 16 == channel % 16
    ensures !enable ==> r == 0
  {
    if enable then 0x10 + channel % 16 else 0
  }

  /** The value sent by the update commands: unchanged on a 16-bit device; on
      a 12-bit one the low twelve bits moved to the top of the word. */
  function UpdateValue(use16BitDev: bool, data: u16): (r: u16)
    ensures use16BitDev ==> r == data
    ensures !use16BitDev ==> r % 16 == 0 && r / 16 == data % 4096
  {
    if use16BitDev then data else data % 4096 * 16
  }

  // ------------------------------------------- the device's input registers

  /** What a write command does to the sixteen input registers, as the data
      sheet describes it; other commands leave them alone. */
  function WriteEffect(frame: seq<byte>, regs: seq<u16>): (r: seq<u16>)
    requires |frame| == 3 && |regs| == 16
    ensures |r| == 16
  {
    var c := DecodeFrame(frame);
    if c.command == CmdWrDacN then regs[c.adr := c.data]
    else if c.command == CmdWrDacAll then seq(16, _ => c.data)
    else regs
  }

  /** `ltc2668_write_output_all_channel` as written: the "write code to n"
      command with address 0. */
  function WriteAllFrameAsWritten(data: u16): seq<byte>
  {
    SpiFrame(CmdWrDacN, 0, data)
  }

  /** `ltc2668_write_output_single_channel` as written: the "write code to
      all" command, carrying the channel as its address. */
  function WriteSingleFrameAsWritten(data: u16, channel: byte): seq<byte>
  {
    SpiFrame(CmdWrDacAll, channel % 16, data)
  }

  /** As written, the all-channel write reaches channel 0 only, and the
      single-channel write overwrites every channel. */
  lemma WriteCommandsSwapped(regs: seq<u16>, data: u16, channel: byte)
    requires |regs| == 16 && regs[1] != data
    ensures WriteEffect(WriteAllFrameAsWritten(data), regs) == regs[0 := data]
    ensures WriteEffect(WriteAllFrameAsWritten(data), regs) != seq(16, _ => data)
    ensures WriteEffect(WriteSingleFrameAsWritten(data, channel), regs) == seq(16, _ => data)
  {
    FrameRoundTrip(CmdWrDacN, 0, data);
    FrameRoundTrip(CmdWrDacAll, channel % 16, data);
    assert WriteEffect(WriteAllFrameAsWritten(data), regs)[1] == regs[1];
  }

  /** The all-channel write with the "write code to all" command. */
  function WriteAllFrame(data: u16): seq<byte>
  {
    SpiFrame(CmdWrDacAll, 0, data)
  }

  /** The single-channel write with the "write code to n" command. */
  function WriteSingleFrame(data: u16, channel: byte): seq<byte>
  {
    SpiFrame(CmdWrDacN, channel % 16, data)
  }

  /** With the commands exchanged, the all-channel write sets every input
      register and the single-channel write sets only the addressed one. */
  lemma WriteCommandsCorrected(regs: seq<u16>, data: u16, channel: byte)
    requires |regs| == 16
    ensures WriteEffect(WriteAllFrame(data), regs) == seq(16, _ => data)
    ensures var r := WriteEffect(WriteSingleFrame(data, channel), regs);
            r[channel % 16] == data && forall i :: 0 <= i < 16 && i != channel % 16 ==> r[i] == regs[i]
  {
    FrameRoundTrip(CmdWrDacAll, 0, data);
    FrameRoundTrip(CmdWrDacN, channel % 16, data);
  }

  lemma Assoc<T>(a: seq<T>, b: seq<T>, c: seq<T>)
    ensures a + b + c == a + (b + c)
  {
  }

  // ---------------------------------------------------------------- handler

  /** `ltc2668_handler_t` together with the fields of its SPI handler the
      driver reads (`init_done`, `mode`). */
  class Ltc2668Device {
    var spiInitDone: bool
    var spiMode: byte
    var useClrnHw: bool
    var useIntVref: bool
    var use16BitDev: bool
    var pwrUpChnnl: u16
    var vrefRange: u16
    var initDone: bool
    var log: seq<Action>

    constructor (spiInit: bool, mode: byte, clrnHw: bool, intVref: bool, dev16: bool, mask: u16, span: u16)
      ensures spiInitDone == spiInit && spiMode == mode && useClrnHw == clrnHw && useIntVref == intVref
      ensures use16BitDev == dev16 && pwrUpChnnl == mask && vrefRange == span
      ensures !initDone && log == []
    {
      spiInitDone, spiMode, useClrnHw, useIntVref := spiInit, mode, clrnHw, intVref;
      use16BitDev, pwrUpChnnl, vrefRange := dev16, mask, span;
      initDone := false;
      log := [];
    }

    /** `handler_pico_spi_transmission`; the result of the SPI call is not
        modelled. */
    method Transmission(command: byte, adr: byte, data: u16)
      modifies this`log
      ensures log == old(log) + [Transfer(SpiFrame(command, adr, data))]
    {
      log := log + [Transfer(SpiFrame(command, adr, data))];
    }

    /** `ltc2668_init`: every step is taken whatever the SPI mode; the mode
        only decides the result. */
    method Init() returns (r: bool)
      modifies this`log, this`spiInitDone, this`initDone
      ensures r == initDone && (initDone <==> spiMode == 0)
      ensures spiInitDone
      ensures log == old(log) + InitActions(old(spiInitDone), useClrnHw, useIntVref, pwrUpChnnl, vrefRange)
    {
      ghost var log0 := log;
      ghost var wasInit := spiInitDone;
      if !spiInitDone {
        log := log + [ConfigureSpi];
        spiInitDone := true;
      }
      var errorCheck := spiMode == 0;
      if useClrnHw {
        log := log + [Clr(false)];
      }
      Transmission(CmdConfig, 0, if useIntVref then 0 else 1);
      ghost var done := InitHead(wasInit, useClrnHw, useIntVref);
      assert log == log0 + done;
      if pwrUpChnnl == 0xFFFF {
        Transmission(CmdPowerUpAll, 0, 0);
      } else if pwrUpChnnl == 0 {
        Transmission(CmdPowerDownChip, 0, 0);
      } else {
        PowerUpEachChannel();
      }
      Assoc(log0, done, PowerUp(pwrUpChnnl));
      done := done + PowerUp(pwrUpChnnl);
      assert log == log0 + done;
      ClearDataMethod();
      Assoc(log0, done, ClearData(useClrnHw));
      done := done + ClearData(useClrnHw);
      Transmission(CmdSpanDacAll, 0, vrefRange);
      Assoc(log0, done, [Transfer(SpiFrame(CmdSpanDacAll, 0, vrefRange))]);
      done := done + [Transfer(SpiFrame(CmdSpanDacAll, 0, vrefRange))];
      assert log == log0 + done;
      assert done == InitActions(wasInit, useClrnHw, useIntVref, pwrUpChnnl, vrefRange);
      initDone := errorCheck;
      r := initDone;
    }

    /** The loop of `ltc2668_init` over the sixteen channels of a partial
        power-up mask. */
    method PowerUpEachChannel()
      modifies this`log
      ensures log == old(log) + PowerUpFrames(SetBits(pwrUpChnnl, 16))
    {
      var mask := pwrUpChnnl;
      var idx := 0;
      while idx < 16
        invariant 0 <= idx <= 16
        invariant log == old(log) + PowerUpFrames(SetBits(mask, idx))
      {
        ghost var before := log;
        ghost var tail := if Bit(mask, idx) then [Transfer(SpiFrame(CmdPowerUpN, idx, 0))] else [];
        var activateChnnl := Bit(mask, idx);
        if activateChnnl {
          Transmission(CmdPowerUpN, idx, 0);
        }
        assert log == before + tail;
        PowerUpStep(mask, idx);
        Assoc(old(log), PowerUpFrames(SetBits(mask, idx)), tail);
        idx := idx + 1;
      }
    }

    /** `ltc2668_clear_data`. */
    method ClearDataMethod()
      modifies this`log
      ensures log == old(log) + ClearData(useClrnHw)
    {
      if useClrnHw {
        ghost var log0 := log;
        var idx := 0;
        while idx < 4
          invariant 0 <= idx <= 4
          invariant log == log0 + ClrPulses(idx)
        {
          log := log + [Clr(false)];
          log := log + [Clr(true)];
          idx := idx + 1;
        }
      } else {
        Transmission(CmdWrUpdDacAll, 0, 0x8000);
      }
    }

    /** `ltc2668_mux_control`. */
    method MuxControl(enable: bool, channel: byte)
      modifies this`log
      ensures log == old(log) + [Transfer(SpiFrame(CmdMuxControl, 0, MuxData(enable, channel)))]
    {
      var muxData: u16 := if enable then 0x10 + channel % 16 else 0;
      Transmission(CmdMuxControl, 0, muxData);
    }

    /** `ltc2668_write_output_all_channel`, as written. */
    method WriteOutputAllChannel(data: u16)
      modifies this`log
      ensures log == old(log) + [Transfer(WriteAllFrameAsWritten(data))]
    {
      Transmission(CmdWrDacN, 0, data);
    }

    /** `ltc2668_write_output_single_channel`, as written. */
    method WriteOutputSingleChannel(data: u16, channel: byte)
      modifies this`log
      ensures log == old(log) + [Transfer(WriteSingleFrameAsWritten(data, channel))]
    {
      Transmission(CmdWrDacAll, channel % 16, data);
    }

    /** `ltc2668_update_output_all_channel`. */
    method UpdateOutputAllChannel(data: u16)
      modifies this`log
      ensures log == old(log) + [Transfer(SpiFrame(CmdWrUpdDacAll, 0, UpdateValue(use16BitDev, data)))]
    {
      var dataReal: u16 := if use16BitDev then data else data % 4096 * 16;
      Transmission(CmdWrUpdDacAll, 0, dataReal);
    }

    /** `ltc2668_update_output_single_channel`. */
    method UpdateOutputSingleChannel(data: u16, channel: byte)
      modifies this`log
      ensures log == old(log) + [Transfer(SpiFrame(CmdWrUpdDacN, channel % 16, UpdateValue(use16BitDev, data)))]
    {
      var dataReal: u16 := if use16BitDev then data else data % 4096 * 16;
      Transmission(CmdWrUpdDacN, channel % 16, dataReal);
    }
  }
}
