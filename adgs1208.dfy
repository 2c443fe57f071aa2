/** Driver of the ADGS1208, an 8:1 multiplexer with an SPI interface and four
    GPIO outputs, alone or in a daisy chain of `num_device_dc` devices. The
    data byte carries the GPIO states in its high nibble and the switch code
    in its low nibble: bit 0 enables the multiplexer and bits 1 to 3 select
    one of the eight inputs. The header is not part of this model. GPIO
    set-up and the waits are not modelled. */
module Adgs1208 {
  import opened Bytes
  import opened Bits

  /** What the driver does to the outside world, in order. */
  datatype Action =
    | ConfigureSpi          // `configure_spi_module` of the shared SPI handler
    | Cs(level: bool)       // `gpio_put` on the chip-select pin
    | Rst(level: bool)      // `gpio_put` on the reset pin
    | Write(bytes: seq<byte>)

  /** The four GPIO output states of the handler. */
  datatype Gpio = Gpio(g4: bool, g3: bool, g2: bool, g1: bool)

  // ------------------------------------------------------------ data byte

  /** The high nibble: GPIO4 at 0x80 down to GPIO1 at 0x10. */
  function GpioBits(g: Gpio): (r: byte)
    ensures r % 16 == 0
  {
    (if g.g4 then 0x80 else 0) + (if g.g3 then 0x40 else 0)
    + (if g.g2 then 0x20 else 0) + (if g.g1 then 0x10 else 0)
  }

  /** The switch code of `adgs1208_get_data`, as written. */
  function MuxCodeAsWritten(muxSel: byte): (r: byte)
    ensures r < 16
  {
    match muxSel
    case 1 => 0x01
    case 2 => 0x03
    case 3 => 0x05
    case 4 => 0x07
    case 5 => 0x09
    case 6 => 0x0B
    case 7 => 0x0C
    case 8 => 0x0F
    case _ => 0x00
  }

  /** `adgs1208_get_data`: `gpio4 | gpio3 | gpio2 | gpio1 | data`. The parts
      have no bit in common, so the OR is their sum. */
  function GetData(g: Gpio, muxSel: byte): (r: byte)
  {
    GpioBits(g) + MuxCodeAsWritten(muxSel)
  }

  /** The OR of the two nibbles in `bv8` is their sum. */
  lemma OrIsSum(hi: bv8, lo: bv8)
    requires hi & 0x0F == 0 && lo < 16
    ensures (hi | lo) as int == hi as int + lo as int
  {
  }

  /** A byte whose low nibble is clear has no bit in common with 0x0F. */
  lemma LowNibbleClear(h: bv8)
    requires h as int % 16 == 0
    ensures h & 0x0F == 0
  {
  }

  /** `get_data` computes the bitwise OR of the GPIO nibble and the code. */
  lemma GetDataIsOr(g: Gpio, muxSel: byte)
    ensures ((GpioBits(g) as bv8) | (MuxCodeAsWritten(muxSel) as bv8)) as int == GetData(g, muxSel)
  {
    LowNibbleClear(GpioBits(g) as bv8);
    OrIsSum(GpioBits(g) as bv8, MuxCodeAsWritten(muxSel) as bv8);
  }

  /** What the multiplexer reads from a data byte. */
  datatype Setting = Setting(gpio: Gpio, enabled: bool, address: nat)

  function Decode(d: byte): (r: Setting)
    ensures r.address < 8
  {
    Setting(Gpio(Bit(d, 7), Bit(d, 6), Bit(d, 5), Bit(d, 4)), Bit(d, 0), d % 16 / 2)
  }

  /** The GPIO states and the switch code occupy separate nibbles: each
      survives the other unchanged. */
  lemma GpioSurvives(g: Gpio, code: byte)
    requires code < 16
    ensures Decode(GpioBits(g) + code).gpio == g
    ensures (GpioBits(g) + code) % 16 == code
  {
    var d := GpioBits(g) + code;
    assert Pow2(4) == 16 && Pow2(5) == 32 && Pow2(6) == 64 && Pow2(7) == 128;
    assert d / 16 == GpioBits(g) / 16;
  }

  /** The enable bit and the address of a data byte come from its switch
      code alone. */
  lemma CodeDecodes(g: Gpio, code: byte)
    requires code < 16
    ensures Decode(GpioBits(g) + code).enabled <==> code % 2 == 1
    ensures Decode(GpioBits(g) + code).address == code / 2
  {
    GpioSurvives(g, code);
    assert Pow2(0) == 1;
  }

  /** As written, selection 7 clears the enable bit: every switch opens,
      while the seven other selections enable the multiplexer. */
  lemma SelectionSevenDisables(g: Gpio, muxSel: byte)
    requires 1 <= muxSel <= 8
    ensures Decode(GetData(g, muxSel)).enabled <==> muxSel != 7
  {
    CodeDecodes(g, MuxCodeAsWritten(muxSel));
  }

  /** The switch code with the pattern of the other seven entries: enable set
      and input k - 1 selected. */
  function MuxCode(muxSel: byte): (r: byte)
    ensures r < 16
    ensures 1 <= muxSel <= 8 ==> r % 2 == 1 && r / 2 == muxSel - 1
    ensures !(1 <= muxSel <= 8) ==> r == 0
  {
    if 1 <= muxSel <= 8 then 2 * (muxSel - 1) + 1 else 0
  }

  /** The corrected code differs from the written table only at 7. */
  lemma MuxCodeOnlySevenDiffers(muxSel: byte)
    ensures MuxCode(muxSel) == MuxCodeAsWritten(muxSel) <==> muxSel != 7
  {
  }

  /** With the corrected code, every selection 1 to 8 enables the
      multiplexer on input `mux_sel - 1` and sets the GPIOs as asked, and any
      other value disables it. */
  lemma SelectionDecodes(g: Gpio, muxSel: byte)
    ensures var s := Decode(GpioBits(g) + MuxCode(muxSel));
            s.gpio == g && (s.enabled <==> 1 <= muxSel <= 8)
            && (1 <= muxSel <= 8 ==> s.address == muxSel - 1)
  {
    GpioSurvives(g, MuxCode(muxSel));
    CodeDecodes(g, MuxCode(muxSel));
  }

  // --------------------------------------------------------------- traffic

  /** One two-byte command inside its own chip-select window. */
  function Framed(b0: byte, b1: byte): seq<Action>
  {
    [Cs(false), Write([b0, b1]), Cs(true)]
  }

  /** n copies of a block. */
  function Repeat(n: nat, block: seq<Action>): (r: seq<Action>)
    ensures |r| == n * |block|
  {
    if n == 0 then [] else Repeat(n - 1, block) + block
  }

  /** The bytes written to the bus, in order. */
  function Writes(acts: seq<Action>): seq<seq<byte>>
  {
    if acts == [] then []
    else Writes(acts[..|acts| - 1]) + (if acts[|acts| - 1].Write? then [acts[|acts| - 1].bytes] else [])
  }

  lemma {:induction false} WritesAppend(a: seq<Action>, b: seq<Action>)
    ensures Writes(a + b) == Writes(a) + Writes(b)
    decreases |b|
  {
    if b == [] {
      assert a + b == a;
    } else {
      assert (a + b)[..|a + b| - 1] == a + b[..|b| - 1];
      WritesAppend(a, b[..|b| - 1]);
    }
  }

  /** n framed commands write the command n times. */
  lemma {:induction false} RepeatWrites(n: nat, b0: byte, b1: byte)
    ensures Writes(Repeat(n, Framed(b0, b1))) == seq(n, _ => [b0, b1])
  {
    if n > 0 {
      RepeatWrites(n - 1, b0, b1);
      WritesAppend(Repeat(n - 1, Framed(b0, b1)), Framed(b0, b1));
      assert Writes(Framed(b0, b1)) == [[b0, b1]] by {
        var f := Framed(b0, b1);
        assert f[..2] == [Cs(false), Write([b0, b1])] && f[..2][..1] == [Cs(false)] && [Cs(false)][..0] == [];
        assert Writes([Cs(false)]) == [];
        assert Writes(f[..2]) == [[b0, b1]];
      }
    }
  }

  /** `adgs1208_enable_daisy_chain`: command 0x2500 once per device. */
  function EnableDaisyChain(n: byte): seq<Action>
  {
    Repeat(n, Framed(0x25, 0x00))
  }

  /** `adgs1208_reset`: two low-high pulses on the reset pin, or the
      software reset 0x0BA3 then 0x0B05, each once per device. */
  function ResetActions(useRstnHw: bool, n: byte): seq<Action>
  {
    if useRstnHw then Repeat(2, [Rst(false), Rst(true)])
    else Repeat(n, Framed(0x0B, 0xA3)) + Repeat(n, Framed(0x0B, 0x05))
  }

  /** The software reset writes the first command to every device of the
      chain before the second. */
  lemma SoftwareResetWrites(n: byte)
    ensures Writes(ResetActions(false, n)) == seq(n, _ => [0x0B, 0xA3]) + seq(n, _ => [0x0B, 0x05])
  {
    WritesAppend(Repeat(n, Framed(0x0B, 0xA3)), Repeat(n, Framed(0x0B, 0x05)));
    RepeatWrites(n, 0x0B, 0xA3);
    RepeatWrites(n, 0x0B, 0x05);
  }

  /** The daisy-chain bytes of `adgs1208_define_output`, device by device. */
  function ChainBytes(g: Gpio, mux: seq<byte>): (r: seq<Action>)
    ensures |r| == |mux|
  {
    if mux == [] then [] else ChainBytes(g, mux[..|mux| - 1]) + [Write([GetData(g, mux[|mux| - 1])])]
  }

  /** `adgs1208_define_output`: one addressed write to register 0x01 for a
      single device; otherwise one data byte per device in one chip-select
      window. */
  function OutputActions(g: Gpio, n: byte, mux: seq<byte>): seq<Action>
    requires |mux| >= n
  {
    if n == 1 then Framed(0x01, GetData(g, mux[0]))
    else [Cs(false)] + ChainBytes(g, mux[..n]) + [Cs(true)]
  }

  /** In a chain every device gets its own data byte, in index order. */
  lemma {:induction false} ChainWrites(g: Gpio, mux: seq<byte>)
    ensures Writes(ChainBytes(g, mux)) == seq(|mux|, i requires 0 <= i < |mux| => [GetData(g, mux[i])])
    decreases |mux|
  {
    if mux != [] {
      var init := mux[..|mux| - 1];
      ChainWrites(g, init);
      WritesAppend(ChainBytes(g, init), [Write([GetData(g, mux[|mux| - 1])])]);
      assert Writes([Write([GetData(g, mux[|mux| - 1])])]) == [[GetData(g, mux[|mux| - 1])]];
    }
  }

  /** The chip-select window of a chain write opens first and closes last,
      and no other pin moves in between. */
  lemma ChainWindow(g: Gpio, n: byte, mux: seq<byte>)
    requires |mux| >= n && n != 1
    ensures var r := OutputActions(g, n, mux);
            r[0] == Cs(false) && r[|r| - 1] == Cs(true)
            && forall i :: 0 < i < |r| - 1 ==> r[i].Write?
    ensures Writes(OutputActions(g, n, mux)) == seq(n as int, i requires 0 <= i < n => [GetData(g, mux[i])])
  {
    var body := ChainBytes(g, mux[..n]);
    ChainBody(g, mux[..n]);
    ChainWrites(g, mux[..n]);
    WritesAppend([Cs(false)], body);
    WritesAppend([Cs(false)] + body, [Cs(true)]);
    assert Writes([Cs(false)]) == [] by { assert [Cs(false)][..0] == []; }
    assert Writes([Cs(true)]) == [] by { assert [Cs(true)][..0] == []; }
  }

  lemma {:induction false} ChainBody(g: Gpio, mux: seq<byte>)
    ensures forall i :: 0 <= i < |mux| ==> ChainBytes(g, mux)[i].Write?
    decreases |mux|
  {
    if mux != [] {
      ChainBody(g, mux[..|mux| - 1]);
    }
  }

  /** One more device of the chain adds its data byte at the end. */
  lemma ChainStep(g: Gpio, mux: seq<byte>, idx: nat)
    requires idx < |mux|
    ensures ChainBytes(g, mux[..idx + 1]) == ChainBytes(g, mux[..idx]) + [Write([GetData(g, mux[idx])])]
  {
    assert mux[..idx + 1][..idx] == mux[..idx];
  }

  // --------------------------------------------------------------- handler

  /** `adgs1208_t` together with the `init_done` flag of its SPI handler. */
  class Adgs1208Device {
    var spiInitDone: bool
    var useRstnHw: bool
    var numDeviceDc: byte
    var gpio: Gpio
    var initDone: bool
    var log: seq<Action>

    constructor (spiInit: bool, rstnHw: bool, n: byte, g: Gpio)
      ensures spiInitDone == spiInit && useRstnHw == rstnHw && numDeviceDc == n && gpio == g
      ensures !initDone && log == []
    {
      spiInitDone, useRstnHw, numDeviceDc, gpio := spiInit, rstnHw, n, g;
      initDone := false;
      log := [];
    }

    /** `adgs1208_init`: SPI set-up when needed, the reset pin held low when
        used, the reset, the daisy-chain command; always true. */
    method Init() returns (r: bool)
      modifies this`log, this`spiInitDone, this`initDone
      ensures r && initDone && spiInitDone
      ensures log == old(log) + (if old(spiInitDone) then [] else [ConfigureSpi])
                     + (if useRstnHw then [Rst(false)] else [])
                     + ResetActions(useRstnHw, numDeviceDc) + EnableDaisyChain(numDeviceDc)
    {
      ghost var setup := (if spiInitDone then [] else [ConfigureSpi]) + (if useRstnHw then [Rst(false)] else []);
      if !spiInitDone {
        log := log + [ConfigureSpi];
        spiInitDone := true;
      }
      if useRstnHw {
        log := log + [Rst(false)];
      }
      ghost var log1 := log;
      assert log1 == old(log) + setup;
      ghost var resetPart := ResetActions(useRstnHw, numDeviceDc);
      Reset();
      ghost var log2 := log;
      assert log2 == log1 + resetPart;
      ghost var chainPart := EnableDaisyChain(numDeviceDc);
      EnableDaisyChainMethod();
      assert log == log2 + chainPart;
      assert log == old(log) + setup + resetPart + chainPart;
      initDone := true;
      r := true;
    }

    /** `adgs1208_enable_daisy_chain`. */
    method EnableDaisyChainMethod()
      modifies this`log
      ensures log == old(log) + EnableDaisyChain(numDeviceDc)
    {
      var idx := 0;
      while idx < numDeviceDc
        invariant 0 <= idx <= numDeviceDc
        invariant log == old(log) + Repeat(idx, Framed(0x25, 0x00))
      {
        log := log + [Cs(false), Write([0x25, 0x00]), Cs(true)];
        idx := idx + 1;
      }
    }

    /** `adgs1208_reset`; the SPI handler is configured first if it is not. */
    method Reset()
      modifies this`log, this`spiInitDone
      ensures spiInitDone
      ensures log == old(log) + (if old(spiInitDone) then [] else [ConfigureSpi]) + ResetActions(useRstnHw, numDeviceDc)
    {
      if !spiInitDone {
        log := log + [ConfigureSpi];
        spiInitDone := true;
      }
      ghost var log0 := log;
      if useRstnHw {
        var repeat := 0;
        while repeat < 2
          invariant 0 <= repeat <= 2
          invariant log == log0 + Repeat(repeat, [Rst(false), Rst(true)])
          invariant spiInitDone
        {
          log := log + [Rst(false), Rst(true)];
          repeat := repeat + 1;
        }
        assert log == log0 + ResetActions(true, numDeviceDc);
      } else {
        var idx := 0;
        while idx < numDeviceDc
          invariant 0 <= idx <= numDeviceDc
          invariant log == log0 + Repeat(idx, Framed(0x0B, 0xA3))
          invariant spiInitDone
        {
          log := log + [Cs(false), Write([0x0B, 0xA3]), Cs(true)];
          idx := idx + 1;
        }
        ghost var log1 := log;
        idx := 0;
        while idx < numDeviceDc
          invariant 0 <= idx <= numDeviceDc
          invariant log == log1 + Repeat(idx, Framed(0x0B, 0x05))
          invariant spiInitDone
        {
          log := log + [Cs(false), Write([0x0B, 0x05]), Cs(true)];
          idx := idx + 1;
        }
      }
    }

    /** `adgs1208_define_output`; `mux_data` holds one selection per device.
        The source falls off the end of this `bool` function without a
        return value, so no result is modelled. */
    method DefineOutput(mux: seq<byte>)
      requires |mux| >= numDeviceDc
      modifies this`log
      ensures log == old(log) + OutputActions(gpio, numDeviceDc, mux)
    {
      if numDeviceDc == 1 {
        log := log + [Cs(false), Write([0x01, GpioBits(gpio) + MuxCodeAsWritten(mux[0])]), Cs(true)];
      } else {
        log := log + [Cs(false)];
        ghost var log0 := log;
        var idx := 0;
        while idx < numDeviceDc
          invariant 0 <= idx <= numDeviceDc
          invariant log == log0 + ChainBytes(gpio, mux[..idx])
        {
          ChainStep(gpio, mux, idx);
          log := log + [Write([GetData(gpio, mux[idx])])];
          idx := idx + 1;
        }
        log := log + [Cs(true)];
        assert log == old(log) + ([Cs(false)] + ChainBytes(gpio, mux[..numDeviceDc]) + [Cs(true)]);
      }
    }
  }
}
