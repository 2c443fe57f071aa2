/** Driver of the AD5141 dual digital potentiometer on SPI. Each command is
    two bytes: a command nibble and an address nibble, then a data byte.
    The header is not part of this model. The SPI set-up call is recorded,
    not modelled. */
module Ad5141Spi {
  import opened Bytes

  datatype Action =
    | ConfigureSpi          // `configure_spi_module` of the shared SPI handler
    | Write(bytes: seq<byte>)

  /** The software-reset command. */
  const ResetFrame: seq<byte> := [0xB0, 0x00]

  /** The shutdown command of `ad5141_spi_control_shutdown`: one channel
      when exactly one is enabled, both channels (address 8) otherwise, with
      data 0 (normal operation) unless both are disabled. */
  function ShutdownFrame(enableRdac0: bool, enableRdac1: bool): (r: seq<byte>)
    ensures |r| == 2 && r[0] / 16 == 0xC
  {
    if enableRdac0 && !enableRdac1 then [0xC0, DataBit(enableRdac0)]
    else if !enableRdac0 && enableRdac1 then [0xC1, DataBit(enableRdac1)]
    else [0xC8, DataBit(enableRdac0 && enableRdac1)]
  }

  /** The data byte of a shutdown command: 0x00 to run, 0x01 to shut down. */
  function DataBit(enable: bool): (r: byte)
    ensures r < 2 && (r == 0 <==> enable)
  {
    if enable then 0x00 else 0x01
  }

  /** The frame of `ad5141_spi_define_level`: "write RDAC" to the selected
      channel. */
  function LevelFrame(rdacSel: byte, potPosition: byte): (r: seq<byte>)
    ensures |r| == 2 && r[0] / 16 == 1 && r[0] % 16 == rdacSel % 16 && r[1] == potPosition
  {
    [0x10 + rdacSel % 16, potPosition]
  }

  // --------------------------------------------- the potentiometer's state

  /** The two wiper settings and shutdown flags of the device. */
  datatype Pot = Pot(wiper0: byte, wiper1: byte, shutdown0: bool, shutdown1: bool)

  /** What a write-RDAC or software-shutdown frame does to the device, by the
      AD5141 data sheet's command table: address 0 is the first channel, 1
      the second, 8 both; data bit 0 of a shutdown command selects shutdown.
      Other frames are not interpreted. */
  function Effect(f: seq<byte>, p: Pot): Pot
    requires |f| == 2
  {
    var cmd, adr := f[0] / 16, f[0] % 16;
    if cmd == 1 && adr == 0 then p.(wiper0 := f[1])
    else if cmd == 1 && adr == 1 then p.(wiper1 := f[1])
    else if cmd == 0xC && adr == 0 then p.(shutdown0 := f[1] % 2 == 1)
    else if cmd == 0xC && adr == 1 then p.(shutdown1 := f[1] % 2 == 1)
    else if cmd == 0xC && adr == 8 then p.(shutdown0 := f[1] % 2 == 1, shutdown1 := f[1] % 2 == 1)
    else p
  }

  /** The four shutdown settings: both enabled brings both channels back,
      both disabled shuts both down, and enabling a single channel brings
      that one back and leaves the other as it was. */
  lemma ShutdownTable(p: Pot)
    ensures Effect(ShutdownFrame(true, true), p) == p.(shutdown0 := false, shutdown1 := false)
    ensures Effect(ShutdownFrame(false, false), p) == p.(shutdown0 := true, shutdown1 := true)
    ensures Effect(ShutdownFrame(true, false), p) == p.(shutdown0 := false)
    ensures Effect(ShutdownFrame(false, true), p) == p.(shutdown1 := false)
  {
  }

  /** After initialisation the level command moves the selected wiper, and
      only that one, for the two channels the device has. */
  lemma LevelMovesWiper(p: Pot, rdacSel: byte, potPosition: byte)
    requires rdacSel < 2
    ensures var q := Effect(LevelFrame(rdacSel, potPosition), p);
            (if rdacSel == 0 then q.wiper0 == potPosition && q.wiper1 == p.wiper1
             else q.wiper1 == potPosition && q.wiper0 == p.wiper0)
            && q.shutdown0 == p.shutdown0 && q.shutdown1 == p.shutdown1
  {
  }

  /** `ad5141_spi_init` ends with both channels running, whatever the
      device's shutdown state before. */
  lemma InitLeavesChannelsOn(p: Pot)
    ensures var q := Effect(ShutdownFrame(true, true), p); !q.shutdown0 && !q.shutdown1
  {
  }

  /** `ad5141_spi_t` together with the `init_done` flag of its SPI handler. */
  class Ad5141SpiDevice {
    var spiInitDone: bool
    var initDone: bool
    var log: seq<Action>

    constructor (spiInit: bool)
      ensures spiInitDone == spiInit && !initDone && log == []
    {
      spiInitDone := spiInit;
      initDone := false;
      log := [];
    }

    /** `ad5141_spi_reset_handler_params`. */
    method ResetHandlerParams()
      modifies this`initDone
      ensures !initDone
    {
      initDone := false;
    }

    /** The SPI set-up each command starts with when the handler is not yet
        configured. */
    method EnsureSpi()
      modifies this`log, this`spiInitDone
      ensures spiInitDone
      ensures log == old(log) + (if old(spiInitDone) then [] else [ConfigureSpi])
    {
      if !spiInitDone {
        log := log + [ConfigureSpi];
        spiInitDone := true;
      }
    }

    /** `ad5141_spi_reset_software`: the device must be initialised again
        before a level is accepted. */
    method ResetSoftware() returns (r: bool)
      modifies this
      ensures r && !initDone && spiInitDone
      ensures log == old(log) + (if old(spiInitDone) then [] else [ConfigureSpi]) + [Write(ResetFrame)]
    {
      EnsureSpi();
      ResetHandlerParams();
      log := log + [Write([0xB0, 0x00])];
      r := true;
    }

    /** `ad5141_spi_control_shutdown`. */
    method ControlShutdown(enableRdac0: bool, enableRdac1: bool) returns (r: bool)
      modifies this`log, this`spiInitDone
      ensures r && spiInitDone
      ensures log == old(log) + (if old(spiInitDone) then [] else [ConfigureSpi]) + [Write(ShutdownFrame(enableRdac0, enableRdac1))]
    {
      EnsureSpi();
      var b0: byte, b1: byte;
      if enableRdac0 && !enableRdac1 {
        b0, b1 := 0xC0, DataBit(enableRdac0);
      } else if !enableRdac0 && enableRdac1 {
        b0, b1 := 0xC1, DataBit(enableRdac1);
      } else {
        b0, b1 := 0xC8, DataBit(enableRdac0 && enableRdac1);
      }
      log := log + [Write([b0, b1])];
      r := true;
    }

    /** `ad5141_spi_init`: the reset frame and "both channels on", then
        ready. */
    method Init() returns (r: bool)
      modifies this
      ensures r && initDone && spiInitDone
      ensures log == old(log) + (if old(spiInitDone) then [] else [ConfigureSpi])
                     + [Write(ResetFrame), Write(ShutdownFrame(true, true))]
    {
      EnsureSpi();
      var _ := ResetSoftware();
      var _ := ControlShutdown(true, true);
      initDone := true;
      r := true;
    }

    /** `ad5141_spi_define_level`: refused, with nothing sent, until the
        device is initialised. */
    method DefineLevel(rdacSel: byte, potPosition: byte) returns (r: bool)
      modifies this`log
      ensures r == initDone
      ensures log == old(log) + (if initDone then [Write(LevelFrame(rdacSel, potPosition))] else [])
    {
      if initDone {
        log := log + [Write([0x10 + rdacSel % 16, potPosition])];
        r := true;
      } else {
        r := false;
      }
    }
  }
}
