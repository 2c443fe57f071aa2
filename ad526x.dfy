/** Driver of the AD5260 (one channel, one data byte per transfer) and the
    AD5262 (two channels, a channel byte then a data byte) digital
    potentiometers. The header and the shared SPI send routine are not part
    of this model: each transfer is recorded with its bytes, and the result
    of the send routine is not modelled. The waits are not modelled. */
module Ad526x {
  import opened Bytes

  datatype Action =
    | ConfigureSpi
    | Send(bytes: seq<byte>)

  /** `AD526x_write_data`: the AD5262 frame when `device_mode` is set, the
      AD5260 frame otherwise (the channel is then dropped). */
  function WriteFrame(deviceMode: bool, chnnl: bool, data: byte): (r: seq<byte>)
    ensures deviceMode ==> |r| == 2 && r[1] == data && (r[0] == 1 <==> chnnl) && r[0] < 2
    ensures !deviceMode ==> r == [data]
  {
    if deviceMode then [if chnnl then 0x01 else 0x00, data] else [data]
  }

  /** The channel and data an AD5262 reads from a frame. */
  function Decode5262(f: seq<byte>): (bool, byte)
    requires |f| == 2
  {
    (f[0] % 2 == 1, f[1])
  }

  /** An AD5262 frame carries its channel and its data. */
  lemma Ad5262RoundTrip(chnnl: bool, data: byte)
    ensures Decode5262(WriteFrame(true, chnnl, data)) == (chnnl, data)
  {
  }

  /** `ad526x_soft_reset`: four times channel 0 then channel 1, data 0. */
  function SoftReset(deviceMode: bool, n: nat): (r: seq<Action>)
    ensures |r| == 2 * n
  {
    if n == 0 then []
    else SoftReset(deviceMode, n - 1) + [Send(WriteFrame(deviceMode, false, 0)), Send(WriteFrame(deviceMode, true, 0))]
  }

  /** Every transfer of the soft reset sets a wiper to zero, alternating
      channel 0 and channel 1. */
  lemma {:induction false} SoftResetZeroes(deviceMode: bool, n: nat, i: nat)
    requires i < 2 * n
    ensures SoftReset(deviceMode, n)[i] == Send(WriteFrame(deviceMode, i % 2 == 1, 0))
  {
    if i < 2 * (n - 1) {
      SoftResetZeroes(deviceMode, n - 1, i);
    }
  }

  /** `ad526x_define_shutdown`: the command 0x00 or 0x20 is passed as the
      boolean channel, so the frame carries "channel 1" when not shut down,
      and its data is 0 either way. */
  function ShutdownFrame(deviceMode: bool, shutdown: bool): seq<byte>
  {
    var cmd: byte := if shutdown then 0x00 else 0x20;
    WriteFrame(deviceMode, cmd != 0, 0x00)
  }

  /** The shutdown setting never reaches an AD5260, and reaches an AD5262
      only as the channel of a zero write. */
  lemma ShutdownCarriesNoCommand(shutdown: bool)
    ensures ShutdownFrame(false, shutdown) == [0]
    ensures ShutdownFrame(true, shutdown) == [if shutdown then 0 else 1, 0]
  {
  }

  /** `ad526x_device_t` together with the `init_done` flag of its SPI
      handler. */
  class Ad526xDevice {
    var spiInitDone: bool
    var deviceMode: bool
    var shutdown: bool
    var log: seq<Action>

    constructor (spiInit: bool, mode: bool, sd: bool)
      ensures spiInitDone == spiInit && deviceMode == mode && shutdown == sd && log == []
    {
      spiInitDone, deviceMode, shutdown := spiInit, mode, sd;
      log := [];
    }

    /** `AD526x_write_data` with `AD5260_write_data` / `AD5262_write_data`. */
    method WriteData(chnnl: bool, data: byte)
      modifies this`log
      ensures log == old(log) + [Send(WriteFrame(deviceMode, chnnl, data))]
    {
      if deviceMode {
        log := log + [Send([if chnnl then 0x01 else 0x00, data])];
      } else {
        log := log + [Send([data])];
      }
    }

    /** `ad526x_soft_reset`. */
    method SoftResetMethod() returns (r: bool)
      modifies this`log
      ensures r && log == old(log) + SoftReset(deviceMode, 4)
    {
      var ite := 0;
      while ite < 4
        invariant 0 <= ite <= 4
        invariant log == old(log) + SoftReset(deviceMode, ite)
      {
        WriteData(false, 0x00);
        WriteData(true, 0x00);
        ite := ite + 1;
      }
      r := true;
    }

    /** `ad526x_define_shutdown`. */
    method DefineShutdown()
      modifies this`log
      ensures log == old(log) + [Send(ShutdownFrame(deviceMode, shutdown))]
    {
      var cmd: byte := if shutdown then 0x00 else 0x20;
      WriteData(cmd != 0, 0x00);
    }

    /** `ad526x_define_output`. */
    method DefineOutput(chnnl: bool, position: byte)
      modifies this`log
      ensures log == old(log) + [Send(WriteFrame(deviceMode, chnnl, position))]
    {
      WriteData(chnnl, position);
    }

    /** `ad526x_init`: SPI set-up when needed, the soft reset, the shutdown
        setting; always true. */
    method Init() returns (r: bool)
      modifies this`log, this`spiInitDone
      ensures r && spiInitDone
      ensures log == old(log) + (if old(spiInitDone) then [] else [ConfigureSpi])
                     + SoftReset(deviceMode, 4) + [Send(ShutdownFrame(deviceMode, shutdown))]
    {
      if !spiInitDone {
        log := log + [ConfigureSpi];
        spiInitDone := true;
      }
      var _ := SoftResetMethod();
      DefineShutdown();
      r := true;
    }
  }
}
