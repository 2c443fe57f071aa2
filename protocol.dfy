/** The host<->MCU link end to end: the host's three-byte frames pass the
    firmware's receive FIFO and reach the command dispatcher; the firmware's
    reply frames are read by the host's decoders. The firmware's main loop is
    not part of this model; it is taken to call the dispatcher with the FIFO's
    buffer, length and ready flag after every received byte, which is what
    the two functions' signatures are made for. */
module Protocol {
  import opened Bytes
  import opened Wrappers
  import opened Interface
  import opened UsbFifo
  import Rpc = RpcCallbacks
  import Host = McuApi
  import McuConv
  import PyStr
  import DaqSample

  // ------------------------------------------------------------------
  // The firmware's receive path
  // ------------------------------------------------------------------

  /** The receive FIFO and the dispatcher's board state. */
  datatype Mcu = Mcu(fifo: FifoState, board: Rpc.Board)

  predicate ValidMcu(m: Mcu)
  {
    ValidState(m.fifo) && |m.fifo.buf| >= 3
  }

  /** One received byte: the FIFO step, then `apply_rpc_callback` on the
      FIFO's buffer, length and ready flag. */
  function ReceiveByte(m: Mcu, env: Rpc.Env, c: byte): (r: Mcu)
    requires ValidMcu(m) && Rpc.ValidEnv(env)
    ensures ValidMcu(r) && r.fifo == Step(m.fifo, c)
    ensures !r.fifo.ready ==> r.board == m.board
  {
    var f := Step(m.fifo, c);
    Mcu(f, Rpc.Apply(m.board, f.buf, f.length as nat, f.ready, env))
  }

  /** A sequence of received bytes. */
  function ReceiveBytes(m: Mcu, env: Rpc.Env, bs: seq<byte>): (r: Mcu)
    requires ValidMcu(m) && Rpc.ValidEnv(env)
    ensures ValidMcu(r) && r.fifo == Feed(m.fifo, bs)
    decreases |bs|
  {
    if |bs| == 0 then m else ReceiveBytes(ReceiveByte(m, env, bs[0]), env, bs[1..])
  }

  /** The FIFO waits at the top of its three slots between frames. */
  predicate AtFrameStart(m: Mcu)
  {
    ValidMcu(m) && m.fifo.length == 3 && m.fifo.position == 2
  }

  /** A frame the host builds with `convert(head, data)` lands in the buffer
      as head, high byte, low byte; the dispatcher runs exactly once, on the
      third byte, and the FIFO is back at the top. */
  lemma FrameReachesDispatcher(m: Mcu, env: Rpc.Env, head: byte, data: nat)
    requires AtFrameStart(m) && Rpc.ValidEnv(env) && data < 65536
    ensures Convert(Host.Device, head, data).Ok?
    ensures var r := ReceiveBytes(m, env, Convert(Host.Device, head, data).value);
            AtFrameStart(r)
            && r.fifo.buf[..3] == [head, data / 256, data % 256]
            && r.board == Rpc.Dispatch(m.board, r.fifo.buf, 3, env)
  {
    ConvertThreeBytes(head, data);
    var f := Convert(Host.Device, head, data).value;
    var m1 := ReceiveByte(m, env, f[0]);
    var m2 := ReceiveByte(m1, env, f[1]);
    var m3 := ReceiveByte(m2, env, f[2]);
    assert f[1..][1..] == [f[2]] && [f[2]][1..] == [];
    assert ReceiveBytes(m, env, f) == ReceiveBytes(m1, env, f[1..]);
    assert ReceiveBytes(m1, env, f[1..]) == ReceiveBytes(m2, env, [f[2]]);
    assert ReceiveBytes(m2, env, [f[2]]) == ReceiveBytes(m3, env, []) == m3;
    assert m3.fifo.buf[..3] == [head, data / 256, data % 256];
  }

  /** The dispatcher reads the same three bytes however long the buffer. */
  lemma DispatchOnFrame(b: Rpc.Board, buf: seq<byte>, env: Rpc.Env, head: byte, data: nat)
    requires Rpc.ValidEnv(env) && |buf| >= 3 && data < 65536
    requires buf[..3] == [head, data / 256, data % 256]
    ensures Rpc.Dispatch(b, buf, 3, env) == Rpc.Dispatch(b, [head, data / 256, data % 256], 3, env)
  {
    var g: seq<byte> := [head, data / 256, data % 256];
    assert buf[0] == g[0] && buf[..3] == g[..3];
    assert Rpc.RequestedHz(buf) == Rpc.RequestedHz(g) by {
      assert buf[1] == g[1] && buf[2] == g[2];
    }
  }

  /** The firmware's answer to one host frame. */
  lemma FrameEffect(m: Mcu, env: Rpc.Env, head: byte, data: nat)
    requires AtFrameStart(m) && Rpc.ValidEnv(env) && data < 65536
    ensures Convert(Host.Device, head, data).Ok?
    ensures ReceiveBytes(m, env, Convert(Host.Device, head, data).value).board
            == Rpc.Dispatch(m.board, [head, data / 256, data % 256], 3, env)
  {
    FrameReachesDispatcher(m, env, head, data);
    var r := ReceiveBytes(m, env, Convert(Host.Device, head, data).value);
    DispatchOnFrame(m.board, r.fifo.buf, env, head, data);
  }

  // ------------------------------------------------------------------
  // Echo round trip
  // ------------------------------------------------------------------

  /** The reply the firmware gives to an echo chunk: the command byte and the
      chunk's two bytes, high first. */
  function EchoReply(c: nat): (r: seq<byte>)
    requires c < 65536
    ensures |r| == 3 && r[0] == 0 && r[1..] == ChunkBytes(c)
  {
    [0] + ChunkBytes(c)
  }

  /** Each echo frame of the host comes back as `EchoReply` of its chunk. */
  lemma FirmwareEchoesChunk(m: Mcu, env: Rpc.Env, c: nat)
    requires AtFrameStart(m) && Rpc.ValidEnv(env) && c < 65536
    ensures Convert(Host.Device, Host.CmdEcho, c).Ok?
    ensures ReceiveBytes(m, env, Convert(Host.Device, Host.CmdEcho, c).value).board.log
            == m.board.log + [Rpc.Sent(EchoReply(c))]
  {
    FrameEffect(m, env, Host.CmdEcho, c);
    assert [Host.CmdEcho, c / 256, c % 256][..3] == EchoReply(c);
  }

  lemma {:induction false} ChunksBytesSnoc(cs: seq<nat>, c: nat)
    requires (forall k :: 0 <= k < |cs| ==> cs[k] < 65536) && c < 65536
    ensures ChunksBytes(cs + [c]) == ChunksBytes(cs) + ChunkBytes(c)
    decreases |cs|
  {
    if |cs| == 0 {
      assert [c][1..] == [];
    } else {
      assert (cs + [c])[1..] == cs[1..] + [c];
      ChunksBytesSnoc(cs[1..], c);
    }
  }

  /** With the firmware's echo replies, the first n exchanges of `echo`
      collect the chunks' bytes. */
  lemma {:induction false} EchoPrefixCollects(chunks: seq<nat>, replies: seq<seq<byte>>, n: nat)
    requires n <= |chunks| <= |replies|
    requires forall k :: 0 <= k < |chunks| ==> chunks[k] < 65536 && replies[k] == EchoReply(chunks[k])
    ensures Host.EchoPrefix(chunks, replies, n) == Ok(ChunksBytes(chunks[..n]))
    ensures n == |chunks| ==> Host.EchoPrefix(chunks, replies, n) == Ok(ChunksBytes(chunks))
    decreases n
  {
    assert chunks[..|chunks|] == chunks;
    if n == 0 {
      assert chunks[..0] == [];
    } else {
      EchoPrefixCollects(chunks, replies, n - 1);
      assert chunks[..n] == chunks[..n - 1] + [chunks[n - 1]];
      ChunksBytesSnoc(chunks[..n - 1], chunks[n - 1]);
    }
  }

  /** `echo(s)` returns `s` for an ASCII string when the device answers each
      frame as the firmware's echo does. */
  lemma EchoRoundTrip(s: string, replies: seq<seq<byte>>)
    requires IsAscii(s)
    requires var chunks := SerializeString(s, Host.EchoPadding(s));
             |replies| == |chunks|
             && forall k :: 0 <= k < |chunks| ==> replies[k] == [0, chunks[k] / 256 % 256, chunks[k] % 256]
    ensures Host.EchoSpec(s, replies) == Ok(s)
  {
    var pad := Host.EchoPadding(s);
    var chunks := SerializeString(s, pad);
    StringRoundTrip(s);
    EchoCollectsAll(chunks, replies);
  }

  /** All exchanges of `echo` with the firmware's echo replies. */
  lemma EchoCollectsAll(chunks: seq<nat>, replies: seq<seq<byte>>)
    requires |replies| == |chunks|
    requires forall k :: 0 <= k < |chunks| ==> chunks[k] < 65536 && replies[k] == [0, chunks[k] / 256 % 256, chunks[k] % 256]
    ensures Host.EchoPrefix(chunks, replies, |chunks|) == Ok(ChunksBytes(chunks))
  {
    forall k | 0 <= k < |chunks|
      ensures chunks[k] < 65536 && replies[k] == EchoReply(chunks[k])
    {
      EchoReplyBytes(chunks[k]);
    }
    EchoPrefixCollects(chunks, replies, |chunks|);
  }

  /** The echo reply spelled out byte by byte, as the firmware writes it. */
  lemma EchoReplyBytes(c: nat)
    requires c < 65536
    ensures EchoReply(c) == [0, c / 256 % 256, c % 256]
  {
    assert c / 256 < 256;
  }

  // ------------------------------------------------------------------
  // Command tables
  // ------------------------------------------------------------------

  /** The operations both sides name. */
  datatype Op =
    | OpEcho | OpReset | OpClockSys | OpStateSys | OpStatePin | OpRuntime | OpFirmware
    | OpEnableLed | OpDisableLed | OpToggleLed | OpStartDaq | OpStopDaq | OpUpdateDaq

  /** The code the host writes for each operation. */
  function HostCodeAsWritten(op: Op): byte
  {
    match op
    case OpEcho => Host.CmdEcho
    case OpReset => Host.CmdReset
    case OpClockSys => Host.CmdClockSys
    case OpStateSys => Host.CmdStateSys
    case OpStatePin => Host.CmdStatePin
    case OpRuntime => Host.CmdRuntime
    case OpFirmware => Host.CmdFirmware
    case OpEnableLed => Host.CmdEnableLed
    case OpDisableLed => Host.CmdDisableLed
    case OpToggleLed => Host.CmdToggleLed
    case OpStartDaq => Host.CmdStartDaq
    case OpStopDaq => Host.CmdStopDaq
    case OpUpdateDaq => Host.CmdUpdateDaq
  }

  /** The code the firmware's dispatcher gives each operation. */
  function FirmwareCode(op: Op): byte
  {
    match op
    case OpEcho => Rpc.CmdEcho
    case OpReset => Rpc.CmdReset
    case OpClockSys => Rpc.CmdClockSys
    case OpStateSys => Rpc.CmdStateSys
    case OpStatePin => Rpc.CmdStatePin
    case OpRuntime => Rpc.CmdRuntime
    case OpFirmware => Rpc.CmdFirmware
    case OpEnableLed => Rpc.CmdEnableLed
    case OpDisableLed => Rpc.CmdDisableLed
    case OpToggleLed => Rpc.CmdToggleLed
    case OpStartDaq => Rpc.CmdStartDaq
    case OpStopDaq => Rpc.CmdStopDaq
    case OpUpdateDaq => Rpc.CmdUpdateDaq
  }

  predicate IsQuery(op: Op)
  {
    op.OpEcho? || op.OpReset? || op.OpClockSys? || op.OpStateSys? || op.OpStatePin? || op.OpRuntime? || op.OpFirmware?
  }

  /** The two tables agree up to the firmware query and are one apart from
      the LED commands on, where the firmware has the temperature query. */
  lemma TablesShifted(op: Op)
    ensures IsQuery(op) ==> HostCodeAsWritten(op) == FirmwareCode(op)
    ensures !IsQuery(op) ==> FirmwareCode(op) == HostCodeAsWritten(op) + 1
  {
  }

  /** As written, `enable_led` makes the firmware answer a temperature query
      and leaves the LED as it was. */
  lemma HostEnableLedQueriesTemperature(m: Mcu, env: Rpc.Env)
    requires AtFrameStart(m) && Rpc.ValidEnv(env)
    ensures Convert(Host.Device, HostCodeAsWritten(OpEnableLed), 0).Ok?
    ensures var r := ReceiveBytes(m, env, Convert(Host.Device, HostCodeAsWritten(OpEnableLed), 0).value);
            r.board.led == m.board.led
            && r.board.log == m.board.log + [Rpc.Sent(Rpc.TempReply(env.tempRaw))]
  {
    FrameEffect(m, env, HostCodeAsWritten(OpEnableLed), 0);
  }

  /** As written, `stop_daq` makes the firmware start sampling. */
  lemma HostStopDaqStartsSampling(m: Mcu, env: Rpc.Env)
    requires AtFrameStart(m) && Rpc.ValidEnv(env)
    ensures Convert(Host.Device, HostCodeAsWritten(OpStopDaq), 0).Ok?
    ensures var r := ReceiveBytes(m, env, Convert(Host.Device, HostCodeAsWritten(OpStopDaq), 0).value);
            r.board.systemState == Rpc.StateDaq
            && r.board.log == m.board.log + [Rpc.SamplingStarted]
  {
    FrameEffect(m, env, HostCodeAsWritten(OpStopDaq), 0);
  }

  /** The host table with the temperature query accounted for. */
  function HostCode(op: Op): (r: byte)
  {
    match op
    case OpEcho => 0
    case OpReset => 1
    case OpClockSys => 2
    case OpStateSys => 3
    case OpStatePin => 4
    case OpRuntime => 5
    case OpFirmware => 6
    case OpEnableLed => 8
    case OpDisableLed => 9
    case OpToggleLed => 10
    case OpStartDaq => 11
    case OpStopDaq => 12
    case OpUpdateDaq => 13
  }

  /** The corrected table names each operation by the firmware's code, and no
      two operations share a code. */
  lemma HostCodeMatchesFirmware(op: Op, op': Op)
    ensures HostCode(op) == FirmwareCode(op)
    ensures HostCode(op) == HostCode(op') ==> op == op'
  {
  }

  /** With the corrected codes the LED commands do what they are named for. */
  lemma EnableLedArrives(m: Mcu, env: Rpc.Env)
    requires AtFrameStart(m) && Rpc.ValidEnv(env)
    ensures Convert(Host.Device, HostCode(OpEnableLed), 0).Ok?
    ensures ReceiveBytes(m, env, Convert(Host.Device, HostCode(OpEnableLed), 0).value).board == m.board.(led := true)
  {
    FrameEffect(m, env, HostCode(OpEnableLed), 0);
  }

  lemma DisableLedArrives(m: Mcu, env: Rpc.Env)
    requires AtFrameStart(m) && Rpc.ValidEnv(env)
    ensures Convert(Host.Device, HostCode(OpDisableLed), 0).Ok?
    ensures ReceiveBytes(m, env, Convert(Host.Device, HostCode(OpDisableLed), 0).value).board == m.board.(led := false)
  {
    FrameEffect(m, env, HostCode(OpDisableLed), 0);
  }

  lemma ToggleLedArrives(m: Mcu, env: Rpc.Env)
    requires AtFrameStart(m) && Rpc.ValidEnv(env)
    ensures Convert(Host.Device, HostCode(OpToggleLed), 0).Ok?
    ensures ReceiveBytes(m, env, Convert(Host.Device, HostCode(OpToggleLed), 0).value).board == m.board.(led := !m.board.led)
  {
    FrameEffect(m, env, HostCode(OpToggleLed), 0);
  }

  /** With the corrected codes `start_daq` starts sampling, and the host then
      reads the state as "DAQ". */
  lemma StartDaqArrives(m: Mcu, env: Rpc.Env)
    requires AtFrameStart(m) && Rpc.ValidEnv(env)
    ensures Convert(Host.Device, HostCode(OpStartDaq), 0).Ok?
    ensures var r := ReceiveBytes(m, env, Convert(Host.Device, HostCode(OpStartDaq), 0).value);
            r.board.log == m.board.log + [Rpc.SamplingStarted]
            && Host.SystemState(Rpc.StateSystemReply(r.board.systemState)) == Ok("DAQ")
  {
    FrameEffect(m, env, HostCode(OpStartDaq), 0);
  }

  /** With the corrected codes `stop_daq` stops sampling, and the host then
      reads the state as "IDLE". */
  lemma StopDaqArrives(m: Mcu, env: Rpc.Env)
    requires AtFrameStart(m) && Rpc.ValidEnv(env)
    ensures Convert(Host.Device, HostCode(OpStopDaq), 0).Ok?
    ensures var r := ReceiveBytes(m, env, Convert(Host.Device, HostCode(OpStopDaq), 0).value);
            r.board.log == m.board.log + [Rpc.SamplingStopped]
            && Host.SystemState(Rpc.StateSystemReply(r.board.systemState)) == Ok("IDLE")
  {
    FrameEffect(m, env, HostCode(OpStopDaq), 0);
  }

  // ------------------------------------------------------------------
  // Sampling rate
  // ------------------------------------------------------------------

  /** As written, the host accepts every rate in [0, 1); its integer part 0
      reaches the firmware, whose period `-1000000 / 0.0` is undefined. */
  lemma HostRateBelowOneUndefined(m: Mcu, env: Rpc.Env, rate: real)
    requires AtFrameStart(m) && Rpc.ValidEnv(env) && 0.0 <= rate < 1.0
    ensures Host.RateAccepted(rate) && rate.Floor == 0
    ensures var r := ReceiveBytes(m, env, Convert(Host.Device, HostCode(OpUpdateDaq), rate.Floor).value);
            r.board.log == m.board.log + [Rpc.RateUpdated(None)]
  {
    FrameEffect(m, env, HostCode(OpUpdateDaq), 0);
  }

  /** The range check with the lower bound at 1 Hz. */
  predicate RateAcceptedCorrected(rate: real)
  {
    1.0 <= rate <= 10000.0
  }

  /** Every rate the corrected check accepts reaches the timer as a defined,
      negative period of whole microseconds per sample of its integer part. */
  lemma RateReachesTimer(m: Mcu, env: Rpc.Env, rate: real)
    requires AtFrameStart(m) && Rpc.ValidEnv(env) && RateAcceptedCorrected(rate)
    ensures Host.RateAccepted(rate) && 1 <= rate.Floor < 65536
    ensures var r := ReceiveBytes(m, env, Convert(Host.Device, HostCode(OpUpdateDaq), rate.Floor).value);
            var hz := rate.Floor;
            exists p: int :: r.board.log == m.board.log + [Rpc.RateUpdated(Some(p))]
                             && p < 0 && -p * hz <= 1000000 < (-p + 1) * hz
  {
    var hz := rate.Floor;
    FrameEffect(m, env, HostCode(OpUpdateDaq), hz);
    var buf: seq<byte> := [HostCode(OpUpdateDaq), hz / 256, hz % 256];
    assert Rpc.RequestedHz(buf) == hz;
    Rpc.PeriodBounds(hz);
    var p := Rpc.PeriodUs(hz).value;
    assert ReceiveBytes(m, env, Convert(Host.Device, HostCode(OpUpdateDaq), hz).value).board.log
           == m.board.log + [Rpc.RateUpdated(Some(p))];
  }

  // ------------------------------------------------------------------
  // Replies read by the host
  // ------------------------------------------------------------------

  /** The clock reply reads back as the clock in kHz rounded down to a
      multiple of 10, as long as it fits the 16-bit field. */
  lemma ClockReplyDecodes(clockHz: nat)
    requires clockHz < 655360000
    ensures var r := Host.SystemClockKhz(Rpc.ClockReply(clockHz));
            r == Ok(10 * (clockHz / 10000)) && r.value <= clockHz / 1000 < r.value + 10
  {
    DivDiv(clockHz, 1000, 10);
  }

  /** The state reply reads back as the state's name. */
  lemma StateReplyDecodes(state: byte)
    requires state < 6
    ensures Host.SystemState(Rpc.StateSystemReply(state)) == Ok(McuConv.StateNames[state])
    ensures Host.SystemState(Rpc.StateSystemReply(Rpc.StateDaq)) == Ok("DAQ")
    ensures Host.SystemState(Rpc.StateSystemReply(Rpc.StateIdle)) == Ok("IDLE")
  {
  }

  /** The pin reply reads back as the user LED exactly when it is on. */
  lemma PinReplyDecodes(led: bool)
    ensures Host.PinState(Rpc.StatePinReply(led)) == Ok(if led then "LED_USER" else "NONE")
  {
  }

  /** The runtime reply reads back as the runtime counter. */
  lemma RuntimeReplyDecodes(runtime: nat)
    requires runtime < Pow256(8)
    ensures Host.RuntimeMicros(Rpc.RuntimeFrame(Rpc.CmdRuntime, runtime)) == Ok(runtime)
  {
  }

  /** A version string "M.m..." with single digits M and m reads back as "M.m". */
  lemma FirmwareReplyDecodes(version: string)
    requires |version| >= 3 && '0' <= version[0] <= '9' && '0' <= version[2] <= '9'
    ensures Host.FirmwareVersion(Rpc.FirmwareReply(version)) == Ok([version[0], '.', version[2]])
  {
    var r := Rpc.FirmwareReply(version);
    assert r[1] < 10 && r[2] < 10;
    assert PyStr.DecimalString(r[1]) == [version[0]];
    assert PyStr.DecimalString(r[2]) == [version[2]];
    assert [version[0]] + "." + [version[2]] == [version[0], '.', version[2]];
  }

  /** The firmware's DAQ frame is 14 bytes and the host reads 15: with the
      start marker 0xA0 and a following 0xFF, the runtime and the iteration
      arrive intact, but the host's two channel fields mix the channel id,
      the value and the end marker. */
  lemma DaqLayoutsDisagree(d: DaqSample.DaqData)
    requires DaqSample.ValidData(d) && d.packetId == 0xA0
    ensures Host.PrepareDaqForLsl(DaqSample.DaqFrame(d) + [0xFF])
            == [d.runtime, d.iteration, d.channelId + 256 * (d.value % 256), d.value / 256 + 256 * 0xFF]
  {
    var f := DaqSample.DaqFrame(d);
    var g := f + [0xFF];
    DaqSample.DaqFrameDecodes(d);
    assert Host.Slice(g, 2, 10) == f[2..10];
    assert Host.Slice(g, 10, 12) == [d.channelId, d.value % 256];
    assert Host.Slice(g, 12, 14) == [d.value / 256, 0xFF];
    LeValue2([d.channelId, d.value % 256]);
    LeValue2([d.value / 256, 0xFF]);
  }
}
