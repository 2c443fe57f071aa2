/** The host's device API (`DeviceAPI`): command numbers, the DAQ frame
    decoder, the reply decoders, the echo exchange and the sampling-rate
    update. Serial replies are inputs; every frame the API writes is recorded. */
module McuApi {
  import opened Wrappers
  import opened Bytes
  import opened Interface
  import McuConv
  import PyStr

  /** The command numbers the host sends. */
  const CmdEcho := 0
  const CmdReset := 1
  const CmdClockSys := 2
  const CmdStateSys := 3
  const CmdStatePin := 4
  const CmdRuntime := 5
  const CmdFirmware := 6
  const CmdEnableLed := 7
  const CmdDisableLed := 8
  const CmdToggleLed := 9
  const CmdStartDaq := 10
  const CmdStopDaq := 11
  const CmdUpdateDaq := 12

  /** One head byte and two data bytes per command. */
  const Device := InterfaceSerial(1, 2)

  /** Python `d[a:b]` for 0 <= a <= b: clipped to the available bytes. */
  function Slice(d: seq<byte>, a: nat, b: nat): (r: seq<byte>)
    requires a <= b
    ensures b <= |d| ==> r == d[a..b]
    ensures |r| <= b - a
  {
    if |d| <= a then [] else if |d| <= b then d[a..] else d[a..b]
  }

  /** `_thread_prepare_daq_for_lsl` on the bytes read: empty list for an empty
      read or wrong sentinels, otherwise [timestamp, index, channel 0, channel 1]. */
  function PrepareDaqForLsl(data: seq<byte>): (r: seq<nat>)
    ensures |data| == 0 ==> r == []
    ensures |data| > 0 && (data[0] != 0xA0 || data[|data| - 1] != 0xFF) ==> r == []
    ensures |data| > 0 && data[0] == 0xA0 && data[|data| - 1] == 0xFF ==>
              |data| >= 2 && r == [LeValue(Slice(data, 2, 10)), data[1], LeValue(Slice(data, 10, 12)), LeValue(Slice(data, 12, 14))]
  {
    if |data| == 0 then []
    else if data[0] != 0xA0 || data[|data| - 1] != 0xFF then []
    else [LeValue(Slice(data, 2, 10)), data[1], LeValue(Slice(data, 10, 12)), LeValue(Slice(data, 12, 14))]
  }

  /** The 15-byte frame layout the decoder expects. */
  function HostDaqFrame(index: byte, timestamp: nat, ch0: nat, ch1: nat): (r: seq<byte>)
    requires timestamp < Pow256(8) && ch0 < 65536 && ch1 < 65536
    ensures |r| == 15 && r[0] == 0xA0 && r[14] == 0xFF
  {
    [0xA0, index] + (LeBytes(timestamp, 8) + (LeBytes(ch0, 2) + (LeBytes(ch1, 2) + [0xFF])))
  }

  /** The decoder reads back every field of its own layout. */
  lemma DecodeHostDaqFrame(index: byte, timestamp: nat, ch0: nat, ch1: nat)
    requires timestamp < Pow256(8) && ch0 < 65536 && ch1 < 65536
    ensures PrepareDaqForLsl(HostDaqFrame(index, timestamp, ch0, ch1)) == [timestamp, index, ch0, ch1]
  {
    var f := HostDaqFrame(index, timestamp, ch0, ch1);
    assert f[2..10] == LeBytes(timestamp, 8);
    assert f[10..12] == LeBytes(ch0, 2);
    assert f[12..14] == LeBytes(ch1, 2);
    LeRoundTrip(timestamp, 8);
    LeRoundTrip(ch0, 2);
    LeRoundTrip(ch1, 2);
  }

  /** The length is not checked: the two sentinels alone decode, the short
      slices reading as 0. */
  lemma ShortFrameDecodes()
    ensures PrepareDaqForLsl([0xA0, 0xFF]) == [0, 255, 0, 0]
  {
    assert Slice([0xA0, 0xFF], 2, 10) == [];
  }

  /** `ret[0]` on a reply, checked against the expected header; an empty
      reply raises IndexError, a wrong header ValueError. */
  function CheckHeader(ret: seq<byte>, header: byte): (r: Result<seq<byte>>)
    ensures r.Ok? <==> |ret| > 0 && ret[0] == header
    ensures r.Err? ==> r.error == (if |ret| == 0 then IndexError else ValueError)
    ensures r.Ok? ==> r.value == ret[1..]
  {
    if |ret| == 0 then Err(IndexError)
    else if ret[0] != header then Err(ValueError)
    else Ok(ret[1..])
  }

  /** `_get_system_clock_khz`: ten times the little-endian payload. */
  function SystemClockKhz(ret: seq<byte>): (r: Result<nat>)
    ensures r.Ok? <==> |ret| > 0 && ret[0] == CmdClockSys
    ensures r.Ok? ==> r.value == 10 * LeValue(ret[1..]) && r.value % 10 == 0
  {
    match CheckHeader(ret, CmdClockSys)
    case Err(e) => Err(e)
    case Ok(p) => Ok(10 * LeValue(p))
  }

  /** `_get_runtime_sec` before the scaling by 1e-6: the runtime in microseconds. */
  function RuntimeMicros(ret: seq<byte>): (r: Result<nat>)
    ensures r.Ok? <==> |ret| > 0 && ret[0] == CmdRuntime
    ensures r.Ok? ==> r.value == LeValue(ret[1..]) && r.value < Pow256(|ret| - 1)
  {
    match CheckHeader(ret, CmdRuntime)
    case Err(e) => Err(e)
    case Ok(p) => LeValueBound(p); Ok(LeValue(p))
  }

  /** `_get_firmware_version`: "major.minor" from the two payload bytes. */
  function FirmwareVersion(ret: seq<byte>): (r: Result<string>)
    ensures r.Ok? <==> |ret| >= 3 && ret[0] == CmdFirmware
    ensures |ret| > 0 && ret[0] != CmdFirmware ==> r == Err(ValueError)
    ensures r.Ok? ==> r.value == PyStr.DecimalString(ret[1]) + "." + PyStr.DecimalString(ret[2])
  {
    match CheckHeader(ret, CmdFirmware)
    case Err(e) => Err(e)
    case Ok(p) =>
      if |p| < 2 then Err(IndexError)
      else Ok(PyStr.DecimalString(p[0]) + "." + PyStr.DecimalString(p[1]))
  }

  /** The version string splits back into its two numbers at the dot. */
  lemma FirmwareVersionParses(ret: seq<byte>)
    requires FirmwareVersion(ret).Ok?
    ensures var v := FirmwareVersion(ret).value;
            PyStr.Split(v, ".") == [PyStr.DecimalString(ret[1]), PyStr.DecimalString(ret[2])]
            && PyStr.ParseNat(PyStr.DecimalString(ret[1])) == Ok(ret[1] as nat)
            && PyStr.ParseNat(PyStr.DecimalString(ret[2])) == Ok(ret[2] as nat)
  {
    var a := PyStr.DecimalString(ret[1]);
    var b := PyStr.DecimalString(ret[2]);
    assert '.' !in a && '.' !in b by {
      assert forall i :: 0 <= i < |a| ==> PyStr.IsDigit(a[i]);
      assert forall i :: 0 <= i < |b| ==> PyStr.IsDigit(b[i]);
    }
    PyStr.SplitAfterPlain(a, ".", b);
    PyStr.SplitPlain(b, ".");
    PyStr.DecimalRoundTrip(ret[1]);
    PyStr.DecimalRoundTrip(ret[2]);
  }

  /** `ret[-1]`. */
  function LastByte(ret: seq<byte>): (r: Result<byte>)
    ensures r.Ok? <==> |ret| > 0
    ensures r.Err? ==> r.error == IndexError
    ensures r.Ok? ==> r.value == ret[|ret| - 1]
  {
    PyStr.PyIndex(ret, -1)
  }

  /** `_get_system_state`: the name of the reply's last byte. */
  function SystemState(ret: seq<byte>): (r: Result<string>)
    ensures r.Ok? <==> |ret| > 0 && ret[|ret| - 1] < 6
    ensures r.Ok? ==> r.value == McuConv.StateNames[ret[|ret| - 1]]
  {
    match LastByte(ret)
    case Err(e) => Err(e)
    case Ok(s) => McuConv.ConvertSystemState(s)
  }

  /** `_get_pin_state`: the pin name of the reply's last byte. */
  function PinState(ret: seq<byte>): (r: Result<string>)
    ensures r.Ok? <==> |ret| > 0
    ensures r.Ok? ==> (r.value == "NONE" <==> ret[|ret| - 1] == 0)
  {
    match LastByte(ret)
    case Err(e) => Err(e)
    case Ok(s) => Ok(McuConv.ConvertPinState(s))
  }

  // ------------------------------------------------------------------
  // echo
  // ------------------------------------------------------------------

  /** The padding flag of `echo`: pad iff the length leaves a remainder of one. */
  function EchoPadding(data: string): (r: bool)
    ensures r <==> |data| % 2 == 1
  {
    |data| % NumBytes(Device) == 1
  }

  /** One chunk exchange of `echo`: the frame must fit (OverflowError), the
      reply's tail is collected, then its first byte must be 0 (an empty reply
      raises IndexError, another byte ValueError). */
  function EchoStep(chunk: nat, ret: seq<byte>, v: seq<byte>): (r: Result<seq<byte>>)
    ensures r.Ok? <==> chunk < 65536 && |ret| > 0 && ret[0] == 0
    ensures r.Ok? ==> r.value == v + ret[1..]
  {
    if Convert(Device, CmdEcho, chunk).Err? then Err(OverflowError)
    else if |ret| == 0 then Err(IndexError)
    else if ret[0] != 0 then Err(ValueError)
    else Ok(v + ret[1..])
  }

  /** What the first k chunk exchanges of `echo` leave behind: the collected
      reply payloads, or the exception that ended the loop. */
  function EchoPrefix(chunks: seq<nat>, replies: seq<seq<byte>>, k: nat): Result<seq<byte>>
    requires k <= |chunks| <= |replies|
  {
    if k == 0 then Ok([])
    else
      match EchoPrefix(chunks, replies, k - 1)
      case Err(e) => Err(e)
      case Ok(v) => EchoStep(chunks[k - 1], replies[k - 1], v)
  }

  /** The result of `echo(data)` when the device answers the k-th write with
      `replies[k]`. */
  function EchoSpec(data: string, replies: seq<seq<byte>>): Result<string>
    requires |replies| >= |SerializeString(data, EchoPadding(data))|
  {
    var chunks := SerializeString(data, EchoPadding(data));
    match EchoPrefix(chunks, replies, |chunks|)
    case Err(e) => Err(e)
    case Ok(v) => DeserializeString(v, EchoPadding(data))
  }

  lemma {:induction false} EchoErrSticks(chunks: seq<nat>, replies: seq<seq<byte>>, k: nat, n: nat)
    requires k <= n <= |chunks| <= |replies|
    requires EchoPrefix(chunks, replies, k).Err?
    ensures EchoPrefix(chunks, replies, n) == EchoPrefix(chunks, replies, k)
    decreases n - k
  {
    if n > k {
      EchoErrSticks(chunks, replies, k, n - 1);
    }
  }

  /** The loop of `echo`: sends every chunk as command 0 and collects the
      replies without their first byte, stopping at the first exception.
      Also returns the frames written. */
  method EchoExchange(chunks: seq<nat>, replies: seq<seq<byte>>) returns (r: Result<seq<byte>>, sent: seq<seq<byte>>)
    requires |chunks| <= |replies|
    ensures r == EchoPrefix(chunks, replies, |chunks|)
    ensures |sent| <= |chunks|
    ensures forall j :: 0 <= j < |sent| ==> Convert(Device, CmdEcho, chunks[j]) == Ok(sent[j])
  {
    var v: seq<byte> := [];
    sent := [];
    var k := 0;
    while k < |chunks|
      invariant 0 <= k <= |chunks|
      invariant EchoPrefix(chunks, replies, k) == Ok(v)
      invariant |sent| == k
      invariant forall j :: 0 <= j < k ==> Convert(Device, CmdEcho, chunks[j]) == Ok(sent[j])
    {
      var frame := Convert(Device, CmdEcho, chunks[k]);
      if frame.Err? {
        r := Err(OverflowError);
        EchoErrSticks(chunks, replies, k + 1, |chunks|);
        return;
      }
      sent := sent + [frame.value];
      var ret := replies[k];
      v := v + (if |ret| == 0 then [] else ret[1..]);
      if |ret| == 0 {
        r := Err(IndexError);
        EchoErrSticks(chunks, replies, k + 1, |chunks|);
        return;
      }
      if ret[0] != 0 {
        r := Err(ValueError);
        EchoErrSticks(chunks, replies, k + 1, |chunks|);
        return;
      }
      k := k + 1;
    }
    r := Ok(v);
  }

  /** `echo(data)`: pad iff the length is odd, exchange the chunks, and decode
      what came back. */
  method Echo(data: string, replies: seq<seq<byte>>) returns (r: Result<string>, sent: seq<seq<byte>>)
    requires |replies| >= |SerializeString(data, EchoPadding(data))|
    ensures r == EchoSpec(data, replies)
    ensures |sent| <= |SerializeString(data, EchoPadding(data))|
    ensures forall j :: 0 <= j < |sent| ==> Convert(Device, CmdEcho, SerializeString(data, EchoPadding(data))[j]) == Ok(sent[j])
  {
    var doPadding := EchoPadding(data);
    var chunks := SerializeString(data, doPadding);
    var collected;
    collected, sent := EchoExchange(chunks, replies);
    if collected.Err? {
      r := Err(collected.error);
    } else {
      r := DeserializeString(collected.value, doPadding);
    }
  }

  // ------------------------------------------------------------------
  // The stateful API
  // ------------------------------------------------------------------

  /** The range check of `update_daq_sampling_rate`: neither below 0 nor
      above 10000. */
  predicate RateAccepted(rate: real)
  {
    !(rate < 0.0) && !(rate > 10000.0)
  }

  /** The part of `DeviceAPI` that changes: the stored sampling rate and the
      frames written to the device so far. */
  class DeviceApi {
    var samplingRate: real
    var sent: seq<seq<byte>>
    /** Whether the recording threads run (`self.__threads.is_alive`). */
    var threadsAlive: bool

    constructor ()
      ensures samplingRate == 4.0 && sent == [] && !threadsAlive
    {
      samplingRate := 4.0;
      sent := [];
      threadsAlive := false;
    }

    /** `__write_without_feedback(head, data)` for a value that fits. */
    method Write(head: byte, data: nat)
      requires data < 65536
      modifies this
      ensures Convert(Device, head, data).Ok?
      ensures sent == old(sent) + [Convert(Device, head, data).value]
      ensures samplingRate == old(samplingRate) && threadsAlive == old(threadsAlive)
    {
      sent := sent + [Convert(Device, head, data).value];
    }

    /** `do_reset`: running threads are stopped with `stop_daq` first, then
        the reset command is sent. */
    method DoReset()
      modifies this
      ensures sent == old(sent) + (if old(threadsAlive) then [[0, 0, CmdStopDaq]] else []) + [[0, 0, CmdReset]]
      ensures samplingRate == old(samplingRate) && !threadsAlive
    {
      if threadsAlive {
        StopDaq();
      }
      ConvertThreeBytes(CmdReset, 0);
      Write(CmdReset, 0);
    }

    /** `enable_led`. */
    method EnableLed()
      modifies this
      ensures sent == old(sent) + [[0, 0, CmdEnableLed]]
      ensures samplingRate == old(samplingRate) && threadsAlive == old(threadsAlive)
    {
      ConvertThreeBytes(CmdEnableLed, 0);
      Write(CmdEnableLed, 0);
    }

    /** `disable_led`. */
    method DisableLed()
      modifies this
      ensures sent == old(sent) + [[0, 0, CmdDisableLed]]
      ensures samplingRate == old(samplingRate) && threadsAlive == old(threadsAlive)
    {
      ConvertThreeBytes(CmdDisableLed, 0);
      Write(CmdDisableLed, 0);
    }

    /** `toggle_led`. */
    method ToggleLed()
      modifies this
      ensures sent == old(sent) + [[0, 0, CmdToggleLed]]
      ensures samplingRate == old(samplingRate) && threadsAlive == old(threadsAlive)
    {
      ConvertThreeBytes(CmdToggleLed, 0);
      Write(CmdToggleLed, 0);
    }

    /** `start_daq`: the recording threads are started (their work is not
        modelled), then command 10 is sent. */
    method StartDaq()
      modifies this
      ensures sent == old(sent) + [[0, 0, CmdStartDaq]]
      ensures samplingRate == old(samplingRate) && threadsAlive
    {
      threadsAlive := true;
      ConvertThreeBytes(CmdStartDaq, 0);
      Write(CmdStartDaq, 0);
    }

    /** `stop_daq`: the recording threads are stopped, then command 11 is sent. */
    method StopDaq()
      modifies this
      ensures sent == old(sent) + [[0, 0, CmdStopDaq]]
      ensures samplingRate == old(samplingRate) && !threadsAlive
    {
      threadsAlive := false;
      ConvertThreeBytes(CmdStopDaq, 0);
      Write(CmdStopDaq, 0);
    }

    /** `update_daq_sampling_rate(rate)`: ValueError below 0 or above 10000
        with nothing changed; otherwise the rate is stored and command 12 is
        sent with the rate truncated to an integer. */
    method UpdateDaqSamplingRate(rate: real) returns (r: Option<Exception>)
      modifies this
      ensures r.None? <==> RateAccepted(rate)
      ensures threadsAlive == old(threadsAlive)
      ensures r.Some? ==> r.value == ValueError && samplingRate == old(samplingRate) && sent == old(sent)
      ensures r.None? ==> samplingRate == rate
                          && sent == old(sent) + [[rate.Floor % 256, rate.Floor / 256, CmdUpdateDaq]]
    {
      if rate < 0.0 {
        return Some(ValueError);
      }
      if rate > 10000.0 {
        return Some(ValueError);
      }
      samplingRate := rate;
      ConvertThreeBytes(CmdUpdateDaq, rate.Floor);
      Write(CmdUpdateDaq, rate.Floor);
      r := None;
    }
  }
}
