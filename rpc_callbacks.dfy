/** The firmware's command dispatcher (`apply_rpc_callback` and the protocol
    functions it calls): once the USB FIFO holds a complete frame, the first
    buffer byte selects a command that answers with a reply frame, switches
    the LED, changes the system state or drives the DAQ timer. Hardware reads
    (system clock, runtime, ADC, firmware version) are inputs; the effects on
    the hardware are recorded as events. */
module RpcCallbacks {
  import opened Bytes
  import opened Wrappers

  // Command codes of `usb_cmd_t`.
  const CmdEcho: byte := 0
  const CmdReset: byte := 1
  const CmdClockSys: byte := 2
  const CmdStateSys: byte := 3
  const CmdStatePin: byte := 4
  const CmdRuntime: byte := 5
  const CmdFirmware: byte := 6
  const CmdTempMcu: byte := 7
  const CmdEnableLed: byte := 8
  const CmdDisableLed: byte := 9
  const CmdToggleLed: byte := 10
  const CmdStartDaq: byte := 11
  const CmdStopDaq: byte := 12
  const CmdUpdateDaq: byte := 13

  /** The codes of the two system states the dispatcher sets, as the host's
      state-name table numbers them. */
  const StateIdle: byte := 3
  const StateDaq: byte := 5

  /** What the hardware reports when asked: `clock_get_hz(clk_sys)`
      (`uint32_t`), `get_runtime_ms()` (`uint64_t`), the raw ADC reading of
      the temperature sensor (`uint16_t`) and the `PROGRAM_VERSION` string. */
  datatype Env = Env(clockHz: nat, runtimeMs: nat, tempRaw: nat, version: string)

  predicate ValidEnv(e: Env)
  {
    e.clockHz < 0x1_0000_0000 && e.runtimeMs < Pow256(8) && e.tempRaw < 65536 && |e.version| >= 3
  }

  /** Effects on the hardware, in the order they happen. */
  datatype Event =
    | Sent(bytes: seq<byte>)          // `usb_send_bytes`
    | Reset                           // `reset_pico_mcu(true)`
    | SamplingStarted                 // `start_daq_sampling`
    | SamplingStopped                 // `stop_daq_sampling`
    | RateUpdated(periodUs: Option<int>) // `update_daq_sampling_rate`; None where the period is undefined
    | Slept(us: nat)                  // `sleep_us`

  /** The firmware globals the dispatcher reads and writes, and the events so far. */
  datatype Board = Board(systemState: byte, led: bool, log: seq<Event>)

  // ------------------------------------------------------------------
  // Reply frames
  // ------------------------------------------------------------------

  /** `get_state_system`: header, a zero byte, the system state. */
  function StateSystemReply(state: byte): (r: seq<byte>)
    ensures |r| == 3 && r[0] == CmdStateSys && r[|r| - 1] == state
  {
    [CmdStateSys, 0, state]
  }

  /** `get_clock_system`: the clock in units of 10 kHz, truncated to
      `uint16_t`, little-endian after the header. */
  function ClockReply(clockHz: nat): (r: seq<byte>)
    ensures |r| == 3 && r[0] == CmdClockSys
    ensures LeValue(r[1..]) == (clockHz / 10000) % 65536
  {
    var v := (clockHz / 10000) % 65536;
    var r := [CmdClockSys, v % 256, v / 256];
    LeValue2(r[1..]);
    r
  }

  /** `get_state_pin`: header, pin number 2, the LED state as 0 or 1. */
  function StatePinReply(led: bool): (r: seq<byte>)
    ensures |r| == 3 && r[0] == CmdStatePin
    ensures r[2] != 0 <==> led
  {
    [CmdStatePin, 2, if led then 1 else 0]
  }

  /** A header byte followed by the runtime, eight bytes little-endian. */
  function RuntimeFrame(header: byte, runtime: nat): (r: seq<byte>)
    requires runtime < Pow256(8)
    ensures |r| == 9 && r[0] == header
    ensures LeValue(r[1..]) == runtime
  {
    var r := [header] + LeBytes(runtime, 8);
    assert r[1..] == LeBytes(runtime, 8);
    LeRoundTrip(runtime, 8);
    r
  }

  /** The loop of `get_runtime`: a zeroed nine-byte buffer gets the header and
      then the runtime shifted out one byte per step. */
  method FillRuntime(header: byte, runtime: nat) returns (sent: seq<byte>)
    requires runtime < Pow256(8)
    ensures sent == RuntimeFrame(header, runtime)
  {
    var buffer := new byte[9](_ => 0);
    buffer[0] := header;
    var rt := runtime;
    var idx := 0;
    while idx < 8
      invariant 0 <= idx <= 8
      invariant rt == runtime / Pow256(idx)
      invariant buffer[0] == header
      invariant forall k :: 0 <= k < idx ==> buffer[1 + k] == (runtime / Pow256(k)) % 256
    {
      ShiftByte(runtime, idx);
      var b: byte := rt % 256;
      assert b == (runtime / Pow256(idx)) % 256;
      buffer[idx + 1] := b;
      rt := rt / 256;
      idx := idx + 1;
    }
    sent := buffer[..];
    RuntimeFrameEqual(header, runtime, sent);
  }

  /** A buffer agreeing with the runtime frame byte by byte is that frame. */
  lemma RuntimeFrameEqual(header: byte, runtime: nat, s: seq<byte>)
    requires runtime < Pow256(8) && |s| == 9 && s[0] == header
    requires forall k :: 0 <= k < 8 ==> s[1 + k] == (runtime / Pow256(k)) % 256
    ensures s == RuntimeFrame(header, runtime)
  {
    var f := RuntimeFrame(header, runtime);
    forall i | 1 <= i < 9
      ensures s[i] == f[i]
    {
      LeBytesAt(runtime, 8, i - 1);
      assert f[i] == LeBytes(runtime, 8)[i - 1];
      assert s[1 + (i - 1)] == (runtime / Pow256(i - 1)) % 256;
    }
  }

  /** `get_firmware_version`: the first and third characters of the version
      string minus the code of '0', each stored in an 8-bit char. */
  function FirmwareReply(version: string): (r: seq<byte>)
    requires |version| >= 3
    ensures |r| == 3 && r[0] == CmdFirmware
    ensures '0' <= version[0] <= '9' ==> r[1] as int == version[0] as int - '0' as int
    ensures '0' <= version[2] <= '9' ==> r[2] as int == version[2] as int - '0' as int
  {
    [CmdFirmware, (version[0] as int - 48) % 256, (version[2] as int - 48) % 256]
  }

  /** `get_temp_mcu`: the raw ADC value little-endian after the header. */
  function TempReply(raw: nat): (r: seq<byte>)
    requires raw < 65536
    ensures |r| == 3 && r[0] == CmdTempMcu
    ensures LeValue(r[1..]) == raw
  {
    var r := [CmdTempMcu, raw % 256, raw / 256];
    LeValue2(r[1..]);
    r
  }

  // ------------------------------------------------------------------
  // DAQ rate
  // ------------------------------------------------------------------

  /** The requested sampling frequency of `update_daq`: buffer bytes 1 and 2,
      high byte first. */
  function RequestedHz(buffer: seq<byte>): (r: nat)
    requires |buffer| >= 3
    ensures r < 65536 && BeValue(buffer[1..3]) == r
  {
    BeValue2(buffer[1..3]);
    buffer[1] as int * 256 + buffer[2] as int
  }

  /** The period handed to the timer: `-1000000 / hz` in single precision,
      converted to `int64_t`. For hz in 1..65535 the rounded quotient never
      reaches the next integer, so this is the quotient truncated toward zero;
      for hz = 0 the quotient is infinite and the conversion undefined. */
  function PeriodUs(hz: nat): (r: Option<int>)
    requires hz < 65536
    ensures r.Some? <==> hz > 0
  {
    if hz == 0 then None else Some(-(1000000 / hz))
  }

  /** The period is negative (start-to-start timing) and its magnitude is the
      whole number of microseconds in one sampling interval. */
  lemma PeriodBounds(hz: nat)
    requires 0 < hz < 65536
    ensures var p := PeriodUs(hz).value;
            p < 0 && -p * hz <= 1000000 < (-p + 1) * hz
  {
    var q := 1000000 / hz;
    assert 1000000 == hz * q + 1000000 % hz;
    assert 1000000 % hz < hz;
  }

  // ------------------------------------------------------------------
  // Dispatch
  // ------------------------------------------------------------------

  /** What the source reads of the buffer for each command: byte 0 when the
      frame is ready, the first `length` bytes for an echo, bytes 1 and 2 for
      a rate update. */
  predicate CanApply(buffer: seq<byte>, length: nat, ready: bool)
  {
    ready ==> |buffer| >= 1
              && (buffer[0] == CmdEcho ==> length <= |buffer|)
              && (buffer[0] == CmdUpdateDaq ==> |buffer| >= 3)
  }

  /** The effect of one ready frame: the command in `buffer[0]`. Every
      command but the three LED commands leaves exactly one event. */
  function Dispatch(b: Board, buffer: seq<byte>, length: nat, env: Env): (r: Board)
    requires ValidEnv(env) && CanApply(buffer, length, true)
    ensures |b.log| <= |r.log| <= |b.log| + 1 && r.log[..|b.log|] == b.log
    ensures |r.log| == |b.log| <==> CmdEnableLed <= buffer[0] <= CmdToggleLed
    ensures r.systemState != b.systemState ==> buffer[0] == CmdStartDaq || buffer[0] == CmdStopDaq
    ensures r.led != b.led ==> CmdEnableLed <= buffer[0] <= CmdToggleLed
  {
    var cmd := buffer[0];
    if cmd == CmdEcho then b.(log := b.log + [Sent(buffer[..length])])
    else if cmd == CmdReset then b.(log := b.log + [Reset])
    else if cmd == CmdClockSys then b.(log := b.log + [Sent(ClockReply(env.clockHz))])
    else if cmd == CmdStateSys then b.(log := b.log + [Sent(StateSystemReply(b.systemState))])
    else if cmd == CmdStatePin then b.(log := b.log + [Sent(StatePinReply(b.led))])
    else if cmd == CmdRuntime then b.(log := b.log + [Sent(RuntimeFrame(CmdRuntime, env.runtimeMs))])
    else if cmd == CmdTempMcu then b.(log := b.log + [Sent(TempReply(env.tempRaw))])
    else if cmd == CmdFirmware then b.(log := b.log + [Sent(FirmwareReply(env.version))])
    else if cmd == CmdEnableLed then b.(led := true)
    else if cmd == CmdDisableLed then b.(led := false)
    else if cmd == CmdToggleLed then b.(led := !b.led)
    else if cmd == CmdStartDaq then b.(systemState := StateDaq, log := b.log + [SamplingStarted])
    else if cmd == CmdStopDaq then b.(systemState := StateIdle, log := b.log + [SamplingStopped])
    else if cmd == CmdUpdateDaq then b.(log := b.log + [RateUpdated(PeriodUs(RequestedHz(buffer)))])
    else b.(log := b.log + [Slept(10)])
  }

  /** `apply_rpc_callback(buffer, length, ready)`: nothing happens until the
      frame is ready. */
  function Apply(b: Board, buffer: seq<byte>, length: nat, ready: bool, env: Env): (r: Board)
    requires ValidEnv(env) && CanApply(buffer, length, ready)
    ensures !ready ==> r == b
    ensures ready ==> r == Dispatch(b, buffer, length, env)
  {
    if ready then Dispatch(b, buffer, length, env) else b
  }

  /** Each query command answers with one frame whose first byte is the
      command code, which is what the host checks. */
  lemma RepliesCarryCommand(b: Board, buffer: seq<byte>, length: nat, env: Env)
    requires ValidEnv(env) && CanApply(buffer, length, true)
    requires CmdClockSys <= buffer[0] <= CmdTempMcu
    ensures var r := Dispatch(b, buffer, length, env);
            r.log[|b.log|].Sent? && |r.log[|b.log|].bytes| > 0 && r.log[|b.log|].bytes[0] == buffer[0]
            && r.systemState == b.systemState && r.led == b.led
  {
  }

  /** An echo returns the frame as it sits in the buffer. */
  lemma EchoReturnsBuffer(b: Board, buffer: seq<byte>, length: nat, env: Env)
    requires ValidEnv(env) && CanApply(buffer, length, true) && buffer[0] == CmdEcho
    ensures Dispatch(b, buffer, length, env) == b.(log := b.log + [Sent(buffer[..length])])
  {
  }

  /** Toggling twice restores the LED; enabling and disabling set it
      whatever it was. */
  lemma LedCommands(b: Board, env: Env, rest: seq<byte>)
    requires ValidEnv(env) && |rest| >= 2
    ensures var t := [CmdToggleLed] + rest;
            Dispatch(Dispatch(b, t, 0, env), t, 0, env) == b
    ensures Dispatch(b, [CmdEnableLed] + rest, 0, env).led
    ensures !Dispatch(b, [CmdDisableLed] + rest, 0, env).led
  {
  }

  /** Starting and then stopping the DAQ leaves the system idle, with the
      timer started and stopped. */
  lemma StartStopDaq(b: Board, env: Env, rest: seq<byte>)
    requires ValidEnv(env) && |rest| >= 2
    ensures var s := Dispatch(b, [CmdStartDaq] + rest, 0, env);
            var t := Dispatch(s, [CmdStopDaq] + rest, 0, env);
            s.systemState == StateDaq && t.systemState == StateIdle
            && t.log == b.log + [SamplingStarted, SamplingStopped] && t.led == b.led
  {
  }

  /** An unknown command only waits 10 microseconds. */
  lemma UnknownCommandSleeps(b: Board, buffer: seq<byte>, length: nat, env: Env)
    requires ValidEnv(env) && CanApply(buffer, length, true) && buffer[0] > CmdUpdateDaq
    ensures Dispatch(b, buffer, length, env) == b.(log := b.log + [Slept(10)])
  {
  }

  /** The firmware globals of the dispatcher as an object. */
  class RpcBoard {
    var systemState: byte
    var led: bool
    var log: seq<Event>

    function Snapshot(): Board
      reads this
    {
      Board(systemState, led, log)
    }

    constructor (state: byte, ledOn: bool)
      ensures Snapshot() == Board(state, ledOn, [])
    {
      systemState := state;
      led := ledOn;
      log := [];
    }

    /** `apply_rpc_callback`: dispatches a ready frame and always returns true.
        This is the firmware's switch as it runs, on the board's fields and the
        receive array, with the runtime reply built by the shift loop of
        `FillRuntime`; `Dispatch` is its specification on values, against
        which the lemmas above are stated. */
    method ApplyRpcCallback(buffer: array<byte>, length: nat, ready: bool, env: Env) returns (r: bool)
      requires ValidEnv(env) && CanApply(buffer[..], length, ready)
      modifies this
      ensures r
      ensures Snapshot() == Apply(old(Snapshot()), buffer[..], length, ready, env)
    {
      if ready {
        var cmd := buffer[0];
        if cmd == CmdEcho {
          log := log + [Sent(buffer[..length])];
        } else if cmd == CmdReset {
          log := log + [Reset];
        } else if cmd == CmdClockSys {
          log := log + [Sent(ClockReply(env.clockHz))];
        } else if cmd == CmdStateSys {
          log := log + [Sent(StateSystemReply(systemState))];
        } else if cmd == CmdStatePin {
          log := log + [Sent(StatePinReply(led))];
        } else if cmd == CmdRuntime {
          var sent := FillRuntime(CmdRuntime, env.runtimeMs);
          log := log + [Sent(sent)];
        } else if cmd == CmdTempMcu {
          log := log + [Sent(TempReply(env.tempRaw))];
        } else if cmd == CmdFirmware {
          log := log + [Sent(FirmwareReply(env.version))];
        } else if cmd == CmdEnableLed {
          led := true;
        } else if cmd == CmdDisableLed {
          led := false;
        } else if cmd == CmdToggleLed {
          led := !led;
        } else if cmd == CmdStartDaq {
          systemState := StateDaq;
          log := log + [SamplingStarted];
        } else if cmd == CmdStopDaq {
          systemState := StateIdle;
          log := log + [SamplingStopped];
        } else if cmd == CmdUpdateDaq {
          var hz := buffer[1] as int * 256 + buffer[2] as int;
          log := log + [RateUpdated(PeriodUs(hz))];
        } else {
          log := log + [Slept(10)];
        }
      }
      r := true;
    }
  }
}
