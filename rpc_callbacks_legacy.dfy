/** The earlier command dispatcher of the firmware's `src` folder: a shorter
    command table (no clock, firmware or temperature query), state replies
    written into byte 2 of the receive buffer itself and sent back in place,
    and the DAQ period taken directly from the frame. It shares the board
    state, the events and the runtime frame with the current dispatcher. */
module RpcCallbacksLegacy {
  import opened Bytes
  import opened Wrappers
  import opened RpcCallbacks

  // Command codes of this file's `usb_cmd_t`.
  const LegacyEcho: byte := 0
  const LegacyReset: byte := 1
  const LegacyStateSys: byte := 2
  const LegacyStatePin: byte := 3
  const LegacyRuntime: byte := 4
  const LegacyEnableLed: byte := 5
  const LegacyDisableLed: byte := 6
  const LegacyToggleLed: byte := 7
  const LegacyStartDaq: byte := 8
  const LegacyStopDaq: byte := 9
  const LegacyUpdateDaq: byte := 10

  /** The board after a frame, and the receive buffer, which the state
      queries overwrite. */
  datatype Outcome = Outcome(board: Board, buffer: seq<byte>)

  /** `update_daq`: `(buffer[1] << 16) | (buffer[2] << 8)`, negated. */
  function LegacyPeriodUs(buffer: seq<byte>): (r: int)
    requires |buffer| >= 3
    ensures r <= 0 && -r == 256 * BeValue(buffer[1..3])
  {
    BeValue2(buffer[1..3]);
    -(buffer[1] as int * 65536 + buffer[2] as int * 256)
  }

  /** What the source reads and writes of the buffer for each command. */
  predicate CanApplyLegacy(buffer: seq<byte>, length: nat, ready: bool)
  {
    ready ==> |buffer| >= 1
              && (buffer[0] in {LegacyEcho, LegacyStateSys, LegacyStatePin} ==> length <= |buffer|)
              && (buffer[0] in {LegacyStateSys, LegacyStatePin, LegacyUpdateDaq} ==> |buffer| >= 3)
  }

  /** The effect of one ready frame: the command in `buffer[0]`. */
  function DispatchLegacy(b: Board, buffer: seq<byte>, length: nat, runtimeMs: nat): (r: Outcome)
    requires runtimeMs < Pow256(8) && CanApplyLegacy(buffer, length, true)
    ensures |r.buffer| == |buffer|
    ensures forall i :: 0 <= i < |buffer| && i != 2 ==> r.buffer[i] == buffer[i]
    ensures r.buffer != buffer ==> buffer[0] == LegacyStateSys || buffer[0] == LegacyStatePin
    ensures |b.log| <= |r.board.log| <= |b.log| + 1 && r.board.log[..|b.log|] == b.log
  {
    var cmd := buffer[0];
    if cmd == LegacyEcho then Outcome(b.(log := b.log + [Sent(buffer[..length])]), buffer)
    else if cmd == LegacyReset then Outcome(b.(log := b.log + [Reset]), buffer)
    else if cmd == LegacyStateSys then
      var nb := buffer[2 := b.systemState];
      Outcome(b.(log := b.log + [Sent(nb[..length])]), nb)
    else if cmd == LegacyStatePin then
      var nb := buffer[2 := if b.led then 1 else 0];
      Outcome(b.(log := b.log + [Sent(nb[..length])]), nb)
    else if cmd == LegacyRuntime then Outcome(b.(log := b.log + [Sent(RuntimeFrame(buffer[0], runtimeMs))]), buffer)
    else if cmd == LegacyEnableLed then Outcome(b.(led := true), buffer)
    else if cmd == LegacyDisableLed then Outcome(b.(led := false), buffer)
    else if cmd == LegacyToggleLed then Outcome(b.(led := !b.led), buffer)
    else if cmd == LegacyStartDaq then Outcome(b.(systemState := StateDaq, log := b.log + [SamplingStarted]), buffer)
    else if cmd == LegacyStopDaq then Outcome(b.(systemState := StateIdle, log := b.log + [SamplingStopped]), buffer)
    else if cmd == LegacyUpdateDaq then Outcome(b.(log := b.log + [RateUpdated(Some(LegacyPeriodUs(buffer)))]), buffer)
    else Outcome(b.(log := b.log + [Slept(10)]), buffer)
  }

  /** `apply_rpc_callback` of this file: nothing happens until the frame is
      ready. */
  function ApplyLegacy(b: Board, buffer: seq<byte>, length: nat, ready: bool, runtimeMs: nat): (r: Outcome)
    requires runtimeMs < Pow256(8) && CanApplyLegacy(buffer, length, ready)
    ensures !ready ==> r == Outcome(b, buffer)
    ensures ready ==> r == DispatchLegacy(b, buffer, length, runtimeMs)
  {
    if ready then DispatchLegacy(b, buffer, length, runtimeMs) else Outcome(b, buffer)
  }

  /** A three-byte state query is answered with its own command byte, its
      second byte, and the requested state as the last byte; the buffer keeps
      the answer. */
  lemma StateRepliesInPlace(b: Board, buffer: seq<byte>, runtimeMs: nat)
    requires runtimeMs < Pow256(8) && |buffer| == 3
    requires buffer[0] == LegacyStateSys || buffer[0] == LegacyStatePin
    ensures var r := DispatchLegacy(b, buffer, 3, runtimeMs);
            var v: byte := if buffer[0] == LegacyStateSys then b.systemState else (if b.led then 1 else 0);
            r.buffer == [buffer[0], buffer[1], v] && r.board.log == b.log + [Sent(r.buffer)]
  {
    var v: byte := if buffer[0] == LegacyStateSys then b.systemState else (if b.led then 1 else 0);
    var nb := buffer[2 := v];
    assert nb[..3] == nb == [buffer[0], buffer[1], v];
  }

  /** The runtime reply echoes the command byte as its header. */
  lemma RuntimeReplyHeader(b: Board, buffer: seq<byte>, length: nat, runtimeMs: nat)
    requires runtimeMs < Pow256(8) && CanApplyLegacy(buffer, length, true) && buffer[0] == LegacyRuntime
    ensures var r := DispatchLegacy(b, buffer, length, runtimeMs);
            r.board.log == b.log + [Sent(RuntimeFrame(LegacyRuntime, runtimeMs))]
            && LeValue(r.board.log[|b.log|].bytes[1..]) == runtimeMs
  {
  }

  /** The period follows bytes 1 and 2 at 256 microseconds per unit and is
      never undefined, unlike the rate division of the current dispatcher. */
  lemma LegacyPeriodScale(buffer: seq<byte>)
    requires |buffer| >= 3
    ensures LegacyPeriodUs(buffer) == -256 * RequestedHz(buffer)
  {
  }

  /** The firmware globals of this dispatcher as an object, with the receive
      buffer the state queries write into. */
  class LegacyBoard {
    var systemState: byte
    var led: bool
    var log: seq<Event>

    function Snapshot(): Board
      reads this
    {
      Board(systemState, led, log)
    }

    constructor (state: byte, ledOn: bool)
      ensures Snapshot() == Board(state, ledOn, [])
    {
      systemState := state;
      led := ledOn;
      log := [];
    }

    method ApplyRpcCallback(buffer: array<byte>, length: nat, ready: bool, runtimeMs: nat) returns (r: bool)
      requires runtimeMs < Pow256(8) && CanApplyLegacy(buffer[..], length, ready)
      modifies this, buffer
      ensures r
      ensures var o := ApplyLegacy(old(Snapshot()), old(buffer[..]), length, ready, runtimeMs);
              Snapshot() == o.board && buffer[..] == o.buffer
    {
      if ready {
        var cmd := buffer[0];
        if cmd == LegacyEcho {
          log := log + [Sent(buffer[..length])];
        } else if cmd == LegacyReset {
          log := log + [Reset];
        } else if cmd == LegacyStateSys {
          buffer[2] := systemState;
          log := log + [Sent(buffer[..length])];
        } else if cmd == LegacyStatePin {
          buffer[2] := if led then 1 else 0;
          log := log + [Sent(buffer[..length])];
        } else if cmd == LegacyRuntime {
          var sent := FillRuntime(buffer[0], runtimeMs);
          log := log + [Sent(sent)];
        } else if cmd == LegacyEnableLed {
          led := true;
        } else if cmd == LegacyDisableLed {
          led := false;
        } else if cmd == LegacyToggleLed {
          led := !led;
        } else if cmd == LegacyStartDaq {
          systemState := StateDaq;
          log := log + [SamplingStarted];
        } else if cmd == LegacyStopDaq {
          systemState := StateIdle;
          log := log + [SamplingStopped];
        } else if cmd == LegacyUpdateDaq {
          var rate := buffer[1] as int * 65536 + buffer[2] as int * 256;
          log := log + [RateUpdated(Some(-rate))];
        } else {
          log := log + [Slept(10)];
        }
      }
      r := true;
    }
  }
}
