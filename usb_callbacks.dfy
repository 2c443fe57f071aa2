/** The template's USB command dispatcher (`apply_usb_callback`): after
    every completed frame the raw byte at `buffer[2]` selects echo, state,
    LED on, LED off or LED toggle. `echo` and `send_state` pass
    `sizeof(buffer)` of a `char *` as the byte count; that is 4 on the 32-bit
    RP2040, one more than the three-byte FIFO holds. */
module UsbCallbacks {
  import opened Bytes
  import opened Wrappers
  import opened UsbFifo

  /** The `usb_cmd_t` codes. */
  const Echo: byte := 0
  const State: byte := 1
  const EnableLed: byte := 2
  const DisableLed: byte := 3
  const ToggleLed: byte := 4

  /** `sizeof(char *)` on the RP2040. */
  const SizeofCharPointer := 4

  /** `send_bytes(buffer, n)`: `buffer[n - 1], ..., buffer[0]`. Reading past the
      buffer is undefined, so a count beyond it yields None. */
  function SendBytes(buffer: seq<byte>, n: nat): (r: Option<seq<byte>>)
    ensures r.Some? <==> n <= |buffer|
    ensures r.Some? ==> r.value == Reversed(buffer[..n])
  {
    if n <= |buffer| then Some(Reversed(buffer[..n])) else None
  }

  /** `echo(buffer)` as written: `send_bytes(buffer, sizeof(buffer))`. */
  function EchoAsWritten(buffer: seq<byte>): Option<seq<byte>>
  {
    SendBytes(buffer, SizeofCharPointer)
  }

  /** On the firmware's three-byte FIFO the echo as written reads past the
      buffer for every content. */
  lemma EchoAsWrittenOverruns(buffer: seq<byte>)
    requires |buffer| == UsbFifoSize as int
    ensures EchoAsWritten(buffer).None?
  {
  }

  /** `echo` with the FIFO length as count: the frame in arrival order. */
  function EchoCorrected(f: FifoState): (r: seq<byte>)
    requires f.length as int <= |f.buf|
  {
    Reversed(f.buf[..f.length])
  }

  /** The corrected echo of a full frame returns the bytes in the order they
      arrived. */
  lemma EchoCorrectedInOrder(s: FifoState, bs: seq<byte>)
    requires ValidState(s) && s.position == s.length - 1 && |bs| == s.length as int
    ensures EchoCorrected(Feed(s, bs)) == bs
  {
    BatchReversed(s, bs);
  }

  /** `send_state` with the FIFO length as count: `buffer[0]` is replaced by
      the system state before the buffer is sent. */
  function SendStateCorrected(f: FifoState, systemState: byte): (r: seq<byte>)
    requires 1 <= f.length as int <= |f.buf|
    ensures |r| == f.length as int && r[f.length - 1] == systemState
  {
    Reversed(f.buf[0 := systemState][..f.length])
  }

  /** The dispatcher's state: the FIFO, the default LED and the bytes sent. */
  datatype CallbackState = CallbackState(fifo: FifoState, led: bool, out: seq<byte>)

  predicate ValidCallback(st: CallbackState)
  {
    ValidState(st.fifo) && |st.fifo.buf| >= 3
  }

  /** One call of `apply_usb_callback`, with the corrected byte count. */
  function Apply(st: CallbackState, c: byte, systemState: byte): (r: CallbackState)
    requires ValidCallback(st)
    ensures ValidCallback(r)
    ensures !r.fifo.ready ==> r.led == st.led && r.out == st.out
    ensures r.fifo.ready && r.fifo.buf[2] == ToggleLed ==> r.led == !st.led
    ensures r.fifo.ready && r.fifo.buf[2] > ToggleLed ==> r.led == st.led && r.out == st.out
  {
    var f := Step(st.fifo, c);
    if !f.ready then CallbackState(f, st.led, st.out)
    else
      var cmd := f.buf[2];
      if cmd == Echo then CallbackState(f, st.led, st.out + EchoCorrected(f))
      else if cmd == State then
        CallbackState(f.(buf := f.buf[0 := systemState]), st.led, st.out + SendStateCorrected(f, systemState))
      else if cmd == EnableLed then CallbackState(f, true, st.out)
      else if cmd == DisableLed then CallbackState(f, false, st.out)
      else if cmd == ToggleLed then CallbackState(f, !st.led, st.out)
      else CallbackState(f, st.led, st.out)
  }

  /** A state request is answered in arrival order with its command byte, its
      second byte, and the system state in place of its third byte. */
  lemma StateReply(st: CallbackState, c1: byte, c2: byte, systemState: byte)
    requires ValidCallback(st) && st.fifo.length == 3 && st.fifo.position == 2
    ensures var t := Apply(Apply(Apply(st, State, systemState), c1, systemState), c2, systemState);
            t.out == st.out + [State, c1, systemState] && t.fifo.buf[0] == systemState
  {
    var f := Step(Step(Step(st.fifo, State), c1), c2);
    assert f.buf[0 := systemState][..3] == [systemState, c1, State];
  }

  /** The dispatcher's mutable state besides the FIFO. */
  class UsbCallbackHandler {
    var led: bool
    var out: seq<byte>

    function Snapshot(fifo: FifoBuffer): CallbackState
      reads this, fifo, fifo.buffer
    {
      CallbackState(fifo.State(), led, out)
    }

    /** `send_bytes(buffer, n)`: the loop emitting `buffer[n - 1 - idx]`. */
    method SendBytesLoop(buffer: array<byte>, n: nat)
      requires n <= buffer.Length
      modifies this
      ensures led == old(led)
      ensures out == old(out) + Reversed(buffer[..n])
    {
      var idx := 0;
      ghost var start := out;
      while idx < n
        invariant 0 <= idx <= n
        invariant led == old(led)
        invariant out == start + Reversed(buffer[..n])[..idx]
      {
        out := out + [buffer[n - 1 - idx]];
        assert Reversed(buffer[..n])[..idx + 1] == Reversed(buffer[..n])[..idx] + [buffer[n - 1 - idx]];
        idx := idx + 1;
      }
      assert Reversed(buffer[..n])[..idx] == Reversed(buffer[..n]);
    }

    /** `apply_usb_callback(fifo)` with `c` the byte received, echo and state
        sending `length` bytes. Always returns true. */
    method ApplyUsbCallback(fifo: FifoBuffer, c: byte, systemState: byte) returns (r: bool)
      requires fifo.Valid() && fifo.buffer.Length >= 3
      modifies this, fifo, fifo.buffer
      ensures r
      ensures fifo.Valid() && fifo.buffer == old(fifo.buffer)
      ensures Snapshot(fifo) == Apply(old(Snapshot(fifo)), c, systemState)
    {
      fifo.Handle(c);
      if fifo.ready {
        var cmd := fifo.buffer[2];
        if cmd == Echo {
          SendBytesLoop(fifo.buffer, fifo.length as nat);
        } else if cmd == State {
          fifo.buffer[0] := systemState;
          SendBytesLoop(fifo.buffer, fifo.length as nat);
        } else if cmd == EnableLed {
          led := true;
        } else if cmd == DisableLed {
          led := false;
        } else if cmd == ToggleLed {
          led := !led;
        }
      }
      r := true;
    }
  }
}
