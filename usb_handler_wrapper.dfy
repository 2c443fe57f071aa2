/** `process_usb_data` of the template's USB wrapper: after every completed
    frame, '0' and '1' at `buffer[2]` switch the default LED, and any other
    byte echoes the whole FIFO from its top index down. */
module UsbHandlerWrapper {
  import opened Bytes
  import opened UsbFifo

  /** The wrapper's state: the FIFO, the default LED and the console text. */
  datatype WrapperState = WrapperState(fifo: FifoState, led: bool, console: string)

  predicate ValidWrapper(st: WrapperState)
  {
    ValidState(st.fifo) && |st.fifo.buf| >= 3
  }

  /** One call of `process_usb_data` with the received byte `c`. */
  function Process(st: WrapperState, c: byte): (r: WrapperState)
    requires ValidWrapper(st)
    ensures ValidWrapper(r)
    ensures !r.fifo.ready ==> r.led == st.led && r.console == st.console
  {
    var f := Step(st.fifo, c);
    if !f.ready then WrapperState(f, st.led, st.console)
    else if f.buf[2] == '0' as int then WrapperState(f, false, st.console + "LED off\n")
    else if f.buf[2] == '1' as int then WrapperState(f, true, st.console + "LED on\n")
    else WrapperState(f, st.led, st.console + Chars(Reversed(f.buf[..f.length])))
  }

  /** A three-byte frame from the top of a three-byte FIFO whose first byte is
      neither '0' nor '1' is echoed back in the order it arrived. */
  lemma FrameEchoedInOrder(st: WrapperState, c0: byte, c1: byte, c2: byte)
    requires ValidWrapper(st) && st.fifo.length == 3 && st.fifo.position == 2
    requires c0 != '0' as int && c0 != '1' as int
    ensures var t := Process(Process(Process(st, c0), c1), c2);
            t.led == st.led && t.console == st.console + Chars([c0, c1, c2])
  {
    var f := Step(Step(Step(st.fifo, c0), c1), c2);
    assert Reversed(f.buf[..3]) == [c0, c1, c2];
  }

  /** A frame starting with '0' or '1' sets the LED accordingly. */
  lemma FrameSwitchesLed(st: WrapperState, c0: byte, c1: byte, c2: byte)
    requires ValidWrapper(st) && st.fifo.length == 3 && st.fifo.position == 2
    requires c0 == '0' as int || c0 == '1' as int
    ensures Process(Process(Process(st, c0), c1), c2).led == (c0 == '1' as int)
  {
  }

  /** The wrapper's mutable state besides the FIFO. */
  class UsbWrapper {
    var led: bool
    var console: string

    function Snapshot(fifo: FifoBuffer): WrapperState
      reads this, fifo, fifo.buffer
    {
      WrapperState(fifo.State(), led, console)
    }

    /** The echo loop: `putchar(buffer[length - 1 - idx])` for each idx. */
    method EchoFifo(fifo: FifoBuffer)
      requires fifo.Valid()
      modifies this
      ensures led == old(led)
      ensures console == old(console) + Chars(Reversed(fifo.buffer[..fifo.length]))
    {
      var idx: int := 0;
      ghost var start := console;
      while idx < fifo.length as int
        invariant 0 <= idx <= fifo.length as int
        invariant led == old(led)
        invariant console == start + Chars(Reversed(fifo.buffer[..fifo.length])[..idx])
      {
        console := console + [fifo.buffer[fifo.length as int - 1 - idx] as char];
        assert Reversed(fifo.buffer[..fifo.length])[..idx + 1]
            == Reversed(fifo.buffer[..fifo.length])[..idx] + [fifo.buffer[fifo.length as int - 1 - idx]];
        idx := idx + 1;
      }
      assert Reversed(fifo.buffer[..fifo.length])[..idx] == Reversed(fifo.buffer[..fifo.length]);
    }

    /** `process_usb_data(fifo)` with `c` the byte received. */
    method ProcessUsbData(fifo: FifoBuffer, c: byte)
      requires fifo.Valid() && fifo.buffer.Length >= 3
      modifies this, fifo, fifo.buffer
      ensures fifo.Valid() && fifo.buffer == old(fifo.buffer)
      ensures Snapshot(fifo) == Process(old(Snapshot(fifo)), c)
    {
      fifo.Handle(c);
      if fifo.ready {
        var valChck := fifo.buffer[2];
        if valChck == '0' as int {
          led := false;
          console := console + "LED off\n";
        } else if valChck == '1' as int {
          led := true;
          console := console + "LED on\n";
        } else {
          EchoFifo(fifo);
        }
      }
    }
  }
}
