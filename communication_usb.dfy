/** `process_usb_data` of the firmware's USB communication: after every
    completed frame the byte at `buffer[2]` selects LED on/off ('1'/'0'),
    timer interrupt on/off ('A'/'Q'), or ('Y') sends the other two bytes back
    as a 'D' message; the test pin is then driven to the LED state. */
module CommunicationUsb {
  import opened Bytes
  import opened UsbFifo
  import HexSend

  /** The routine's state: the FIFO, the global `state_led`, the level of the
      test pin, the arguments of the `init_timer_isr` calls so far, and the
      console output. */
  datatype CommState = CommState(fifo: FifoState, stateLed: bool, clkTestPin: bool,
                                 timerCalls: seq<bool>, console: string)

  predicate ValidComm(st: CommState)
  {
    ValidState(st.fifo) && |st.fifo.buf| >= 3
  }

  /** `((uint16_t)buffer[1] << 8) + (uint16_t)buffer[0]`. */
  function DataRead(buf: seq<byte>): (r: nat)
    requires |buf| >= 2
    ensures r < 65536 && r / 256 == buf[1] && r % 256 == buf[0]
  {
    (buf[1] as int) * 256 + buf[0]
  }

  /** What a completed frame does, before the test pin is driven. */
  function Dispatch(st: CommState, f: FifoState): (r: CommState)
    requires |f.buf| >= 3
    ensures r.fifo == f && r.clkTestPin == st.clkTestPin
    ensures f.buf[2] == '1' as int ==> r.stateLed && r.timerCalls == st.timerCalls
    ensures f.buf[2] == '0' as int ==> !r.stateLed && r.timerCalls == st.timerCalls
    ensures f.buf[2] == 'A' as int ==> r.timerCalls == st.timerCalls + [true] && r.stateLed == st.stateLed
    ensures f.buf[2] == 'Q' as int ==> r.timerCalls == st.timerCalls + [false] && r.stateLed == st.stateLed
    ensures f.buf[2] == 'Y' as int ==> r.console == st.console + Chars(HexSend.Uint16ToHex('D' as int, DataRead(f.buf)))
  {
    var cmd := f.buf[2];
    if cmd == '1' as int then CommState(f, true, st.clkTestPin, st.timerCalls, st.console + "LED=on\n")
    else if cmd == '0' as int then CommState(f, false, st.clkTestPin, st.timerCalls, st.console + "LED=off\n")
    else if cmd == 'A' as int then CommState(f, st.stateLed, st.clkTestPin, st.timerCalls + [true], st.console)
    else if cmd == 'Q' as int then CommState(f, st.stateLed, st.clkTestPin, st.timerCalls + [false], st.console)
    else if cmd == 'Y' as int then
      CommState(f, st.stateLed, st.clkTestPin, st.timerCalls, st.console + Chars(HexSend.Uint16ToHex('D' as int, DataRead(f.buf))))
    else CommState(f, st.stateLed, st.clkTestPin, st.timerCalls, st.console + "Invalid Input!\n")
  }

  /** One call of `process_usb_data` with the received byte `c`. */
  function Process(st: CommState, c: byte): (r: CommState)
    requires ValidComm(st)
    ensures ValidComm(r)
    ensures !r.fifo.ready ==> r == st.(fifo := r.fifo)
    ensures r.fifo.ready ==> r.clkTestPin == r.stateLed
  {
    var f := Step(st.fifo, c);
    if !f.ready then st.(fifo := f)
    else
      var d := Dispatch(st, f);
      d.(clkTestPin := d.stateLed)
  }

  /** A frame 'Y', hi, lo from the top of a three-byte FIFO answers with
      'D', hi, lo: the two data bytes come back in the order they were sent. */
  lemma FrameYEchoesData(st: CommState, hi: byte, lo: byte)
    requires ValidComm(st) && st.fifo.length == 3 && st.fifo.position == 2
    ensures var t := Process(Process(Process(st, 'Y' as int), hi), lo);
            t.console == st.console + ['D', hi as char, lo as char]
            && t.stateLed == st.stateLed && t.clkTestPin == st.stateLed
  {
    var f := Step(Step(Step(st.fifo, 'Y' as int), hi), lo);
    assert f.buf[1] == hi && f.buf[0] == lo;
    var m := HexSend.Uint16ToHex('D' as int, DataRead(f.buf));
    BeValue2(m[1..]);
    assert m == ['D' as int, hi, lo];
  }

  /** The routine's mutable state besides the FIFO. */
  class UsbCommunication {
    var stateLed: bool
    var clkTestPin: bool
    var timerCalls: seq<bool>
    var console: string

    function Snapshot(fifo: FifoBuffer): CommState
      reads this, fifo, fifo.buffer
    {
      CommState(fifo.State(), stateLed, clkTestPin, timerCalls, console)
    }

    /** `process_usb_data(fifo)` with `c` the byte received. */
    method ProcessUsbData(fifo: FifoBuffer, c: byte)
      requires fifo.Valid() && fifo.buffer.Length >= 3
      modifies this, fifo, fifo.buffer
      ensures fifo.Valid() && fifo.buffer == old(fifo.buffer)
      ensures Snapshot(fifo) == Process(old(Snapshot(fifo)), c)
    {
      fifo.Handle(c);
      if fifo.ready {
        var valChck := fifo.buffer[2];
        if valChck == '1' as int {
          stateLed := true;
          console := console + "LED=on\n";
        } else if valChck == '0' as int {
          stateLed := false;
          console := console + "LED=off\n";
        } else if valChck == 'A' as int {
          timerCalls := timerCalls + [true];
        } else if valChck == 'Q' as int {
          timerCalls := timerCalls + [false];
        } else if valChck == 'Y' as int {
          var dataRead := (fifo.buffer[1] as int) * 256 + fifo.buffer[0];
          console := console + Chars(HexSend.Uint16ToHex('D' as int, dataRead));
        } else {
          console := console + "Invalid Input!\n";
        }
        clkTestPin := stateLed;
      }
    }
  }
}
