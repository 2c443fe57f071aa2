/** `process_usb_data` of the firmware library's USB handler: after every
    completed three-byte frame the byte at `buffer[2]` switches the LED on
    ('1') or off ('0'), and the LED pin is driven to the stored state. */
module UsbHandlerLib {
  import opened Bytes
  import opened UsbFifo

  /** The handler's state: the FIFO, the global `state_led`, the level last
      driven on each GPIO pin, and the console text. */
  datatype LibState = LibState(fifo: FifoState, stateLed: bool, pins: map<int, bool>, console: string)

  predicate ValidLib(st: LibState)
  {
    ValidState(st.fifo) && |st.fifo.buf| >= 3
  }

  /** The new LED state and the message for a frame whose check byte is `cmd`. */
  function LedCommand(cmd: byte, stateLed: bool): (r: (bool, string))
    ensures cmd == '1' as int ==> r.0
    ensures cmd == '0' as int ==> !r.0
    ensures cmd != '0' as int && cmd != '1' as int ==> r.0 == stateLed && r.1 == "Invalid Input!\n"
  {
    if cmd == '1' as int then (true, "LED=on\n")
    else if cmd == '0' as int then (false, "LED=off\n")
    else (stateLed, "Invalid Input!\n")
  }

  /** One call of `process_usb_data` with the received byte `c`. */
  function Process(st: LibState, c: byte, gpioLed: byte): (r: LibState)
    requires ValidLib(st)
    ensures ValidLib(r)
    ensures !r.fifo.ready ==> r.stateLed == st.stateLed && r.pins == st.pins && r.console == st.console
    ensures r.fifo.ready ==> gpioLed as int in r.pins && r.pins[gpioLed as int] == r.stateLed
  {
    var f := Step(st.fifo, c);
    if f.ready then
      var (led, msg) := LedCommand(f.buf[2], st.stateLed);
      LibState(f, led, st.pins[gpioLed as int := led], st.console + msg)
    else LibState(f, st.stateLed, st.pins, st.console)
  }

  /** A frame of three bytes from the top of a three-byte FIFO acts on the
      first byte received: it sets the LED state, drives the pin to it, and
      leaves the FIFO ready at the top again. */
  lemma FrameActsOnFirstByte(st: LibState, c0: byte, c1: byte, c2: byte, gpioLed: byte)
    requires ValidLib(st) && st.fifo.length == 3 && st.fifo.position == 2
    ensures var t := Process(Process(Process(st, c0, gpioLed), c1, gpioLed), c2, gpioLed);
            t.fifo.ready && t.fifo.position == 2
            && t.stateLed == LedCommand(c0, st.stateLed).0
            && t.pins == st.pins[gpioLed as int := t.stateLed]
            && t.console == st.console + LedCommand(c0, st.stateLed).1
  {
  }

  /** The LED routine's mutable state. */
  class UsbHandler {
    var stateLed: bool
    var pins: map<int, bool>
    var console: string

    function Snapshot(fifo: FifoBuffer): LibState
      reads this, fifo, fifo.buffer
    {
      LibState(fifo.State(), stateLed, pins, console)
    }

    /** `process_usb_data(fifo, gpio_led)` with `c` the byte received. */
    method ProcessUsbData(fifo: FifoBuffer, c: byte, gpioLed: byte)
      requires fifo.Valid() && fifo.buffer.Length >= 3
      modifies this, fifo, fifo.buffer
      ensures fifo.Valid() && fifo.buffer == old(fifo.buffer)
      ensures Snapshot(fifo) == Process(old(Snapshot(fifo)), c, gpioLed)
    {
      fifo.Handle(c);
      if fifo.ready {
        var valChck := fifo.buffer[2];
        if valChck == '1' as int {
          stateLed := true;
          console := console + "LED=on\n";
        } else if valChck == '0' as int {
          stateLed := false;
          console := console + "LED=off\n";
        } else {
          console := console + "Invalid Input!\n";
        }
        pins := pins[gpioLed as int := stateLed];
      }
    }
  }
}
