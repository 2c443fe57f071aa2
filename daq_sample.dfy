/** The firmware's DAQ sample path: the 14-byte USB frame of one sample
    (`send_daq_data_usb`) and the sampling-period update of the repeating
    timer (`update_daq_sampling_rate`). The timer driver itself is not part
    of this model; its enable and disable calls are recorded. */
module DaqSample {
  import opened Bytes

  /** `daq_data_t`: `uint8_t` ids, a `uint64_t` runtime in microseconds and a
      `uint16_t` value. */
  datatype DaqData = DaqData(packetId: byte, iteration: byte, runtime: nat, channelId: byte, value: nat)

  predicate ValidData(d: DaqData)
  {
    d.runtime < Pow256(8) && d.value < 65536
  }

  /** The frame layout: id, iteration, runtime little-endian in eight bytes,
      channel, value little-endian in two bytes, end marker 0xFF. */
  function DaqFrame(d: DaqData): (r: seq<byte>)
    requires ValidData(d)
    ensures |r| == 14
    ensures r[0] == d.packetId && r[1] == d.iteration && r[10] == d.channelId && r[13] == 0xFF
    ensures forall k :: 0 <= k < 8 ==> r[2 + k] == (d.runtime / Pow256(k)) % 256
  {
    var r := [d.packetId, d.iteration] + LeBytes(d.runtime, 8) + [d.channelId, d.value % 256, d.value / 256, 0xFF];
    forall k | 0 <= k < 8
      ensures r[2 + k] == (d.runtime / Pow256(k)) % 256
    {
      LeBytesAt(d.runtime, 8, k);
    }
    r
  }

  /** Every field can be read back from the frame. */
  lemma DaqFrameDecodes(d: DaqData)
    requires ValidData(d)
    ensures var f := DaqFrame(d);
            LeValue(f[2..10]) == d.runtime && LeValue(f[11..13]) == d.value
            && f[0] == d.packetId && f[1] == d.iteration && f[10] == d.channelId
  {
    var f := DaqFrame(d);
    assert f[2..10] == LeBytes(d.runtime, 8);
    LeRoundTrip(d.runtime, 8);
    LeValue2(f[11..13]);
  }

  /** `send_daq_data_usb(data)`: fills a zeroed 14-byte buffer, shifting the
      runtime out one byte per loop step, and returns the bytes sent. */
  method SendDaqDataUsb(d: DaqData) returns (sent: seq<byte>)
    requires ValidData(d)
    ensures sent == DaqFrame(d)
  {
    var buffer := new byte[14](_ => 0);
    buffer[0] := d.packetId;
    buffer[1] := d.iteration;
    var runtime := d.runtime;
    var idx := 0;
    while idx < 8
      invariant 0 <= idx <= 8
      invariant runtime == d.runtime / Pow256(idx)
      invariant buffer[0] == d.packetId && buffer[1] == d.iteration
      invariant forall k :: 0 <= k < idx ==> buffer[2 + k] == (d.runtime / Pow256(k)) % 256
    {
      buffer[idx + 2] := runtime % 256;
      ShiftByte(d.runtime, idx);
      runtime := runtime / 256;
      idx := idx + 1;
    }
    buffer[10] := d.channelId;
    buffer[11] := d.value % 256;
    buffer[12] := (d.value / 256) % 256;
    buffer[13] := 0xFF;
    sent := buffer[..];
    FrameEqual(d, sent);
  }

  /** A buffer agreeing with the layout byte by byte is the frame. */
  lemma FrameEqual(d: DaqData, s: seq<byte>)
    requires ValidData(d) && |s| == 14
    requires s[0] == d.packetId && s[1] == d.iteration && s[10] == d.channelId && s[13] == 0xFF
    requires s[11] == d.value % 256 && s[12] == (d.value / 256) % 256
    requires forall k :: 0 <= k < 8 ==> s[2 + k] == (d.runtime / Pow256(k)) % 256
    ensures s == DaqFrame(d)
  {
    var f := DaqFrame(d);
    assert f[11] == d.value % 256 && f[12] == d.value / 256;
    forall i | 0 <= i < 14
      ensures s[i] == f[i]
    {
      if 2 <= i < 10 {
        assert s[2 + (i - 2)] == f[2 + (i - 2)];
      }
    }
  }

  /** Calls into the timer driver. */
  datatype TimerCall = DisableTimer | EnableTimer

  /** The fields of `tmr_repeat_irq_t` this code touches. */
  class TimerIrq {
    var periodUs: int
    var enableState: bool
    var calls: seq<TimerCall>

    /** `update_daq_sampling_rate(handler, new_rate_us)`: the period is set to
        the new value; a running timer is disabled before and re-enabled
        after; the result is the running flag as it was on entry. */
    method UpdateDaqSamplingRate(newRateUs: int) returns (r: bool)
      modifies this
      ensures r == old(enableState)
      ensures periodUs == newRateUs && enableState == old(enableState)
      ensures calls == old(calls) + (if r then [DisableTimer, EnableTimer] else [])
    {
      var daqEnabled := enableState;
      if daqEnabled {
        calls := calls + [DisableTimer];
      }
      periodUs := newRateUs;
      if daqEnabled {
        calls := calls + [EnableTimer];
      }
      r := daqEnabled;
    }
  }
}
