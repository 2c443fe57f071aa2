/** The firmware's USB receive FIFO (`handling_usb_fifo_buffer`): each
    received byte is stored at `position`, which counts down from
    `length - 1` to 0 and then wraps, raising `ready` for one call. The same
    routine appears in five firmware and template files; it is modelled once. */
module UsbFifo {
  import opened Bytes

  /** The FIFO size the firmware and the template configure. */
  const UsbFifoSize: byte := 3

  /** A snapshot of the FIFO: the buffer contents and the three control fields
      (`length` and `position` are `uint8_t`). */
  datatype FifoState = FifoState(buf: seq<byte>, length: byte, position: byte, ready: bool)

  /** The position indexes the buffer and stays below a non-zero length. */
  predicate ValidState(s: FifoState)
  {
    1 <= s.length as int <= |s.buf| && s.position < s.length
  }

  /** One call with the received byte `c`. At position 0 the position becomes
      `length - 1` in 8-bit arithmetic. */
  function Step(s: FifoState, c: byte): (r: FifoState)
    requires s.position < |s.buf|
    ensures |r.buf| == |s.buf| && r.length == s.length
    ensures r.buf[s.position] == c
    ensures forall i :: 0 <= i < |s.buf| && i != s.position as int ==> r.buf[i] == s.buf[i]
    ensures r.ready <==> s.position == 0
    ensures ValidState(s) ==> ValidState(r)
  {
    FifoState(s.buf[s.position := c], s.length,
              if s.position == 0 then (s.length - 1) % 256 else s.position - 1,
              s.position == 0)
  }

  /** The position decrements by one, or wraps to the top of the buffer. */
  lemma StepPosition(s: FifoState, c: byte)
    requires ValidState(s)
    ensures Step(s, c).position == if s.position == 0 then s.length - 1 else s.position - 1
  {
  }

  /** With `length` 0 the wrap lands on 255, far outside any buffer. */
  lemma ZeroLengthWraps(buf: seq<byte>, c: byte)
    requires |buf| > 0
    ensures Step(FifoState(buf, 0, 0, false), c).position == 255
  {
  }

  /** Feeding a sequence of received bytes, one call each. */
  function Feed(s: FifoState, bs: seq<byte>): (r: FifoState)
    requires ValidState(s)
    ensures ValidState(r) && |r.buf| == |s.buf| && r.length == s.length
    decreases |bs|
  {
    if |bs| == 0 then s else Feed(Step(s, bs[0]), bs[1..])
  }

  lemma {:induction false} FeedSnoc(s: FifoState, bs: seq<byte>, b: byte)
    requires ValidState(s)
    ensures Feed(s, bs + [b]) == Step(Feed(s, bs), b)
    decreases |bs|
  {
    if |bs| == 0 {
      assert bs + [b] == [b];
      assert [b][1..] == [];
    } else {
      assert (bs + [b])[1..] == bs[1..] + [b];
      FeedSnoc(Step(s, bs[0]), bs[1..], b);
    }
  }

  /** Feeding at most `position + 1` bytes fills the slots from `position`
      downwards, in arrival order, and raises `ready` only with the byte
      written at position 0. */
  lemma {:induction false} FeedDown(s: FifoState, bs: seq<byte>)
    requires ValidState(s) && 1 <= |bs| <= s.position as int + 1
    ensures var t := Feed(s, bs);
            (forall k :: 0 <= k < |bs| ==> t.buf[s.position as int - k] == bs[k])
            && (forall i :: 0 <= i < |s.buf| && !(s.position as int - |bs| < i <= s.position as int) ==> t.buf[i] == s.buf[i])
            && (|bs| <= s.position as int ==> t.position as int == s.position as int - |bs| && !t.ready)
            && (|bs| == s.position as int + 1 ==> t.position == s.length - 1 && t.ready)
    decreases |bs|
  {
    var s1 := Step(s, bs[0]);
    if |bs| == 1 {
      assert Feed(s, bs) == Feed(s1, []) == s1;
    } else {
      FeedDown(s1, bs[1..]);
      var t := Feed(s, bs);
      assert t == Feed(s1, bs[1..]);
      forall k | 0 <= k < |bs|
        ensures t.buf[s.position as int - k] == bs[k]
      {
        if k > 0 {
          assert bs[1..][k - 1] == bs[k];
        }
      }
    }
  }

  /** A batch of `length` bytes received from the top position lands in
      reverse order: the k-th byte at `buf[length - 1 - k]`. The FIFO is then
      ready and back at the top. */
  lemma FifoBatch(s: FifoState, bs: seq<byte>)
    requires ValidState(s) && s.position == s.length - 1 && |bs| == s.length as int
    ensures var t := Feed(s, bs);
            t.ready && t.position == s.length - 1
            && forall k :: 0 <= k < |bs| ==> t.buf[s.length as int - 1 - k] == bs[k]
  {
    FeedDown(s, bs);
  }

  lemma ModSucc(a: nat, l: nat)
    requires l > 0
    ensures (a + 1) % l == if a % l == l - 1 then 0 else a % l + 1
  {
    if a % l == l - 1 {
      DivUnique(a + 1, l, a / l + 1, 0);
    } else {
      DivUnique(a + 1, l, a / l, a % l + 1);
    }
  }

  /** From the top position, after j calls the position is
      `length - 1 - j % length`, and `ready` holds exactly when j is a
      non-zero multiple of `length`. */
  lemma {:induction false} ReadyEveryLength(s: FifoState, bs: seq<byte>, j: nat)
    requires ValidState(s) && s.position == s.length - 1 && j <= |bs|
    ensures var t := Feed(s, bs[..j]);
            t.position as int == s.length as int - 1 - j % s.length as int
            && (j >= 1 ==> (t.ready <==> j % s.length as int == 0))
    decreases j
  {
    var l := s.length as int;
    if j == 0 {
      assert bs[..0] == [];
    } else {
      ReadyEveryLength(s, bs, j - 1);
      assert bs[..j] == bs[..j - 1] + [bs[j - 1]];
      FeedSnoc(s, bs[..j - 1], bs[j - 1]);
      ModSucc(j - 1, l);
    }
  }

  /** The bytes in reverse index order, as a loop from the top index down
      emits them. */
  function Reversed(bs: seq<byte>): (r: seq<byte>)
    ensures |r| == |bs| && forall i :: 0 <= i < |bs| ==> r[i] == bs[|bs| - 1 - i]
  {
    seq(|bs|, i requires 0 <= i < |bs| => bs[|bs| - 1 - i])
  }

  /** Reading a full batch back from the top index gives the bytes in the
      order they arrived. */
  lemma BatchReversed(s: FifoState, bs: seq<byte>)
    requires ValidState(s) && s.position == s.length - 1 && |bs| == s.length as int
    ensures Reversed(Feed(s, bs).buf[..s.length]) == bs
  {
    FifoBatch(s, bs);
  }

  /** Bytes printed with `putchar`, as characters. */
  function Chars(bs: seq<byte>): (r: string)
    ensures |r| == |bs| && forall i :: 0 <= i < |bs| ==> r[i] == bs[i] as char
  {
    seq(|bs|, i requires 0 <= i < |bs| => bs[i] as char)
  }

  /** The FIFO object: a fixed-size buffer and its three control fields. */
  class FifoBuffer {
    var buffer: array<byte>
    var length: byte
    var position: byte
    var ready: bool

    ghost predicate Valid()
      reads this
    {
      1 <= length as int <= buffer.Length && position < length
    }

    function State(): FifoState
      reads this, buffer
    {
      FifoState(buffer[..], length, position, ready)
    }

    /** The static initialiser in firmware/hardware_io.c: zeroed data, full
        length, position at the top, not ready. */
    constructor (size: byte)
      requires size >= 1
      ensures Valid() && fresh(buffer)
      ensures State() == FifoState(seq(size, _ => 0), size, size - 1, false)
    {
      buffer := new byte[size](_ => 0);
      length := size;
      position := size - 1;
      ready := false;
    }

    /** `handling_usb_fifo_buffer` with `c` the byte `getchar` returned. */
    method Handle(c: byte)
      requires position as int < buffer.Length
      modifies this, buffer
      ensures buffer == old(buffer)
      ensures State() == Step(old(State()), c)
      ensures old(Valid()) ==> Valid()
    {
      buffer[position] := c;
      if position == 0 {
        position := (length - 1) % 256;
        ready := true;
      } else {
        position := position - 1;
        ready := false;
      }
    }
  }
}
