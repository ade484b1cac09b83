/**
 The I/O buffer: a byte vector with a reading and a writing index.

 The vector is a sequence that the methods reassign.  A copy that would run past
 the end of the vector is undefined in the original; here it is the outcome
 `overrun`, after which nothing is promised.
 */
module IoBuffers {
  import opened Bytes

  const RESERVED: nat := 8
  const INITIAL_CAPACITY: nat := 1024
  /** The largest object size, and one past the largest `size_t`. */
  const PTRDIFF_MAX: nat := 0x7FFF_FFFF_FFFF_FFFF
  const SIZE_MODULUS: nat := 0x1_0000_0000_0000_0000

  /** The state of a buffer. */
  datatype Buf = Buf(bytes: seq<Byte>, reading: nat, writing: nat) {
    predicate Valid() { reading <= writing <= |bytes| }

    function Readable(): nat
      requires Valid()
    {
      writing - reading
    }

    function Writable(): nat
      requires Valid()
    {
      |bytes| - writing
    }

    function Contents(): seq<Byte>
      requires Valid()
    {
      bytes[reading..writing]
    }
  }

  /** `GetWritableBytes() + GetReservedBytes() - kReservedCapacity` in `size_t` arithmetic. */
  function SlackModulo(b: Buf): nat
    requires b.Valid()
  {
    (b.Writable() + b.reading + SIZE_MODULUS - RESERVED) % SIZE_MODULUS
  }

  datatype Outcome = Done(buf: Buf) | Overrun

  /** `bytes` with the block `src` copied to index `at`. */
  function Copied(bytes: seq<Byte>, at: nat, src: seq<Byte>): (r: seq<Byte>)
    requires at + |src| <= |bytes|
    ensures |r| == |bytes|
    ensures r[at..at + |src|] == src
    ensures forall i :: 0 <= i < |bytes| && !(at <= i < at + |src|) ==> r[i] == bytes[i]
  {
    bytes[..at] + src + bytes[at + |src|..]
  }

  function Resized(bytes: seq<Byte>, n: nat): (r: seq<Byte>)
    ensures |r| == n
    ensures forall i :: 0 <= i < n && i < |bytes| ==> r[i] == bytes[i]
  {
    if n <= |bytes| then bytes[..n] else bytes + seq(n - |bytes|, _ => 0)
  }

  /** ReserveWritableSpace as written: grow, or move the contents down to the reserved head. */
  function Reserved(b: Buf, len: nat): Outcome
    requires b.Valid()
  {
    if SlackModulo(b) < len then
      Done(b.(bytes := Resized(b.bytes, b.writing + len)))
    else if |b.bytes| < RESERVED + b.Readable() then Overrun
    else
      // The write index is recomputed from the new read index, so it does not move.
      Done(Buf(Copied(b.bytes, RESERVED, b.Contents()), RESERVED, RESERVED + (b.writing - RESERVED)))
  }

  function Ensured(b: Buf, len: nat): Outcome
    requires b.Valid()
  {
    if b.Writable() < len then Reserved(b, len) else Done(b)
  }

  function Appended(b: Buf, data: seq<Byte>): Outcome
    requires b.Valid()
  {
    match Ensured(b, |data|)
    case Overrun => Overrun
    case Done(c) =>
      if !c.Valid() || c.Writable() < |data| then Overrun
      else Done(c.(bytes := Copied(c.bytes, c.writing, data), writing := c.writing + |data|))
  }

  // ---------------------------------------------------------------------------
  // When making room works
  // ---------------------------------------------------------------------------

  /** Room for `len` bytes is there, or the vector grows: the compaction branch is not taken. */
  predicate RoomGuard(b: Buf, len: nat)
    requires b.Valid()
  {
    || len <= b.Writable()
    || (RESERVED <= b.Writable() + b.reading && b.Writable() + b.reading - RESERVED < len)
  }

  /** What a caller of EnsureWritableSpace expects. */
  predicate RoomMade(b: Buf, len: nat, o: Outcome)
    requires b.Valid()
  {
    o.Done? && o.buf.Valid() && len <= o.buf.Writable() && o.buf.Contents() == b.Contents()
  }

  lemma SlackCases(b: Buf)
    requires b.Valid() && |b.bytes| <= PTRDIFF_MAX
    ensures RESERVED <= b.Writable() + b.reading ==> SlackModulo(b) == b.Writable() + b.reading - RESERVED
    ensures b.Writable() + b.reading < RESERVED ==> PTRDIFF_MAX < SlackModulo(b)
  {
  }

  /** EnsureWritableSpace keeps its promise exactly when the guard holds. */
  lemma EnsuredIff(b: Buf, len: nat)
    requires b.Valid() && |b.bytes| <= PTRDIFF_MAX && len <= PTRDIFF_MAX
    ensures RoomMade(b, len, Ensured(b, len)) <==> RoomGuard(b, len)
  {
    SlackCases(b);
    if b.Writable() < len && RoomGuard(b, len) {
      var c := Ensured(b, len).buf;
      assert c.Contents() == b.Contents();
    }
  }

  /** Append adds its bytes at the end exactly when the guard holds; otherwise it runs past the vector. */
  lemma AppendedIff(b: Buf, data: seq<Byte>)
    requires b.Valid() && |b.bytes| <= PTRDIFF_MAX && |data| <= PTRDIFF_MAX
    ensures RoomGuard(b, |data|) ==>
              var o := Appended(b, data);
              && o.Done? && o.buf.Valid()
              && o.buf.Contents() == b.Contents() + data
              && o.buf.reading == b.reading
              && |o.buf.bytes| == (if |data| <= b.Writable() then |b.bytes| else b.writing + |data|)
    ensures !RoomGuard(b, |data|) ==> Appended(b, data) == Overrun
  {
    SlackCases(b);
    EnsuredIff(b, |data|);
    if RoomGuard(b, |data|) {
      var c := Ensured(b, |data|).buf;
      var d := Appended(b, data).buf;
      assert d.bytes[c.reading..c.writing] == c.Contents();
      assert d.Contents() == c.Contents() + data;
    }
  }

  /** A buffer whose contents start right after the reserved head always makes room. */
  lemma HeadAlignedMakesRoom(b: Buf, len: nat)
    requires b.Valid() && b.reading == RESERVED
    ensures RoomGuard(b, len)
  {
  }

  /** The compaction that the comment in the source describes: the contents keep their length. */
  function CompactedAsIntended(b: Buf): Buf
    requires b.Valid() && RESERVED <= b.reading
  {
    Buf(Copied(b.bytes, RESERVED, b.Contents()), RESERVED, RESERVED + b.Readable())
  }

  /** With the intended compaction the failing branch would make room and keep the contents. */
  lemma IntendedCompactionMakesRoom(b: Buf, len: nat)
    requires b.Valid() && |b.bytes| <= PTRDIFF_MAX && RESERVED <= b.reading && !RoomGuard(b, len)
    ensures RoomMade(b, len, Done(CompactedAsIntended(b)))
  {
  }

  // ---------------------------------------------------------------------------
  // Receiving: the kernel fills the free space and puts the rest in a side buffer
  // ---------------------------------------------------------------------------

  /** The part of `data` that fits behind the contents, written there by the kernel. */
  function Filled(b: Buf, data: seq<Byte>): Buf
    requires b.Valid() && |data| <= b.Writable()
  {
    b.(bytes := Copied(b.bytes, b.writing, data), writing := b.writing + |data|)
  }

  /** What the completion of a read makes of the buffer. */
  function Received(b: Buf, data: seq<Byte>): Outcome
    requires b.Valid()
  {
    if |data| <= b.Writable() then Done(Filled(b, data))
    else Appended(Filled(b, data[..b.Writable()]), data[b.Writable()..])
  }

  /** The data fits, or what is left of it is more than the contents have already been read. */
  predicate ReceiveGuard(b: Buf, n: nat)
    requires b.Valid()
  {
    n <= b.Writable() || (RESERVED <= b.reading && b.reading - RESERVED < n - b.Writable())
  }

  lemma FilledContents(b: Buf, data: seq<Byte>)
    requires b.Valid() && |data| <= b.Writable()
    ensures Filled(b, data).Valid() && Filled(b, data).Contents() == b.Contents() + data
  {
    var c := Filled(b, data);
    assert c.bytes[b.reading..b.writing] == b.Contents();
    assert c.Contents() == c.bytes[b.reading..b.writing] + c.bytes[b.writing..c.writing];
  }

  /** A read adds its data at the end exactly when the guard holds; otherwise the copy runs past the vector. */
  lemma ReceivedIff(b: Buf, data: seq<Byte>)
    requires b.Valid() && |b.bytes| <= PTRDIFF_MAX && |data| <= PTRDIFF_MAX
    ensures ReceiveGuard(b, |data|) ==>
              var o := Received(b, data);
              o.Done? && o.buf.Valid() && o.buf.Contents() == b.Contents() + data && o.buf.reading == b.reading
    ensures !ReceiveGuard(b, |data|) ==> Received(b, data) == Overrun
  {
    if |data| <= b.Writable() {
      FilledContents(b, data);
    } else {
      var w := b.Writable();
      SpilledIff(b, data[..w], data[w..]);
      assert data[..w] + data[w..] == data;
    }
  }

  /** A buffer whose contents start right after the reserved head takes any read. */
  lemma HeadAlignedReceives(b: Buf, n: nat)
    requires b.Valid() && b.reading == RESERVED
    ensures ReceiveGuard(b, n)
  {
  }

  /** The free space is full and the rest is appended. */
  lemma SpilledIff(b: Buf, front: seq<Byte>, rest: seq<Byte>)
    requires b.Valid() && |b.bytes| <= PTRDIFF_MAX && |front| == b.Writable() && 0 < |rest| <= PTRDIFF_MAX
    ensures var o := Appended(Filled(b, front), rest);
            if RESERVED <= b.reading && b.reading - RESERVED < |rest|
            then
              && o.Done? && o.buf.Valid()
              && o.buf.Contents() == b.Contents() + (front + rest) && o.buf.reading == b.reading
            else o == Overrun
  {
    FilledContents(b, front);
    AppendedIff(Filled(b, front), rest);
    assert b.Contents() + front + rest == b.Contents() + (front + rest);
  }

  class IoBuffer {
    var buffer: seq<Byte>
    var reading: nat
    var writing: nat

    function View(): Buf
      reads this
    {
      Buf(buffer, reading, writing)
    }

    predicate Valid()
      reads this
    {
      View().Valid() && RESERVED <= |buffer| <= PTRDIFF_MAX
    }

    function Contents(): seq<Byte>
      reads this
      requires Valid()
    {
      View().Contents()
    }

    constructor (capacity: nat)
      requires RESERVED + capacity <= PTRDIFF_MAX
      ensures Valid() && Contents() == []
      ensures reading == writing == RESERVED && |buffer| == RESERVED + capacity
    {
      buffer := seq(RESERVED + capacity, _ => 0);
      reading := RESERVED;
      writing := RESERVED;
    }

    method Swap(other: IoBuffer)
      modifies this, other
      ensures View() == old(other.View()) && other.View() == old(View())
    {
      buffer, other.buffer := other.buffer, buffer;
      reading, other.reading := other.reading, reading;
      writing, other.writing := other.writing, writing;
    }

    method RefreshRW()
      requires Valid()
      modifies this
      ensures Valid() && buffer == old(buffer) && reading == writing == RESERVED
    {
      reading := RESERVED;
      writing := RESERVED;
    }

    /** The kernel has filled `len` writable bytes. */
    method RefreshW(len: nat)
      requires Valid() && len <= View().Writable()
      modifies this
      ensures Valid() && buffer == old(buffer) && reading == old(reading) && writing == old(writing) + len
      ensures Contents() == old(Contents()) + old(buffer[writing..writing + len])
    {
      writing := writing + len;
    }

    /** Drop the first `len` readable bytes, or all of them. */
    method Refresh(len: nat)
      requires Valid()
      modifies this
      ensures Valid() && buffer == old(buffer)
      ensures Contents() == if len < |old(Contents())| then old(Contents())[len..] else []
      ensures Contents() == [] ==> reading == RESERVED
      ensures len < |old(Contents())| ==> reading == old(reading) + len
      ensures writing == old(writing) || writing == RESERVED
    {
      if len < writing - reading {
        reading := reading + len;
      } else {
        RefreshRW();
      }
    }

    method ReserveWritableSpace(len: nat) returns (overrun: bool)
      requires Valid() && len <= PTRDIFF_MAX && writing + len <= PTRDIFF_MAX
      modifies this
      ensures overrun <==> Reserved(old(View()), len) == Overrun
      ensures !overrun ==> View() == Reserved(old(View()), len).buf
      ensures overrun ==> View() == old(View())
    {
      overrun := false;
      if (|buffer| - writing + reading + SIZE_MODULUS - RESERVED) % SIZE_MODULUS < len {
        buffer := Resized(buffer, writing + len);
      } else if |buffer| < RESERVED + (writing - reading) {
        overrun := true;
      } else {
        buffer := Copied(buffer, RESERVED, buffer[reading..writing]);
        reading := RESERVED;
        writing := RESERVED + (writing - reading);
      }
    }

    method EnsureWritableSpace(len: nat) returns (overrun: bool)
      requires Valid() && len <= PTRDIFF_MAX && writing + len <= PTRDIFF_MAX
      modifies this
      ensures overrun <==> Ensured(old(View()), len) == Overrun
      ensures !overrun ==> View() == Ensured(old(View()), len).buf
      ensures overrun ==> View() == old(View())
      ensures RoomMade(old(View()), len, if overrun then Overrun else Done(View())) <==> RoomGuard(old(View()), len)
    {
      EnsuredIff(View(), len);
      overrun := false;
      if len > |buffer| - writing {
        overrun := ReserveWritableSpace(len);
      }
    }

    /** Add `data` at the end; the copy overruns the vector exactly when the guard fails. */
    method Append(data: seq<Byte>) returns (overrun: bool)
      requires Valid() && writing + |data| <= PTRDIFF_MAX
      modifies this
      ensures overrun <==> !RoomGuard(old(View()), |data|)
      ensures !overrun ==> Valid() && View() == Appended(old(View()), data).buf
      ensures !overrun ==> Contents() == old(Contents()) + data && reading == old(reading)
      ensures !overrun ==> old(|buffer|) <= |buffer|
    {
      AppendedIff(View(), data);
      overrun := EnsureWritableSpace(|data|);
      if !overrun {
        overrun := reading > writing || |buffer| - writing < |data|;
        if !overrun {
          buffer := Copied(buffer, writing, data);
          writing := writing + |data|;
        }
      }
    }

    /**
     A read completes.  The kernel has put the front of `data` into the free space
     and the rest into the side buffer, which is appended.
     */
    method Receive(data: seq<Byte>) returns (overrun: bool)
      requires Valid() && writing + |data| <= PTRDIFF_MAX
      modifies this
      ensures overrun <==> !ReceiveGuard(old(View()), |data|)
      ensures !overrun ==> Valid() && View() == Received(old(View()), data).buf
      ensures !overrun ==> Contents() == old(Contents()) + data && reading == old(reading)
      ensures !overrun ==> writing == old(writing) + |data|
    {
      ReceivedIff(View(), data);
      var writable := |buffer| - writing;
      if |data| <= writable {
        Fill(data);
        return false;
      }
      Fill(data[..writable]);
      overrun := Append(data[writable..]);
    }

    /** The kernel writes behind the contents, and the bytes become readable. */
    method Fill(data: seq<Byte>)
      requires Valid() && |data| <= View().Writable()
      modifies this
      ensures Valid() && View() == Filled(old(View()), data)
    {
      buffer := Copied(buffer, writing, data);
      RefreshW(|data|);
    }

    /** Put `data` in front of the contents if the reserved head has room; otherwise log and do nothing. */
    method SetHeadContent(data: seq<Byte>)
      requires Valid()
      modifies this
      ensures Valid() && |buffer| == old(|buffer|)
      ensures |data| <= old(reading) ==> Contents() == data + old(Contents()) && reading == old(reading) - |data|
      ensures old(reading) < |data| ==> View() == old(View())
    {
      if |data| > reading { return; }
      reading := reading - |data|;
      ghost var kept := buffer[reading + |data|..writing];
      buffer := Copied(buffer, reading, data);
      assert buffer[reading + |data|..writing] == kept;
      assert Contents() == buffer[reading..reading + |data|] + buffer[reading + |data|..writing];
    }

    /** Copy the contents into a fresh vector with `len` bytes of room; tiny requests are ignored. */
    method ShrinkWritableSpace(len: nat)
      requires Valid() && 2 * RESERVED + |Contents()| + len <= PTRDIFF_MAX
      modifies this
      ensures Valid() && Contents() == old(Contents())
      ensures len <= 32 ==> View() == old(View())
      ensures 32 < len ==> reading == RESERVED && len <= View().Writable()
    {
      if len <= 32 { return; }
      var replacement := new IoBuffer(INITIAL_CAPACITY);
      HeadAlignedMakesRoom(replacement.View(), RESERVED + (writing - reading) + len);
      EnsuredIff(replacement.View(), RESERVED + (writing - reading) + len);
      SlackCases(replacement.View());
      var overrun := replacement.EnsureWritableSpace(RESERVED + (writing - reading) + len);
      overrun := replacement.Append(buffer[reading..writing]);
      Swap(replacement);
    }

    // Integers of 1, 2, 4 or 8 bytes, big-endian two's complement.

    method AppendInt(x: int, width: nat) returns (overrun: bool)
      requires Valid() && width in {1, 2, 4, 8} && Fits(x, width) && writing + width <= PTRDIFF_MAX
      modifies this
      ensures overrun <==> !RoomGuard(old(View()), width)
      ensures !overrun ==> Valid() && Contents() == old(Contents()) + IntBytes(x, width) && reading == old(reading)
      ensures !overrun ==> old(|buffer|) <= |buffer|
    {
      overrun := Append(IntBytes(x, width));
    }

    method SetHeadContentInt(x: int, width: nat)
      requires Valid() && width in {1, 2, 4, 8} && Fits(x, width)
      modifies this
      ensures Valid() && |buffer| == old(|buffer|)
      ensures width <= old(reading) ==> Contents() == IntBytes(x, width) + old(Contents())
      ensures old(reading) < width ==> View() == old(View())
    {
      SetHeadContent(IntBytes(x, width));
    }

    /** The integer at the front; zero when too few bytes are readable. */
    method GetReadableInt(width: nat) returns (x: int)
      requires Valid() && width in {1, 2, 4, 8}
      ensures x == if width <= |Contents()| then BytesInt(Contents()[..width]) else 0
    {
      if width > writing - reading { return 0; }
      assert Contents()[..width] == buffer[reading..reading + width];
      x := BytesInt(buffer[reading..reading + width]);
    }

    /** Read the integer at the front; a short buffer yields zero and is emptied. */
    method RetrieveInt(width: nat) returns (x: int)
      requires Valid() && width in {1, 2, 4, 8}
      modifies this
      ensures Valid() && buffer == old(buffer)
      ensures width <= |old(Contents())| ==>
                x == BytesInt(old(Contents())[..width]) && Contents() == old(Contents())[width..]
      ensures |old(Contents())| < width ==> x == 0 && Contents() == []
    {
      x := GetReadableInt(width);
      Refresh(width);
    }

    /** The first `len` bytes, or nothing when fewer are readable. */
    method RetrieveAString(len: nat) returns (data: seq<Byte>)
      requires Valid()
      modifies this
      ensures Valid() && buffer == old(buffer)
      ensures len <= |old(Contents())| ==> old(Contents()) == data + Contents() && |data| == len
      ensures |old(Contents())| < len ==> data == [] && View() == old(View())
    {
      if len > writing - reading { return []; }
      data := buffer[reading..reading + len];
      Refresh(len);
    }
  }

  /** An integer written to an empty buffer is read back, whatever its value. */
  method AppendThenRetrieve(b: IoBuffer, x: int, width: nat) returns (y: int)
    requires b.Valid() && b.Contents() == [] && b.reading == RESERVED
    requires width in {1, 2, 4, 8} && Fits(x, width) && b.writing + width <= PTRDIFF_MAX
    modifies b
    ensures y == x && b.Valid() && b.Contents() == []
  {
    HeadAlignedMakesRoom(b.View(), width);
    IntRoundTrip(x, width);
    var overrun := b.AppendInt(x, width);
    assert b.Contents()[..width] == IntBytes(x, width);
    y := b.RetrieveInt(width);
  }

  /** An integer put in the reserved head is read back and leaves the contents as they were. */
  method HeadThenRetrieve(b: IoBuffer, x: int, width: nat) returns (y: int)
    requires b.Valid() && width in {1, 2, 4, 8} && Fits(x, width) && width <= b.reading
    modifies b
    ensures y == x && b.Valid() && b.Contents() == old(b.Contents())
  {
    IntRoundTrip(x, width);
    b.SetHeadContentInt(x, width);
    assert b.Contents()[..width] == IntBytes(x, width);
    y := b.RetrieveInt(width);
  }

  /** A small buffer, half read, with more free space in front than behind: the next append overruns. */
  method CompactionOverruns(payload: seq<Byte>, next: seq<Byte>) returns (overrun: bool)
    requires |payload| == 6 && |next| == 4
    ensures overrun
  {
    var b := new IoBuffer(8);
    HeadAlignedMakesRoom(b.View(), 6);
    AppendedIff(b.View(), payload);
    overrun := b.Append(payload);
    b.Refresh(4);
    overrun := b.Append(next);
  }

  /** Reading does the same: 700 bytes arrive, a frame of 600 is consumed, and the next 800 overrun. */
  method ReceiveOverruns(first: seq<Byte>, next: seq<Byte>) returns (overrun: bool)
    requires |first| == 700 && |next| == 800
    ensures overrun
  {
    var b := new IoBuffer(INITIAL_CAPACITY);
    overrun := b.Receive(first);
    b.Refresh(600);
    overrun := b.Receive(next);
  }
}
