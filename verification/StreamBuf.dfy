/** The resizing stream buffer: a get area and a put area in one vector. */
module StreamBufs {
  import opened Arithmetic
  import opened ByteTypes

  const BUFFER_DELTA := 128
  const EOF := -1
  const INT_LIMIT := 0x8000_0000

  /** The `int` a count is converted to. */
  function ToInt(n: nat): (r: int)
    ensures r == n <==> n < INT_LIMIT
  {
    (n + INT_LIMIT) % (2 * INT_LIMIT) - INT_LIMIT
  }

  /** What the readable bytes become when a failing reserve moves them down by g bytes
      but leaves the pointers where they were. */
  function Slipped(readable: seq<Byte>, g: nat): (r: seq<Byte>)
    ensures |r| == |readable|
  {
    if g >= |readable| then readable else readable[g..] + readable[|readable| - g..]
  }

  /** A failed prepare leaves every possible content readable exactly when nothing was consumed since the
      last compaction, or at least as much as is still readable. */
  lemma SlipHarmlessIff(size: nat, g: nat)
    ensures (forall r: seq<Byte> :: |r| == size ==> Slipped(r, g) == r) <==> g == 0 || size <= g
  {
    if 0 < g < size {
      var r: seq<Byte> := [1] + Zeros(size - 1);
      assert Slipped(r, g)[0] == r[g] == 0;
      assert Slipped(r, g) != r;
    } else if g == 0 {
      forall r: seq<Byte> | |r| == size
        ensures Slipped(r, g) == r
      {
        assert r[0..] + r[|r|..] == r;
      }
    }
  }

  class StreamBuf {
    const maxSize: nat
    var buffer: seq<Byte>
    var gptr: int
    var egptr: int
    var pptr: int
    var epptr: int
    ghost var committed: seq<Byte>
    ghost var consumed: nat

    /** The areas lie in order in the vector and never exceed the maximum size. */
    predicate Pointers()
      reads this
    {
      0 <= gptr <= egptr <= pptr <= epptr <= |buffer| && epptr <= maxSize && 0 < |buffer|
    }

    function Readable(): (r: seq<Byte>)
      requires Pointers()
      reads this
      ensures |r| == pptr - gptr <= maxSize
    {
      buffer[gptr..pptr]
    }

    /** The readable bytes are those committed so far without the consumed ones. */
    ghost predicate Valid()
      reads this
    {
      Pointers() && consumed <= |committed| && Readable() == committed[consumed..]
    }

    constructor (maximumSize: nat)
      ensures Valid() && maxSize == maximumSize && committed == [] && consumed == 0 && Readable() == []
      ensures epptr - pptr == Min(maximumSize, 128)
    {
      maxSize := maximumSize;
      var pend := Min(maximumSize, BUFFER_DELTA);
      buffer := Zeros(Max(pend, 1));
      gptr, egptr, pptr := 0, 0, 0;
      epptr := pend;
      committed, consumed := [], 0;
    }

    method Size() returns (n: nat)
      requires Pointers()
      ensures n == |Readable()| <= maxSize
    {
      n := pptr - gptr;
    }

    /** Makes room for n more bytes, by compaction or growth. It fails exactly when the maximum size does not
        allow them; a failure does not restore what the compaction moved. */
    method Reserve(n: nat) returns (ok: bool)
      requires Valid()
      modifies `buffer, `gptr, `egptr, `pptr, `epptr
      ensures ok <==> |old(Readable())| + n <= maxSize
      ensures ok ==> Valid() && Readable() == old(Readable()) && n <= epptr - pptr
      ensures !ok ==> Pointers() && Readable() == Slipped(old(Readable()), gptr) && gptr == old(gptr)
    {
      var gnext, pnext, pend := gptr, pptr, epptr;
      if n <= pend - pnext {
        return true;
      }
      if gnext > 0 {
        pnext := pnext - gnext;
        buffer := buffer[gnext..gnext + pnext] + buffer[pnext..];
      }
      assert buffer[..pnext] == old(Readable());
      if n > pend - pnext {
        if n <= maxSize && pnext <= maxSize - n {
          pend := pnext + n;
          buffer := Resized(buffer, Max(pend, 1));
        } else {
          SlippedBytes(old(buffer), buffer, gnext, pptr);
          return false;
        }
      }
      gptr, egptr := 0, pnext;
      pptr, epptr := pnext, pend;
      return true;
    }

    /** The room for n bytes begins at the put pointer. */
    method Prepare(n: nat) returns (ok: bool, room: nat)
      requires Valid()
      modifies `buffer, `gptr, `egptr, `pptr, `epptr
      ensures ok <==> |old(Readable())| + n <= maxSize
      ensures ok ==> Valid() && Readable() == old(Readable()) && room == pptr && room + n <= epptr
      ensures !ok ==> Pointers() && Readable() == Slipped(old(Readable()), gptr) && gptr == old(gptr)
    {
      ok := Reserve(n);
      room := pptr;
    }

    /** The caller writes into the prepared room. */
    method Fill(data: seq<Byte>)
      requires Valid() && |data| <= epptr - pptr
      modifies `buffer
      ensures Valid() && Readable() == old(Readable())
      ensures buffer[pptr..pptr + |data|] == data
    {
      buffer := buffer[..pptr] + data + buffer[pptr + |data|..];
    }

    /** Appends the first n bytes of the put area, or all of it, to the readable bytes; the pointer follows
        exactly when their number is an `int`. */
    method Commit(n: nat)
      requires Valid()
      modifies `egptr, `pptr, `committed
      ensures consumed == old(consumed)
      ensures committed == old(committed) + old(buffer[pptr..pptr + Min(n, epptr - pptr)])
      ensures pptr == old(pptr) + ToInt(Min(n, old(epptr - pptr)))
      ensures Valid() <==> Min(n, old(epptr - pptr)) < 0x8000_0000
    {
      var count := n;
      if pptr + count > epptr {
        count := epptr - pptr;
      }
      committed := committed + buffer[pptr..pptr + count];
      pptr := pptr + ToInt(count);
      egptr := pptr;
      if count < INT_LIMIT {
        assert Readable() == old(Readable()) + old(buffer[pptr..pptr + Min(n, epptr - pptr)]);
      }
    }

    /** Drops the first n readable bytes, or all of them; the pointer follows exactly when their number is
        an `int`. */
    method Consume(n: nat)
      requires Valid()
      modifies `gptr, `egptr, `consumed
      ensures committed == old(committed)
      ensures consumed == old(consumed) + Min(n, |old(Readable())|)
      ensures gptr == old(gptr) + ToInt(Min(n, |old(Readable())|))
      ensures Valid() <==> Min(n, |old(Readable())|) < 0x8000_0000
    {
      if egptr < pptr {
        egptr := pptr;
      }
      var count := n;
      if gptr + count > pptr {
        count := pptr - gptr;
      }
      consumed := consumed + count;
      gptr := gptr + ToInt(count);
    }

    /** The first readable byte, or nothing at the end. */
    method Underflow() returns (c: int)
      requires Valid()
      modifies `egptr
      ensures Valid() && Readable() == old(Readable())
      ensures c == if Readable() == [] then -1 else Readable()[0]
    {
      if gptr < pptr {
        egptr := pptr;
        c := buffer[gptr];
      } else {
        c := -1;
      }
    }

    /** Stores one byte at the put pointer. */
    method Put(c: Byte)
      requires Valid() && pptr < epptr
      modifies `buffer, `pptr, `committed
      ensures Valid() && committed == old(committed) + [c] && pptr == old(pptr) + 1
    {
      ghost var readable := Readable();
      buffer := buffer[pptr := c];
      committed := committed + [c];
      pptr := pptr + ToInt(1);
      assert Readable() == readable + [c];
    }

    /** Appends one byte. It fails exactly when the buffer is full, and then changes nothing readable; the
        end of file is not appended and answered with something else. When the put area is used up it makes room
        for 128 bytes, or as many as the maximum size allows. */
    method Overflow(c: int) returns (ok: bool, r: int)
      requires Valid() && (c == EOF || 0 <= c < 256)
      modifies this
      ensures Valid() && consumed == old(consumed)
      ensures ok <==> c == EOF || |old(Readable())| < maxSize
      ensures ok ==> r != EOF && (c != EOF ==> r == c)
      ensures committed == old(committed) + if ok && c != EOF then [c as Byte] else []
      ensures ok && c != EOF && old(pptr == epptr) ==>
                epptr - pptr + 1 >= Min(128, maxSize - |old(Readable())|)
    {
      if c == EOF {
        return true, 0;
      }
      if pptr == epptr {
        var size := pptr - gptr;
        if size < maxSize && maxSize - size < BUFFER_DELTA {
          ok := Reserve(maxSize - size);
        } else {
          ok := Reserve(BUFFER_DELTA);
        }
        if !ok {
          assert Slipped(old(Readable()), gptr) == old(Readable());
          return false, EOF;
        }
      }
      Put(c as Byte);
      return true, c;
    }
  }

  function Resized(buffer: seq<Byte>, size: nat): (r: seq<Byte>)
    ensures |r| == size
    ensures r[..Min(size, |buffer|)] == buffer[..Min(size, |buffer|)]
  {
    if size <= |buffer| then buffer[..size] else buffer + Zeros(size - |buffer|)
  }

  /** 2^31 bytes prepared, filled and committed: the put pointer moves back instead of forward. */
  method CommitTooMany() returns (b: StreamBuf)
    ensures b.committed == Zeros(INT_LIMIT) && b.consumed == 0
    ensures !b.Valid() && b.pptr == b.gptr - INT_LIMIT
  {
    b := new StreamBuf(2 * INT_LIMIT);
    var ok, room := b.Prepare(INT_LIMIT);
    b.Fill(Zeros(INT_LIMIT));
    assert b.pptr == b.gptr + |b.Readable()|;
    b.Commit(INT_LIMIT);
  }

  lemma SlippedBytes(before: seq<Byte>, after: seq<Byte>, g: nat, p: nat)
    requires g <= p <= |before| && after == if g > 0 then before[g..p] + before[p - g..] else before
    ensures after[g..p] == Slipped(before[g..p], g)
  {
    var readable, slipped := before[g..p], after[g..p];
    forall j | 0 <= j < p - g
      ensures slipped[j] == Slipped(readable, g)[j]
    {
      assert slipped[j] == after[g + j];
      if g > 0 && g + j >= p - g {
        assert after[g + j] == before[p - g..][g + j - (p - g)] == before[g + j];
      }
    }
  }
}
