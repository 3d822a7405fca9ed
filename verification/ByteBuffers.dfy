/** The growing byte buffer packets are written to, and the bounded reader they are read from. */
module ByteBuffers {
  import Arithmetic
  import opened ByteTypes

  function Pow2(k: nat): nat {
    if k == 0 then 1 else 2 * Pow2(k - 1)
  }

  /** 16-bit samples as memory. */
  function ShortsToBytes(samples: seq<int>): (r: seq<Byte>)
    requires forall s :: s in samples ==> IsSigned(s, 2)
    ensures |r| == 2 * |samples|
  {
    if samples == [] then []
    else
      assert samples[0] in samples;
      SignedRoundTrip(samples[0], 2);
      ToBytes(Unsigned(samples[0], 2), 2) + ShortsToBytes(samples[1..])
  }

  /** The whole samples at the start of some memory. */
  function BytesToShorts(bytes: seq<Byte>): (r: seq<int>)
    ensures |r| == |bytes| / 2
  {
    if |bytes| < 2 then [] else [Signed(FromBytes(bytes[..2]), 2)] + BytesToShorts(bytes[2..])
  }

  class MutableByteBuffer {
    var data: array<Byte>
    var write: nat
    ghost const initialSize: nat
    /** How often the array was doubled, and how many bytes that copied in all. */
    ghost var doublings: nat
    ghost var copied: nat

    /** The capacity is the initial one doubled some times, never beyond twice what was written,
        and all growth together copied no more than the capacity it gained. */
    ghost predicate Valid()
      reads this, data
    {
      && 0 < initialSize && write <= data.Length
      && data.Length == initialSize * Pow2(doublings)
      && copied + initialSize == data.Length <= Arithmetic.Max(initialSize, 2 * write)
    }

    function Contents(): (r: seq<Byte>)
      requires write <= data.Length
      reads this, data
    {
      data[..write]
    }

    constructor (initial: nat)
      requires 0 < initial
      ensures Valid() && Contents() == [] && initialSize == initial && fresh(data)
    {
      data := new Byte[initial];
      write := 0;
      initialSize, doublings, copied := initial, 0, 0;
    }

    method IncreaseSize()
      requires Valid() && write == data.Length
      modifies this
      ensures Valid() && Contents() == old(Contents()) && data.Length == 2 * old(data.Length)
      ensures write == old(write) && fresh(data)
    {
      var ndata := new Byte[data.Length * 2];
      forall i | 0 <= i < data.Length {
        ndata[i] := data[i];
      }
      copied := copied + data.Length;
      doublings := doublings + 1;
      assert initialSize * Pow2(doublings) == 2 * (initialSize * Pow2(doublings - 1));
      data := ndata;
    }

    method Write(bytes: seq<Byte>)
      requires Valid()
      modifies this, data
      ensures Valid() && Contents() == old(Contents()) + bytes
      ensures data == old(data) || fresh(data)
    {
      var idx := 0;
      while idx < |bytes|
        invariant 0 <= idx <= |bytes|
        invariant Valid() && Contents() == old(Contents()) + bytes[..idx]
        invariant data == old(data) || fresh(data)
      {
        if write >= data.Length {
          IncreaseSize();
        }
        data[write] := bytes[idx];
        write := write + 1;
        idx := idx + 1;
      }
    }

    method WriteUint8(v: Byte)
      requires Valid()
      modifies this, data
      ensures Valid() && Contents() == old(Contents()) + [v]
      ensures data == old(data) || fresh(data)
    {
      Write([v]);
    }

    method WriteUnsignedLong(v: nat)
      requires Valid() && v < Range(8)
      modifies this, data
      ensures Valid() && Contents() == old(Contents()) + ToBytes(v, 8)
      ensures data == old(data) || fresh(data)
    {
      Write(ToBytes(v, 8));
    }

    method WriteSignedLong(v: int)
      requires Valid() && IsSigned(v, 8)
      modifies this, data
      ensures Valid() && Unsigned(v, 8) >= 0 && Contents() == old(Contents()) + ToBytes(Unsigned(v, 8), 8)
      ensures data == old(data) || fresh(data)
    {
      SignedRoundTrip(v, 8);
      Write(ToBytes(Unsigned(v, 8), 8));
    }

    method WriteNShorts(samples: seq<int>)
      requires Valid() && forall s :: s in samples ==> IsSigned(s, 2)
      modifies this, data
      ensures Valid() && Contents() == old(Contents()) + ShortsToBytes(samples)
      ensures data == old(data) || fresh(data)
    {
      Write(ShortsToBytes(samples));
    }

    /** A copy of what was written. */
    method Data() returns (bytes: seq<Byte>)
      requires Valid()
      ensures bytes == Contents()
    {
      bytes := data[..write];
    }
  }

  class ByteBuffer {
    const data: seq<Byte>
    var read: nat

    constructor (bytes: seq<Byte>)
      ensures data == bytes && read == 0
    {
      data, read := bytes, 0;
    }

    predicate Valid()
      reads this
    {
      read <= |data|
    }

    function Rest(): seq<Byte>
      requires Valid()
      reads this
    {
      data[read..]
    }

    method Remaining() returns (n: nat)
      requires Valid()
      ensures n == |Rest()|
    {
      n := |data| - read;
    }

    /** Reads eight bytes, or none when fewer remain. */
    method GetUnsignedLong() returns (count: nat, v: nat)
      requires Valid()
      modifies `read
      ensures Valid() && count == if |old(Rest())| < 8 then 0 else 1
      ensures count == 1 ==> v == FromBytes(old(Rest())[..8]) && Rest() == old(Rest())[8..]
      ensures count == 0 ==> v == 0 && Rest() == old(Rest())
    {
      count, v := 0, 0;
      if |data| - read < 8 {
        return;
      }
      v := FromBytes(data[read..read + 8]);
      assert data[read..read + 8] == old(Rest())[..8];
      read := read + 8;
      count := 1;
    }

    method GetShort() returns (count: nat, v: int)
      requires Valid()
      modifies `read
      ensures Valid() && count == if |old(Rest())| < 2 then 0 else 1
      ensures count == 1 ==> v == Signed(FromBytes(old(Rest())[..2]), 2) && Rest() == old(Rest())[2..]
      ensures count == 0 ==> Rest() == old(Rest())
    {
      count, v := 0, 0;
      if |data| - read < 2 {
        return;
      }
      v := Signed(FromBytes(data[read..read + 2]), 2);
      assert data[read..read + 2] == old(Rest())[..2];
      read := read + 2;
      count := 1;
    }

    /** Reads n samples, or as many whole ones as remain. */
    method GetNShorts(n: nat) returns (count: nat, samples: seq<int>)
      requires Valid()
      modifies `read
      ensures Valid() && count == |samples|
      ensures samples == BytesToShorts(old(Rest()))[..if n < |old(Rest())| / 2 then n else |old(Rest())| / 2]
      ensures Rest() == old(Rest())[2 * count..]
    {
      hide FromBytes, Signed, BytesToShorts;
      ghost var all := BytesToShorts(Rest());
      samples := [];
      var i := 0;
      while i < n
        invariant 0 <= i <= n && i == |samples| && Valid()
        invariant i <= |all| && samples == all[..i] && BytesToShorts(Rest()) == all[i..]
        invariant 2 * i <= |old(Rest())| && Rest() == old(Rest())[2 * i..]
      {
        FirstShort(Rest());
        var got, v := GetShort();
        if got == 0 {
          return i, samples;
        }
        assert all[i..][0] == all[i] && all[i..][1..] == all[i + 1..];
        samples := samples + [v];
        i := i + 1;
      }
      count := n;
    }
  }

  lemma FirstShort(bytes: seq<Byte>)
    ensures |bytes| < 2 ==> BytesToShorts(bytes) == []
    ensures |bytes| >= 2 ==> BytesToShorts(bytes) == [Signed(FromBytes(bytes[..2]), 2)] + BytesToShorts(bytes[2..])
  {
  }

  /** Sample i is at bytes 2i and 2i + 1, the low one first. */
  lemma {:induction false} ShortAt(samples: seq<int>, i: nat)
    requires i < |samples| && forall s :: s in samples ==> IsSigned(s, 2)
    ensures ShortsToBytes(samples)[2 * i] == samples[i] % 256
    ensures ShortsToBytes(samples)[2 * i + 1] == samples[i] / 256 % 256
  {
    assert samples[0] in samples;
    SignedRoundTrip(samples[0], 2);
    var first := ToBytes(Unsigned(samples[0], 2), 2);
    assert ShortsToBytes(samples) == first + ShortsToBytes(samples[1..]);
    if i > 0 {
      ShortAt(samples[1..], i - 1);
    } else {
      var v := samples[0];
      ByteAt(Unsigned(v, 2), 2, 0);
      ByteAt(Unsigned(v, 2), 2, 1);
      UnsignedByte(v, 2, 0);
      UnsignedByte(v, 2, 1);
      assert Range(0) == 1 && Range(1) == 256;
    }
  }

  lemma {:induction false} ShortFrom(bytes: seq<Byte>, i: nat)
    requires 2 * i + 1 < |bytes|
    ensures var samples := BytesToShorts(bytes);
            && IsSigned(samples[i], 2)
            && bytes[2 * i] == samples[i] % 256 && bytes[2 * i + 1] == samples[i] / 256 % 256
    decreases |bytes|
  {
    if i > 0 {
      ShortFrom(bytes[2..], i - 1);
    } else {
      var u := FromBytes(bytes[..2]);
      Ranges();
      ToFromBytes(bytes[..2]);
      UnsignedRoundTrip(u, 2);
      FromBytesAt(bytes[..2], 0);
      FromBytesAt(bytes[..2], 1);
      UnsignedByte(Signed(u, 2), 2, 0);
      UnsignedByte(Signed(u, 2), 2, 1);
      assert Range(0) == 1 && Range(1) == 256;
    }
  }

  lemma {:induction false} ShortsRoundTrip(samples: seq<int>)
    requires forall s :: s in samples ==> IsSigned(s, 2)
    ensures BytesToShorts(ShortsToBytes(samples)) == samples
  {
    if samples != [] {
      var u := Unsigned(samples[0], 2);
      SignedRoundTrip(samples[0], 2);
      FromToBytes(u, 2);
      assert ShortsToBytes(samples)[..2] == ToBytes(u, 2);
      assert ShortsToBytes(samples)[2..] == ShortsToBytes(samples[1..]);
      ShortsRoundTrip(samples[1..]);
    }
  }

  lemma {:induction false} BytesRoundTrip(bytes: seq<Byte>)
    requires |bytes| % 2 == 0
    ensures forall s :: s in BytesToShorts(bytes) ==> IsSigned(s, 2)
    ensures ShortsToBytes(BytesToShorts(bytes)) == bytes
    decreases |bytes|
  {
    if bytes != [] {
      Ranges();
      ToFromBytes(bytes[..2]);
      UnsignedRoundTrip(FromBytes(bytes[..2]), 2);
      BytesRoundTrip(bytes[2..]);
      var samples := BytesToShorts(bytes);
      assert samples[1..] == BytesToShorts(bytes[2..]);
    }
  }
}
