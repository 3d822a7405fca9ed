/** The audio callback and the packets it plays. */
module Playback {
  import Arithmetic
  import opened PlaybackModel
  import OutOfOrder

  function Uint64(x: int): nat {
    x % Arithmetic.UINT64_SIZE
  }

  class MPacket {
    const timestamp: int
    const payload: seq<int>
    var paTimestamp: real
    var playHead: nat

    constructor (time: int, samples: seq<int>)
      ensures timestamp == time && payload == samples && paTimestamp == 0.0 && playHead == 0
    {
      timestamp, payload := time, samples;
      paTimestamp := 0.0;
      playHead := 0;
    }

    predicate Valid()
      reads this
    {
      playHead <= |payload|
    }

    function View(): Track
      requires Valid()
      reads this
    {
      Track(paTimestamp, payload[playHead..])
    }

    function Remaining(): (r: int)
      requires Valid()
      reads this
      ensures r == |View().rest|
    {
      |payload| - playHead
    }

    method GetInt16() returns (sample: int)
      requires Valid() && playHead < |payload|
      modifies `playHead
      ensures Valid() && sample == old(View()).rest[0]
      ensures View() == old(View()).(rest := old(View()).rest[1..])
    {
      sample := payload[playHead];
      playHead := playHead + 1;
    }

    method SetPaTimestamp(t: real)
      modifies `paTimestamp
      ensures paTimestamp == t
    {
      paTimestamp := t;
    }
  }

  /** The queue as values. */
  function Queue(packets: seq<MPacket>): (r: seq<Track>)
    requires forall p :: p in packets ==> p.Valid()
    reads packets
    ensures |r| == |packets|
    ensures forall i :: 0 <= i < |packets| ==> r[i] == packets[i].View()
  {
    if packets == [] then [] else [packets[0].View()] + Queue(packets[1..])
  }

  lemma {:induction false} PcmConcat(a: seq<Frame>, b: seq<Frame>)
    ensures Pcm(a + b) == Pcm(a) + Pcm(b)
  {
    if b == [] {
      assert a + b == a;
    } else {
      assert (a + b)[..|a + b| - 1] == a + b[..|b| - 1];
      PcmConcat(a, b[..|b| - 1]);
    }
  }

  lemma {:induction false} PcmLength(frames: seq<Frame>)
    ensures |Pcm(frames)| == 2 * |frames|
  {
    if frames != [] {
      PcmLength(frames[..|frames| - 1]);
    }
  }

  lemma PcmOne(f: Frame)
    ensures Pcm([]) == [] && Pcm([f]) == if f.Silence? then [0, 0] else [f.left, f.right]
  {
    assert [f][..0] == [];
  }

  lemma StaleIsLong(queue: seq<Track>, last: real)
    requires ShortOnTime(queue, last) && queue != [] && queue[0].stamp < last
    ensures !Short(queue[0])
  {
  }

  lemma PlayFirst(queue: seq<Track>, last: real, n: nat, playTime: real)
    requires n > 0
    ensures var it := Iterate(queue, last, playTime);
            var p, rest := Play(n, queue, last, playTime),
                           Play(n - (if it.counts then 1 else 0), it.queue, it.last, playTime);
            p.frames == it.out + rest.frames && p.queue == rest.queue && p.last == rest.last
  {
    IterationAccounting(n, queue, last, playTime);
    hide Iterate;
  }

  /** What is still to be written, split into one iteration's output and the rest. */
  lemma Regroup(out: seq<int>, queue: seq<Track>, last: real, n: nat, playTime: real)
    requires n > 0
    ensures var it := Iterate(queue, last, playTime);
            var p, rest := Play(n, queue, last, playTime),
                           Play(n - (if it.counts then 1 else 0), it.queue, it.last, playTime);
            && out + Pcm(p.frames) == (out + Pcm(it.out)) + Pcm(rest.frames)
            && p.queue == rest.queue && p.last == rest.last
  {
    hide Pcm, Iterate, Play;
    PlayFirst(queue, last, n, playTime);
    var it := Iterate(queue, last, playTime);
    PcmConcat(it.out, Play(n - (if it.counts then 1 else 0), it.queue, it.last, playTime).frames);
  }

  lemma OutputLength(n: nat, queue: seq<Track>, last: real, playTime: real)
    requires ShortOnTime(queue, last)
    ensures |Pcm(Play(n, queue, last, playTime).frames)| == 2 * (n + Play(n, queue, last, playTime).dropped)
  {
    PlayAccounting(n, queue, last, playTime);
    PcmLength(Play(n, queue, last, playTime).frames);
  }

  lemma NothingToPlay(queue: seq<Track>, last: real, playTime: real)
    ensures Play(0, queue, last, playTime) == Played([], queue, last, 0) && Pcm([]) == []
  {
  }

  /** Decremented below zero, the counter wraps; the loop's increment wraps it back. */
  lemma CounterWraps(i: nat, rewound: nat)
    requires i + 1 < Arithmetic.UINT64_SIZE && rewound <= 1
    ensures Uint64(Uint64(i - rewound) + 1) == i + 1 - rewound
  {
  }

  class StreamState {
    var lastTimestamp: real
    var packetBuffer: seq<MPacket>

    constructor ()
      ensures lastTimestamp == 0.0 && packetBuffer == []
    {
      lastTimestamp, packetBuffer := 0.0, [];
    }

    /** Each queued packet is an object of its own. */
    ghost predicate Valid()
      reads this, packetBuffer
    {
      && (forall p :: p in packetBuffer ==> p.Valid())
      && (forall i, j :: 0 <= i < j < |packetBuffer| ==> packetBuffer[i] != packetBuffer[j])
    }

    ghost function Tracks(): seq<Track>
      requires Valid()
      reads this, packetBuffer
    {
      Queue(packetBuffer)
    }

    method PopFront()
      requires Valid() && packetBuffer != []
      modifies `packetBuffer
      ensures Valid() && packetBuffer == old(packetBuffer)[1..]
      ensures Tracks() == old(Tracks())[1..]
    {
      packetBuffer := packetBuffer[1..];
    }

    /** Two samples of a packet to the output: one frame. */
    method PlayFrame(mp: MPacket, out: seq<int>) returns (written: seq<int>)
      requires mp.Valid() && mp.Remaining() >= 2
      modifies mp
      ensures mp.Valid() && mp.paTimestamp == old(mp.paTimestamp)
      ensures mp.View() == old(mp.View()).(rest := old(mp.View()).rest[2..])
      ensures written == out + [old(mp.View()).rest[0], old(mp.View()).rest[1]]
    {
      var left := mp.GetInt16();
      assert mp.Remaining() >= 1;
      var right := mp.GetInt16();
      written := out + [left] + [right];
    }

    /** One pass through the body of the callback's loop; `rewound` counts the decrements of its counter.
        After a stale packet is popped the pass goes on with that packet. */
    method Pass(playTime: real, out: seq<int>) returns (written: seq<int>, rewound: nat)
      requires Valid() && ShortOnTime(Tracks(), lastTimestamp)
      modifies this, packetBuffer
      ensures Valid() && forall p :: p in packetBuffer ==> p in old(packetBuffer)
      ensures var it := Iterate(old(Tracks()), old(lastTimestamp), playTime);
              && Tracks() == it.queue && lastTimestamp == it.last
              && written == out + Pcm(it.out)
              && rewound == if it.counts then 0 else 1
    {
      hide ShortOnTime, Pcm, Queue;
      ghost var it := Iterate(Tracks(), lastTimestamp, playTime);
      if packetBuffer != [] && packetBuffer[0].paTimestamp < lastTimestamp {
        StaleIsLong(Tracks(), lastTimestamp);
      }
      written, rewound := out, 0;
      PcmOne(Silence);
      if packetBuffer == [] {
        written := out + [0, 0];
        return;
      }
      var mp := packetBuffer[0];
      if mp.paTimestamp < lastTimestamp {
        PopFront();
        rewound := rewound + 1;
      } else {
        lastTimestamp := mp.paTimestamp;
      }
      if mp.paTimestamp >= playTime {
        written := out + [0, 0];
        return;
      }
      if mp.Remaining() < 2 {
        PopFront();
        rewound := rewound + 1;
        return;
      }
      PcmOne(it.out[0]);
      written := PlayFrame(mp, out);
      if rewound == 0 {
        assert Tracks()[1..] == old(Tracks())[1..];
      }
    }

    /** The callback. Its 64-bit counter wraps when it is decremented at zero, and wraps back. */
    method PaCallback(framesPerBuffer: nat, playTime: real) returns (out: seq<int>)
      requires Valid() && ShortOnTime(Tracks(), lastTimestamp) && framesPerBuffer < Arithmetic.UINT64_SIZE
      modifies this, packetBuffer
      ensures Valid() && ShortOnTime(Tracks(), lastTimestamp)
      ensures forall p :: p in packetBuffer ==> p in old(packetBuffer)
      ensures var p := Play(framesPerBuffer, old(Tracks()), old(lastTimestamp), playTime);
              && out == Pcm(p.frames) && Tracks() == p.queue && lastTimestamp == p.last
              && |out| == 2 * (framesPerBuffer + p.dropped)
      ensures out == Pcm(OutOfOrder.Rendered(OutOfOrder.Program(old(Tracks()), old(lastTimestamp), playTime),
                                             framesPerBuffer))
    {
      hide Play, Iterate, ShortOnTime, Pcm, Uint64, Queue, Valid, Tracks;
      out := [];
      var i := 0;
      ghost var whole := Play(framesPerBuffer, Tracks(), lastTimestamp, playTime);
      while i < framesPerBuffer
        invariant 0 <= i <= framesPerBuffer
        invariant forall p :: p in packetBuffer ==> p in old(packetBuffer)
        invariant Valid() && ShortOnTime(Tracks(), lastTimestamp)
        invariant var rest := Play(framesPerBuffer - i, Tracks(), lastTimestamp, playTime);
                  && Pcm(whole.frames) == out + Pcm(rest.frames)
                  && rest.queue == whole.queue && rest.last == whole.last
        decreases framesPerBuffer - i + |Tracks()|
      {
        IterationAccounting(framesPerBuffer - i, Tracks(), lastTimestamp, playTime);
        IterationKeepsShortOnTime(Tracks(), lastTimestamp, playTime);
        assert forall k :: 0 <= k < |packetBuffer| ==> packetBuffer[k] in old(packetBuffer);
        Regroup(out, Tracks(), lastTimestamp, framesPerBuffer - i, playTime);
        var rewound: nat;
        out, rewound := Pass(playTime, out);
        CounterWraps(i, rewound);
        i := Uint64(i - rewound);
        i := Uint64(i + 1);
      }
      NothingToPlay(Tracks(), lastTimestamp, playTime);
      OutputLength(framesPerBuffer, old(Tracks()), old(lastTimestamp), playTime);
      OutOfOrder.PlayRenders(framesPerBuffer, old(Tracks()), old(lastTimestamp), playTime);
    }
  }
}
