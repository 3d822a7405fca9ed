/** When the audio callback stays within the buffer the host gives it. */
module BufferFilling {
  import opened PlaybackModel
  import opened Sessions

  // ----- A fixed buffer size, as the host uses it -----

  /** Successive callbacks of n frames each, at these play times, all write exactly n frames. */
  predicate AllFill(n: nat, queue: seq<Track>, last: real, times: seq<real>)
    decreases |times|
  {
    times != [] ==>
      var p := Play(n, queue, last, times[0]);
      |p.frames| == n && AllFill(n, p.queue, p.last, times[1..])
  }

  predicate Rising(times: seq<real>) {
    forall i, j :: 0 <= i < j < |times| ==> times[i] < times[j]
  }

  lemma {:induction false} InOrderFills(n: nat, queue: seq<Track>, last: real, times: seq<real>)
    requires InOrder(queue, last)
    ensures AllFill(n, queue, last, times)
    decreases |times|
  {
    if times != [] {
      hide Play, InOrder, Due;
      assert queue + [] == queue;
      PlayInOrder(n, queue, [], last, times[0]);
      var p := Play(n, queue, last, times[0]);
      assert p.queue + [] == p.queue;
      InOrderFills(n, p.queue, p.last, times[1..]);
    }
  }

  /** The whole queue is due. */
  predicate AllDue(queue: seq<Track>, playTime: real) {
    forall i :: 0 <= i < |queue| ==> queue[i].stamp < playTime
  }

  lemma AllFramesFirst(t: Track, tail: seq<Track>)
    ensures AllFrames([t] + tail) == Frames(t.stamp, t.rest) + AllFrames(tail)
    ensures Short(t) ==> Frames(t.stamp, t.rest) == []
  {
    assert ([t] + tail)[1..] == tail;
  }

  lemma AllDueFirst(t: Track, tail: seq<Track>, playTime: real)
    ensures AllDue([t] + tail, playTime) <==> t.stamp < playTime && AllDue(tail, playTime)
  {
    var queue := [t] + tail;
    assert queue[0] == t && forall i :: 0 <= i < |tail| ==> queue[i + 1] == tail[i];
  }

  lemma IterationOutOfOrder(queue: seq<Track>, last: real, playTime: real)
    requires !InOrder(queue, last) && AllDue(queue, playTime)
    requires !Iterate(queue, last, playTime).stale
    ensures var it := Iterate(queue, last, playTime);
            && !InOrder(it.queue, it.last)
            && |AllFrames(queue)| == |AllFrames(it.queue)| + (if it.counts then 1 else 0)
            && (forall later :: AllDue(queue, later) ==> AllDue(it.queue, later))
  {
    var t, tail := queue[0], queue[1..];
    assert queue == [t] + tail && [] + tail == tail;
    InOrderFirst(t, tail, last);
    AllFramesFirst(t, tail);
    if !Short(t) {
      FrontPlayed(t, tail, playTime);
      InOrderFirst(t.(rest := t.rest[2..]), tail, t.stamp);
    }
    forall later
      ensures AllDue(queue, later) ==> AllDue(Iterate(queue, last, playTime).queue, later)
    {
      AllDueFirst(t, tail, later);
      if !Short(t) {
        AllDueFirst(t.(rest := t.rest[2..]), tail, later);
      }
    }
    hide InOrder, AllFrames, Frames;
  }

  /** A callback that drops nothing plays n frames of a queue that is all due, and leaves it out of order. */
  lemma {:induction false} UndisturbedPlay(n: nat, queue: seq<Track>, last: real, playTime: real)
    requires !InOrder(queue, last) && ShortOnTime(queue, last) && AllDue(queue, playTime)
    requires Play(n, queue, last, playTime).dropped == 0
    ensures var p := Play(n, queue, last, playTime);
            && !InOrder(p.queue, p.last)
            && |AllFrames(queue)| == |AllFrames(p.queue)| + n
            && (forall later :: AllDue(queue, later) ==> AllDue(p.queue, later))
    decreases n + |queue|
  {
    if n > 0 {
      hide Iterate, InOrder, ShortOnTime, AllDue, AllFrames;
      var it := Iterate(queue, last, playTime);
      IterationAccounting(n, queue, last, playTime);
      IterationKeepsShortOnTime(queue, last, playTime);
      IterationOutOfOrder(queue, last, playTime);
      UndisturbedPlay(if it.counts then n - 1 else n, it.queue, it.last, playTime);
    }
  }

  lemma {:induction false} OutOfOrderOverflows(n: nat, queue: seq<Track>, last: real, times: seq<real>)
    requires n > 0 && !InOrder(queue, last) && ShortOnTime(queue, last)
    requires |times| > |AllFrames(queue)| && forall t :: t in times ==> AllDue(queue, t)
    ensures !AllFill(n, queue, last, times)
    decreases |times|
  {
    hide Play, InOrder, ShortOnTime, AllDue, AllFrames;
    var p := Play(n, queue, last, times[0]);
    PlayAccounting(n, queue, last, times[0]);
    if p.dropped == 0 {
      UndisturbedPlay(n, queue, last, times[0]);
      OutOfOrderOverflows(n, p.queue, p.last, times[1..]);
    }
  }

  lemma {:induction false} StampBound(queue: seq<Track>) returns (high: real)
    ensures AllDue(queue, high)
  {
    if queue == [] {
      high := 0.0;
    } else {
      high := StampBound(queue[1..]);
      assert forall i :: 0 < i < |queue| ==> queue[i] == queue[1..][i - 1];
      high := if queue[0].stamp < high then high else queue[0].stamp + 1.0;
    }
  }

  /** Whatever size the host's buffer has: all sequences of callbacks fill it exactly if and only if the
      queue is in order. */
  lemma FillsExactlyIffInOrder(n: nat, queue: seq<Track>, last: real)
    requires n > 0 && ShortOnTime(queue, last)
    ensures (forall times :: Rising(times) ==> AllFill(n, queue, last, times)) <==> InOrder(queue, last)
  {
    if InOrder(queue, last) {
      forall times
        ensures AllFill(n, queue, last, times)
      {
        InOrderFills(n, queue, last, times);
      }
    } else {
      var high := StampBound(queue);
      var times := seq(|AllFrames(queue)| + 1, i => high + i as real);
      assert Rising(times);
      assert forall t :: t in times ==> t >= high;
      OutOfOrderOverflows(n, queue, last, times);
    }
  }

  // ----- Arrivals in any order -----

  /** Stale packets met in a session. */
  function DroppedIn(queue: seq<Track>, last: real, evs: seq<AudioEvent>): nat
    decreases |evs|
  {
    if evs == [] then 0
    else match evs[0]
      case Arrival(track) => DroppedIn(queue + [track], last, evs[1..])
      case Callback(n, playTime) =>
        var p := Play(n, queue, last, playTime);
        p.dropped + DroppedIn(p.queue, p.last, evs[1..])
  }

  function FramesWritten(outputs: seq<seq<Frame>>): nat {
    if outputs == [] then 0 else |outputs[0]| + FramesWritten(outputs[1..])
  }

  function FramesAsked(evs: seq<AudioEvent>): nat {
    if evs == [] then 0
    else (if evs[0].Callback? then evs[0].frames else 0) + FramesAsked(evs[1..])
  }

  predicate AllLong(tracks: seq<Track>) {
    forall t :: t in tracks ==> !Short(t)
  }

  /** Every callback wrote exactly what it was asked for. */
  predicate EachFilled(outputs: seq<seq<Frame>>, callbacks: seq<AudioEvent>) {
    && |outputs| == |callbacks|
    && forall i :: 0 <= i < |outputs| ==> callbacks[i].Callback? && |outputs[i]| == callbacks[i].frames
  }

  lemma EachFilledFirst(output: seq<Frame>, callback: AudioEvent, outputs: seq<seq<Frame>>, callbacks: seq<AudioEvent>)
    requires callback.Callback?
    ensures EachFilled([output] + outputs, [callback] + callbacks) <==>
            |output| == callback.frames && EachFilled(outputs, callbacks)
    ensures FramesWritten([output] + outputs) == |output| + FramesWritten(outputs)
  {
    var all, asked := [output] + outputs, [callback] + callbacks;
    assert all[0] == output && asked[0] == callback && all[1..] == outputs && asked[1..] == callbacks;
    if EachFilled(all, asked) {
      forall i | 0 <= i < |outputs|
        ensures callbacks[i].Callback? && |outputs[i]| == callbacks[i].frames
      {
        assert all[i + 1] == outputs[i] && asked[i + 1] == callbacks[i];
      }
    }
  }

  lemma LongJoins(queue: seq<Track>, track: Track, last: real)
    requires ShortOnTime(queue, last) && !Short(track)
    ensures ShortOnTime(queue + [track], last)
  {
  }

  /** Over any interleaving of callbacks with arrivals in any order of stamps: the callbacks together write
      what they were asked for and one frame per stale packet; no more packets are dropped than came and
      are gone; the buffers are all filled exactly if and only if none is dropped. */
  lemma {:induction false} SessionAccounting(queue: seq<Track>, last: real, evs: seq<AudioEvent>)
    requires ShortOnTime(queue, last) && AllLong(Arrivals(evs))
    ensures var s, dropped := Session(queue, last, evs), DroppedIn(queue, last, evs);
            && FramesWritten(s.0) == FramesAsked(evs) + dropped
            && |s.1| + dropped <= |queue| + |Arrivals(evs)|
            && (EachFilled(s.0, Callbacks(evs)) <==> dropped == 0)
    decreases |evs|
  {
    hide Play, ShortOnTime, EachFilled, FramesWritten;
    if evs == [] {
      NoneFilled();
    } else if evs[0].Arrival? {
      assert evs[0].track in Arrivals(evs) && forall t :: t in Arrivals(evs[1..]) ==> t in Arrivals(evs);
      LongJoins(queue, evs[0].track, last);
      SessionAccounting(queue + [evs[0].track], last, evs[1..]);
      assert Callbacks(evs) == Callbacks(evs[1..]);
    } else {
      var p := Play(evs[0].frames, queue, last, evs[0].playTime);
      assert Arrivals(evs) == Arrivals(evs[1..]);
      PlayAccounting(evs[0].frames, queue, last, evs[0].playTime);
      SessionAccounting(p.queue, p.last, evs[1..]);
      EachFilledFirst(p.frames, evs[0], Session(p.queue, p.last, evs[1..]).0, Callbacks(evs[1..]));
    }
  }

  lemma NoneFilled()
    ensures EachFilled([], []) && FramesWritten([]) == 0
  {
  }

  // ----- No frame sounds twice -----

  lemma SoundsFirst(f: Frame, rest: seq<Frame>)
    ensures Sounds([f] + rest) == (if f.Sound? then [f] else []) + Sounds(rest)
  {
    assert ([f] + rest)[1..] == rest;
  }

  lemma {:induction false} SoundsConcat(a: seq<Frame>, b: seq<Frame>)
    ensures Sounds(a + b) == Sounds(a) + Sounds(b)
  {
    if a == [] {
      assert a + b == b;
    } else {
      SoundsFirst(a[0], a[1..]);
      SoundsFirst(a[0], a[1..] + b);
      hide Sounds;
      assert a == [a[0]] + a[1..] && a + b == [a[0]] + (a[1..] + b);
      SoundsConcat(a[1..], b);
    }
  }

  lemma FramesOfFront(t: Track, tail: seq<Track>)
    ensures multiset(AllFrames([t] + tail)) == multiset(Frames(t.stamp, t.rest)) + multiset(AllFrames(tail))
  {
    assert ([t] + tail)[1..] == tail;
  }

  lemma FirstFrame(t: Track)
    requires !Short(t)
    ensures var frame := Sound(t.stamp, t.rest[0], t.rest[1]);
            && multiset(Frames(t.stamp, t.rest)) == multiset([frame]) + multiset(Frames(t.stamp, t.rest[2..]))
            && Sounds([frame]) == [frame]
  {
  }

  /** What an iteration does to the front packet: nothing, its removal, or the playing of one frame. */
  lemma IterationCases(t: Track, tail: seq<Track>, last: real, playTime: real)
    ensures var it := Iterate([t] + tail, last, playTime);
            || (it.out in {[], [Silence]} && it.queue in {[t] + tail, tail})
            || (!Short(t) && it.out == [Sound(t.stamp, t.rest[0], t.rest[1])]
                && it.queue in {[t.(rest := t.rest[2..])] + tail, tail})
  {
    assert ([t] + tail)[1..] == tail && [] + tail == tail;
  }

  lemma IterationTakes(queue: seq<Track>, last: real, playTime: real)
    ensures var it := Iterate(queue, last, playTime);
            multiset(Sounds(it.out)) + multiset(AllFrames(it.queue)) <= multiset(AllFrames(queue))
  {
    SilentOutput();
    if queue != [] {
      var t, tail, it := queue[0], queue[1..], Iterate(queue, last, playTime);
      assert queue == [t] + tail;
      IterationCases(t, tail, last, playTime);
      FramesOfFront(t, tail);
      hide Iterate, AllFrames, Frames, Sounds;
      var frames, later := multiset(Frames(t.stamp, t.rest)), multiset(AllFrames(tail));
      if it.out in {[], [Silence]} {
        LessFrames(multiset{}, frames, frames, later);
      } else {
        FirstFrame(t);
        FramesOfFront(t.(rest := t.rest[2..]), tail);
        LessFrames(multiset(it.out), multiset(Frames(t.stamp, t.rest[2..])), frames, later);
      }
    }
  }

  lemma LessFrames<T>(first: multiset<T>, rest: multiset<T>, front: multiset<T>, later: multiset<T>)
    requires front == first + rest
    ensures first + later <= front + later && first + (rest + later) == front + later
    ensures multiset{} + later <= front + later && multiset{} + (front + later) == front + later
  {
  }

  lemma SilentOutput()
    ensures Sounds([Silence]) == [] && Sounds([]) == []
  {
  }

  lemma {:induction false} PlayTakes(n: nat, queue: seq<Track>, last: real, playTime: real)
    ensures var p := Play(n, queue, last, playTime);
            multiset(Sounds(p.frames)) + multiset(AllFrames(p.queue)) <= multiset(AllFrames(queue))
    decreases n + |queue|
  {
    if n > 0 {
      IterationAccounting(n, queue, last, playTime);
      IterationTakes(queue, last, playTime);
      var it := Iterate(queue, last, playTime);
      var m := if it.counts then n - 1 else n;
      hide Iterate, AllFrames, Sounds;
      PlayTakes(m, it.queue, it.last, playTime);
      SoundsConcat(it.out, Play(m, it.queue, it.last, playTime).frames);
    }
  }

  lemma TakenTogether<T>(played: multiset<T>, left: multiset<T>, queued: multiset<T>,
                         later: multiset<T>, atEnd: multiset<T>, came: multiset<T>)
    requires played + left <= queued && later + atEnd <= left + came
    ensures (played + later) + atEnd <= queued + came
  {
    forall x
      ensures played[x] + later[x] + atEnd[x] <= queued[x] + came[x]
    {
      assert (played + left)[x] <= queued[x] && (later + atEnd)[x] <= (left + came)[x];
    }
  }

  /** Over any interleaving of callbacks with arrivals in any order, every frame that came sounds at most
      once, and none that sounded is still queued. */
  lemma {:induction false} NothingSoundsTwice(queue: seq<Track>, last: real, evs: seq<AudioEvent>)
    ensures var s := Session(queue, last, evs);
            multiset(Heard(s.0)) + multiset(AllFrames(s.1)) <= multiset(AllFrames(queue + Arrivals(evs)))
    decreases |evs|
  {
    hide Play, AllFrames, Sounds, Heard;
    if evs == [] {
      assert queue + Arrivals(evs) == queue;
      NobodyServed();
    } else if evs[0].Arrival? {
      assert (queue + [evs[0].track]) + Arrivals(evs[1..]) == queue + Arrivals(evs);
      NothingSoundsTwice(queue + [evs[0].track], last, evs[1..]);
    } else {
      var p := Play(evs[0].frames, queue, last, evs[0].playTime);
      var rest := Session(p.queue, p.last, evs[1..]);
      assert Arrivals(evs) == Arrivals(evs[1..]);
      PlayTakes(evs[0].frames, queue, last, evs[0].playTime);
      NothingSoundsTwice(p.queue, p.last, evs[1..]);
      HeardOneMore(p.frames, rest.0);
      AllFramesConcat(queue, Arrivals(evs));
      AllFramesConcat(p.queue, Arrivals(evs));
      TakenTogether(multiset(Sounds(p.frames)), multiset(AllFrames(p.queue)), multiset(AllFrames(queue)),
                    multiset(Heard(rest.0)), multiset(AllFrames(rest.1)), multiset(AllFrames(Arrivals(evs))));
      assert Session(queue, last, evs) == ([p.frames] + rest.0, rest.1);
    }
  }
}
