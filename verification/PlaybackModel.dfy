/** What the audio callback plays: its loop on values, and what follows from it. */
module PlaybackModel {
  import opened Arithmetic

  /** A queued packet: its play time on the stream clock and the samples not yet played. */
  datatype Track = Track(stamp: real, rest: seq<int>)

  /** One stereo frame of output. A sounding frame remembers the stamp of its packet. */
  datatype Frame = Silence | Sound(stamp: real, left: int, right: int)

  function Pcm(frames: seq<Frame>): seq<int> {
    if frames == [] then []
    else
      var f := frames[|frames| - 1];
      Pcm(frames[..|frames| - 1]) + (if f.Silence? then [0, 0] else [f.left, f.right])
  }

  predicate Short(t: Track) {
    |t.rest| < 2
  }

  /** No packet too short for a frame is overtaken by a later stamp: a stale packet that short would be
      popped twice by the callback. */
  predicate ShortOnTime(queue: seq<Track>, last: real) {
    forall i :: 0 <= i < |queue| && Short(queue[i]) ==>
      last <= queue[i].stamp && forall j :: 0 <= j < i ==> queue[j].stamp <= queue[i].stamp
  }

  /** One iteration of the callback's loop: what it writes, the queue and newest stamp it leaves,
      whether its counter ends up higher, and whether it dropped a stale packet. */
  datatype Iteration = Iteration(out: seq<Frame>, queue: seq<Track>, last: real, counts: bool, stale: bool)

  function Iterate(queue: seq<Track>, last: real, playTime: real): Iteration {
    if queue == [] then Iteration([Silence], [], last, true, false)
    else
      var t := queue[0];
      var stale := t.stamp < last;
      var newest := if stale then last else t.stamp;
      if t.stamp >= playTime then
        Iteration([Silence], if stale then queue[1..] else queue, newest, !stale, stale)
      else if Short(t) then
        Iteration([], queue[1..], newest, false, stale)
      else
        var frame := Sound(t.stamp, t.rest[0], t.rest[1]);
        Iteration([frame], (if stale then [] else [t.(rest := t.rest[2..])]) + queue[1..], newest, !stale, stale)
  }

  datatype Played = Played(frames: seq<Frame>, queue: seq<Track>, last: real, dropped: nat)

  /** The whole loop, with n counts of its counter still to go. */
  function Play(n: nat, queue: seq<Track>, last: real, playTime: real): Played
    decreases n + |queue|
  {
    if n == 0 then Played([], queue, last, 0)
    else
      var it := Iterate(queue, last, playTime);
      var more := Play(if it.counts then n - 1 else n, it.queue, it.last, playTime);
      more.(frames := it.out + more.frames, dropped := more.dropped + if it.stale then 1 else 0)
  }

  // ----- Any queue -----

  /** Counts to go plus queued packets drop by exactly one per iteration. */
  lemma IterationAccounting(n: nat, queue: seq<Track>, last: real, playTime: real)
    requires n > 0
    ensures var it := Iterate(queue, last, playTime);
            (if it.counts then n - 1 else n) + |it.queue| == n + |queue| - 1
  {
  }

  lemma ShortOnTimeTail(queue: seq<Track>, last: real)
    requires ShortOnTime(queue, last) && queue != []
    ensures ShortOnTime(queue[1..], last)
    ensures last <= queue[0].stamp ==> ShortOnTime(queue[1..], queue[0].stamp) && ShortOnTime(queue, queue[0].stamp)
  {
    assert forall i :: 0 <= i < |queue[1..]| ==> queue[1..][i] == queue[i + 1];
  }

  /** Playing a frame of the front packet can only make that packet short. */
  lemma ShortOnTimePlayed(queue: seq<Track>, rest: seq<int>)
    requires queue != [] && ShortOnTime(queue, queue[0].stamp)
    ensures ShortOnTime([queue[0].(rest := rest)] + queue[1..], queue[0].stamp)
  {
    var played := [queue[0].(rest := rest)] + queue[1..];
    assert forall i :: 0 < i < |queue| ==> played[i] == queue[i];
  }

  lemma IterationKeepsShortOnTime(queue: seq<Track>, last: real, playTime: real)
    requires ShortOnTime(queue, last)
    ensures var it := Iterate(queue, last, playTime); ShortOnTime(it.queue, it.last)
  {
    if queue != [] {
      ShortOnTimeTail(queue, last);
      if last <= queue[0].stamp && !Short(queue[0]) {
        ShortOnTimePlayed(queue, queue[0].rest[2..]);
      }
      hide ShortOnTime;
      assert [] + queue[1..] == queue[1..];
    }
  }

  /** An iteration writes a frame, unless it pops a packet that is played out; a stale packet costs a frame
      that is not counted. */
  lemma IterationShape(queue: seq<Track>, last: real, playTime: real)
    requires ShortOnTime(queue, last)
    ensures var it := Iterate(queue, last, playTime);
            |it.out| == (if it.counts then 1 else 0) + (if it.stale then 1 else 0)
  {
  }

  /** Whatever the order of the stamps, the callback writes one frame more than it was asked for
      per stale packet it meets: the host's buffer holds the output exactly when it meets none. */
  lemma {:induction false} PlayAccounting(n: nat, queue: seq<Track>, last: real, playTime: real)
    requires ShortOnTime(queue, last)
    ensures var p := Play(n, queue, last, playTime);
            |p.frames| == n + p.dropped && |p.queue| + p.dropped <= |queue| && ShortOnTime(p.queue, p.last)
    decreases n + |queue|
  {
    if n > 0 {
      IterationAccounting(n, queue, last, playTime);
      IterationKeepsShortOnTime(queue, last, playTime);
      IterationShape(queue, last, playTime);
      var it := Iterate(queue, last, playTime);
      hide Iterate, ShortOnTime;
      PlayAccounting(if it.counts then n - 1 else n, it.queue, it.last, playTime);
    }
  }

  // ----- Queues in order -----

  predicate InOrder(queue: seq<Track>, last: real) {
    queue != [] ==> last <= queue[0].stamp && InOrder(queue[1..], queue[0].stamp)
  }

  /** The whole frames of a packet; an odd last sample is never played. */
  function Frames(stamp: real, rest: seq<int>): seq<Frame> {
    if |rest| < 2 then [] else [Sound(stamp, rest[0], rest[1])] + Frames(stamp, rest[2..])
  }

  function AllFrames(queue: seq<Track>): seq<Frame> {
    if queue == [] then [] else Frames(queue[0].stamp, queue[0].rest) + AllFrames(queue[1..])
  }

  /** The frames of the packets at the front whose time has come. */
  function Due(queue: seq<Track>, playTime: real): seq<Frame> {
    if queue == [] || queue[0].stamp >= playTime then []
    else Frames(queue[0].stamp, queue[0].rest) + Due(queue[1..], playTime)
  }

  /** The closed form of a callback on a queue in order: the frames that are due, as many as fit,
      and silence for the rest; the frames not played stay queued, in order. */
  function DueThenSilence(n: nat, due: seq<Frame>): seq<Frame> {
    due[..Min(n, |due|)] + Silences(n - Min(n, |due|))
  }

  function Silences(n: nat): seq<Frame> {
    seq(n, i => Silence)
  }

  lemma DueThenSilenceStep(n: nat, due: seq<Frame>)
    requires n > 0
    ensures due == [] ==> DueThenSilence(n, due) == [Silence] + DueThenSilence(n - 1, due)
    ensures due != [] ==> DueThenSilence(n, due) == [due[0]] + DueThenSilence(n - 1, due[1..])
    ensures due != [] ==> due[..Min(n, |due|)] == [due[0]] + due[1..][..Min(n - 1, |due[1..]|)]
  {
  }

  lemma {:induction false} InOrderShortOnTime(queue: seq<Track>, last: real)
    requires InOrder(queue, last)
    ensures ShortOnTime(queue, last)
    ensures forall i :: 0 <= i < |queue| ==> last <= queue[i].stamp
    ensures forall i, j :: 0 <= j <= i < |queue| ==> queue[j].stamp <= queue[i].stamp
  {
    if queue != [] {
      InOrderShortOnTime(queue[1..], queue[0].stamp);
      assert forall i :: 0 < i < |queue| ==> queue[i] == queue[1..][i - 1];
    }
  }

  lemma InOrderFirst(t: Track, queue: seq<Track>, last: real)
    ensures InOrder([t] + queue, last) <==> last <= t.stamp && InOrder(queue, t.stamp)
  {
    assert ([t] + queue)[1..] == queue;
  }

  /** Later arrivals `after` are carried along, so that the order of what is still to come is kept too. */
  lemma IterationKeepsOrder(queue: seq<Track>, after: seq<Track>, last: real, playTime: real)
    requires InOrder(queue + after, last)
    ensures var it := Iterate(queue, last, playTime);
            InOrder(it.queue + after, it.last) && !it.stale
  {
    if queue != [] {
      var t, tail := queue[0], queue[1..];
      assert queue + after == [t] + (tail + after);
      InOrderFirst(t, tail + after, last);
      InOrderFirst(t, tail + after, t.stamp);
      if t.stamp < playTime && !Short(t) {
        var played := t.(rest := t.rest[2..]);
        InOrderFirst(played, tail + after, t.stamp);
        assert ([played] + tail) + after == [played] + (tail + after);
      } else if t.stamp < playTime {
        assert [] + tail == tail;
      }
    }
    hide InOrder;
  }

  lemma IterationInOrder(queue: seq<Track>, after: seq<Track>, last: real, playTime: real)
    requires InOrder(queue + after, last)
    ensures var it := Iterate(queue, last, playTime);
            InOrder(it.queue + after, it.last) && !it.stale
            && it.out == (if it.counts then [it.out[0]] else [])
            && (it.out == [Silence] ==> it.queue == queue && Due(queue, playTime) == [])
            && (it.out != [Silence] ==> Due(queue, playTime) == it.out + Due(it.queue, playTime)
                                        && AllFrames(queue) == it.out + AllFrames(it.queue))
  {
    IterationKeepsOrder(queue, after, last, playTime);
    hide InOrder;
    if queue != [] && queue[0].stamp < playTime {
      var t, tail := queue[0], queue[1..];
      assert queue == [t] + tail && [] + tail == tail;
      if !Short(t) {
        FrontPlayed(t, tail, playTime);
      }
    }
  }

  /** One frame of the front packet is taken off all there is to play. */
  lemma FrontPlayed(t: Track, tail: seq<Track>, playTime: real)
    requires !Short(t) && t.stamp < playTime
    ensures var queue, played := [t] + tail, [t.(rest := t.rest[2..])] + tail;
            var frame := Sound(t.stamp, t.rest[0], t.rest[1]);
            && AllFrames(queue) == [frame] + AllFrames(played)
            && Due(queue, playTime) == [frame] + Due(played, playTime)
  {
    var frames := Frames(t.stamp, t.rest[2..]);
    var frame := Sound(t.stamp, t.rest[0], t.rest[1]);
    assert ([t] + tail)[1..] == tail && ([t.(rest := t.rest[2..])] + tail)[1..] == tail;
    assert Frames(t.stamp, t.rest) == [frame] + frames;
    assert ([frame] + frames) + AllFrames(tail) == [frame] + (frames + AllFrames(tail));
    assert ([frame] + frames) + Due(tail, playTime) == [frame] + (frames + Due(tail, playTime));
  }

  /** The callback refines its closed form, drops nothing and keeps the queue in order. */
  lemma {:induction false} PlayInOrder(n: nat, queue: seq<Track>, after: seq<Track>, last: real, playTime: real)
    requires InOrder(queue + after, last)
    ensures var p := Play(n, queue, last, playTime);
            && p.dropped == 0
            && p.frames == DueThenSilence(n, Due(queue, playTime))
            && InOrder(p.queue + after, p.last)
    decreases n + |queue|
  {
    if n > 0 {
      IterationAccounting(n, queue, last, playTime);
      IterationInOrder(queue, after, last, playTime);
      var it := Iterate(queue, last, playTime);
      hide Iterate, Due, AllFrames, DueThenSilence, InOrder;
      PlayInOrder(if it.counts then n - 1 else n, it.queue, after, it.last, playTime);
      DueThenSilenceStep(n, Due(queue, playTime));
      if it.out != [Silence] && it.counts {
        assert Due(queue, playTime)[1..] == Due(it.queue, playTime);
      }
    }
  }

  /** The due frames that fit in n, then `rest`. */
  function FittingThen(n: nat, due: seq<Frame>, rest: seq<Frame>): seq<Frame> {
    due[..Min(n, |due|)] + rest
  }

  lemma IterationConserves(n: nat, queue: seq<Track>, last: real, playTime: real)
    requires n > 0 && InOrder(queue, last)
    ensures var it := Iterate(queue, last, playTime);
            && InOrder(it.queue, it.last) && |it.out| <= 1
            && (if it.counts then n - 1 else n) == n - |it.out|
            && if it.out == [Silence] then it.queue == queue && Due(queue, playTime) == []
               else Due(queue, playTime) == it.out + Due(it.queue, playTime)
                    && AllFrames(queue) == it.out + AllFrames(it.queue)
  {
    hide Iterate, Due, AllFrames, InOrder;
    assert queue + [] == queue;
    IterationInOrder(queue, [], last, playTime);
    var it := Iterate(queue, last, playTime);
    assert it.queue + [] == it.queue;
  }

  /** Every queued frame is either played, in order, or still queued. */
  lemma {:induction false} PlayConserves(n: nat, queue: seq<Track>, last: real, playTime: real)
    requires InOrder(queue, last)
    ensures AllFrames(queue) ==
            FittingThen(n, Due(queue, playTime), AllFrames(Play(n, queue, last, playTime).queue))
    decreases n + |queue|
  {
    hide Play, Iterate, Due, AllFrames, InOrder, FittingThen;
    if n == 0 {
      NothingFits(queue, last, playTime);
    } else {
      var it := Iterate(queue, last, playTime);
      IterationAccounting(n, queue, last, playTime);
      IterationConserves(n, queue, last, playTime);
      PlayUnfolds(n, queue, last, playTime);
      PlayConserves(n - |it.out|, it.queue, it.last, playTime);
      var left := AllFrames(Play(n - |it.out|, it.queue, it.last, playTime).queue);
      if it.out == [Silence] {
        NothingToFit(n, left);
        NothingToFit(n - |it.out|, left);
      } else {
        FitOneMore(n, it.out, Due(it.queue, playTime), left);
      }
    }
  }

  lemma NothingFits(queue: seq<Track>, last: real, playTime: real)
    ensures FittingThen(0, Due(queue, playTime), AllFrames(Play(0, queue, last, playTime).queue)) == AllFrames(queue)
  {
    assert Due(queue, playTime)[..0] == [];
    hide Due, AllFrames;
  }

  lemma NothingToFit(n: nat, rest: seq<Frame>)
    ensures FittingThen(n, [], rest) == rest
  {
  }

  lemma PlayUnfolds(n: nat, queue: seq<Track>, last: real, playTime: real)
    requires n > 0
    ensures var it := Iterate(queue, last, playTime);
            Play(n, queue, last, playTime).queue ==
            Play(if it.counts then n - 1 else n, it.queue, it.last, playTime).queue
  {
    IterationAccounting(n, queue, last, playTime);
    hide Iterate;
  }

  lemma FitOneMore(n: nat, out: seq<Frame>, due: seq<Frame>, rest: seq<Frame>)
    requires n > 0 && |out| <= 1
    ensures FittingThen(n, out + due, rest) == out + FittingThen(n - |out|, due, rest)
  {
  }

  lemma {:induction false} DueInTime(queue: seq<Track>, playTime: real)
    ensures forall f :: f in Due(queue, playTime) ==> f.Sound? && f.stamp < playTime
  {
    if queue != [] && queue[0].stamp < playTime {
      FramesSound(queue[0].stamp, queue[0].rest);
      DueInTime(queue[1..], playTime);
    }
  }

  lemma {:induction false} FramesSound(stamp: real, rest: seq<int>)
    ensures forall f :: f in Frames(stamp, rest) ==> f.Sound? && f.stamp == stamp
    ensures |Frames(stamp, rest)| == |rest| / 2
    decreases |rest|
  {
    if |rest| >= 2 {
      FramesSound(stamp, rest[2..]);
    }
  }
}
