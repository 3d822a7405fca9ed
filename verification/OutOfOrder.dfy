/** What the audio callback makes of a queue in any order of stamps. */
module OutOfOrder {
  import opened Arithmetic
  import opened PlaybackModel

  function Later(a: real, b: real): real {
    if a < b then b else a
  }

  // ----- Which packets are stale, by their stamps alone -----

  /** The greatest of `last` and the first k stamps. */
  function Newest(queue: seq<Track>, last: real, k: nat): real
    requires k <= |queue|
  {
    if k == 0 then last else Later(Newest(queue, last, k - 1), queue[k - 1].stamp)
  }

  /** Packet i bears a stamp below one met before it. */
  predicate IsStale(queue: seq<Track>, last: real, i: nat)
    requires i < |queue|
  {
    queue[i].stamp < Newest(queue, last, i)
  }

  /** The stale ones among the first k. */
  function StaleAmong(queue: seq<Track>, last: real, k: nat): nat
    requires k <= |queue|
  {
    if k == 0 then 0 else StaleAmong(queue, last, k - 1) + if IsStale(queue, last, k - 1) then 1 else 0
  }

  /** Newest bounds all it has met, and is one of them. */
  lemma {:induction false} NewestIsGreatest(queue: seq<Track>, last: real, k: nat)
    requires k <= |queue|
    ensures last <= Newest(queue, last, k) && forall i :: 0 <= i < k ==> queue[i].stamp <= Newest(queue, last, k)
    ensures Newest(queue, last, k) == last || exists i :: 0 <= i < k && queue[i].stamp == Newest(queue, last, k)
  {
    if k > 0 {
      NewestIsGreatest(queue, last, k - 1);
    }
  }

  lemma {:induction false} NewestTail(t: Track, tail: seq<Track>, last: real, k: nat)
    requires k <= |tail|
    ensures Newest([t] + tail, last, k + 1) == Newest(tail, Later(last, t.stamp), k)
    ensures k < |tail| ==> (IsStale([t] + tail, last, k + 1) <==> IsStale(tail, Later(last, t.stamp), k))
  {
    if k > 0 {
      NewestTail(t, tail, last, k - 1);
    }
  }

  lemma {:induction false} StaleTail(t: Track, tail: seq<Track>, last: real, k: nat)
    requires k <= |tail|
    ensures StaleAmong([t] + tail, last, k + 1) ==
            (if t.stamp < last then 1 else 0) + StaleAmong(tail, Later(last, t.stamp), k)
  {
    hide Newest;
    if k > 0 {
      StaleTail(t, tail, last, k - 1);
      NewestTail(t, tail, last, k - 1);
    } else {
      FrontStale(t, tail, last);
    }
  }

  lemma FrontStale(t: Track, tail: seq<Track>, last: real)
    ensures IsStale([t] + tail, last, 0) <==> t.stamp < last
  {
  }

  // ----- What is dropped -----

  /** A stale packet sounds its first frame when it is due, and nothing else; it does not count. */
  lemma StaleSoundsOnce(n: nat, queue: seq<Track>, last: real, playTime: real)
    requires n > 0 && queue != [] && queue[0].stamp < last && !Short(queue[0])
    ensures var t, rest := queue[0], Play(n, queue[1..], last, playTime);
            var frame := if t.stamp < playTime then Sound(t.stamp, t.rest[0], t.rest[1]) else Silence;
            Play(n, queue, last, playTime) == rest.(frames := [frame] + rest.frames, dropped := rest.dropped + 1)
  {
    assert [] + queue[1..] == queue[1..];
  }

  /** One frame is asked for; after a stamp of 5 a packet of 3 comes: its frame sounds, and silence follows into the
      room for a second frame. */
  lemma StaleOverflows()
    ensures Play(1, [Track(3.0, [7, 8])], 5.0, 10.0).frames == [Sound(3.0, 7, 8), Silence]
  {
    StaleSoundsOnce(1, [Track(3.0, [7, 8])], 5.0, 10.0);
  }

  /** After a callback: the first k packets are gone, as many of them dropped as were stale; the one then at the
      front may be partly played; `last` is the newest stamp met. */
  predicate Gone(queue: seq<Track>, last: real, k: nat, p: Played) {
    && k <= |queue| && |p.queue| == |queue| - k
    && p.dropped == StaleAmong(queue, last, k)
    && (p.queue != [] ==>
          && p.queue[1..] == queue[k + 1..]
          && p.queue[0].stamp == queue[k].stamp && IsSuffix(p.queue[0].rest, queue[k].rest))
    && (p.last == Newest(queue, last, k)
        || (k < |queue| && !IsStale(queue, last, k) && p.last == Newest(queue, last, k + 1)))
  }

  predicate IsSuffix(a: seq<int>, b: seq<int>) {
    |a| <= |b| && a == b[|b| - |a|..]
  }

  lemma SuffixOfSuffix(a: seq<int>, b: seq<int>)
    requires |b| >= 2 && IsSuffix(a, b[2..])
    ensures IsSuffix(a, b)
  {
  }

  lemma GoneTail(t: Track, tail: seq<Track>, last: real, k: nat, p: Played, stale: bool)
    requires Gone(tail, Later(last, t.stamp), k, p) && stale == (t.stamp < last)
    ensures Gone([t] + tail, last, k + 1, p.(dropped := p.dropped + if stale then 1 else 0))
  {
    hide Newest, StaleAmong, IsStale, IsSuffix;
    var queue := [t] + tail;
    StaleTail(t, tail, last, k);
    NewestTail(t, tail, last, k);
    if k < |tail| {
      NewestTail(t, tail, last, k + 1);
      assert queue[k + 1] == tail[k] && queue[k + 2..] == tail[k + 1..];
    }
  }

  /** The front is fresh: the newest stamp is already its own. */
  lemma GoneFresh(t: Track, rest: seq<int>, tail: seq<Track>, last: real, k: nat, p: Played)
    requires last <= t.stamp && IsSuffix(rest, t.rest)
    requires forall r :: IsSuffix(r, rest) ==> IsSuffix(r, t.rest)
    requires Gone([t.(rest := rest)] + tail, t.stamp, k, p)
    ensures Gone([t] + tail, last, k, p)
  {
    hide Newest, StaleAmong, IsStale, IsSuffix;
    var queue, played := [t] + tail, [t.(rest := rest)] + tail;
    if k > 0 {
      StaleTail(t, tail, last, k - 1);
      StaleTail(t.(rest := rest), tail, t.stamp, k - 1);
      NewestTail(t, tail, last, k - 1);
      NewestTail(t.(rest := rest), tail, t.stamp, k - 1);
      if k < |queue| {
        NewestTail(t, tail, last, k);
        NewestTail(t.(rest := rest), tail, t.stamp, k);
        assert queue[k] == played[k] && queue[k + 1..] == played[k + 1..];
      }
    } else {
      FreshFront(t, rest, tail, last);
      assert queue[1..] == tail && played[1..] == tail;
    }
  }

  lemma FreshFront(t: Track, rest: seq<int>, tail: seq<Track>, last: real)
    requires last <= t.stamp
    ensures var queue, played := [t] + tail, [t.(rest := rest)] + tail;
            && Newest(played, t.stamp, 0) == Newest(played, t.stamp, 1) == t.stamp
            && Newest(queue, last, 1) == t.stamp && !IsStale(queue, last, 0)
            && StaleAmong(queue, last, 0) == StaleAmong(played, t.stamp, 0) == 0
  {
  }

  lemma NothingGone(queue: seq<Track>, last: real)
    ensures Gone(queue, last, 0, Played([], queue, last, 0))
  {
  }

  lemma IterationGone(queue: seq<Track>, last: real, playTime: real, k: nat, p: Played)
    requires queue != [] && ShortOnTime(queue, last)
    requires var it := Iterate(queue, last, playTime); Gone(it.queue, it.last, k, p)
    ensures var it := Iterate(queue, last, playTime);
            Gone(queue, last, k + |queue| - |it.queue|, p.(dropped := p.dropped + if it.stale then 1 else 0))
  {
    hide ShortOnTime, Gone, Newest, StaleAmong, IsSuffix;
    var t, tail := queue[0], queue[1..];
    assert queue == [t] + tail && [] + tail == tail;
    if t.stamp < last {
      StaleIsNotShort(queue, last);
      GoneTail(t, tail, last, k, p, true);
    } else if t.stamp < playTime && Short(t) {
      GoneTail(t, tail, last, k, p, false);
    } else {
      var rest := if t.stamp < playTime then t.rest[2..] else t.rest;
      Suffixes(t.rest, rest);
      assert t.(rest := t.rest) == t;
      GoneFresh(t, rest, tail, last, k, p);
    }
  }

  lemma PlayOnce(n: nat, queue: seq<Track>, last: real, playTime: real)
    requires n > 0
    ensures var it := Iterate(queue, last, playTime);
            var rest := Play(if it.counts then n - 1 else n, it.queue, it.last, playTime);
            Play(n, queue, last, playTime) ==
            rest.(frames := it.out + rest.frames, dropped := rest.dropped + if it.stale then 1 else 0)
  {
    IterationAccounting(n, queue, last, playTime);
    hide Iterate;
  }

  lemma EmptyQueue(last: real, playTime: real)
    ensures Iterate([], last, playTime) == Iteration([Silence], [], last, true, false)
  {
  }

  /** Whatever the order: exactly the stale packets met are dropped, stale by the stamps met before them. */
  lemma {:induction false} PlayDropsTheStale(n: nat, queue: seq<Track>, last: real, playTime: real) returns (k: nat)
    requires ShortOnTime(queue, last)
    ensures Gone(queue, last, k, Play(n, queue, last, playTime))
    decreases n + |queue|
  {
    hide ShortOnTime, Gone, Iterate, Play;
    if n == 0 {
      PlayNothing(queue, last, playTime);
      NothingGone(queue, last);
      k := 0;
    } else {
      var it := Iterate(queue, last, playTime);
      var m := if it.counts then n - 1 else n;
      IterationAccounting(n, queue, last, playTime);
      IterationKeepsShortOnTime(queue, last, playTime);
      PlayOnce(n, queue, last, playTime);
      k := PlayDropsTheStale(m, it.queue, it.last, playTime);
      var p := Play(m, it.queue, it.last, playTime);
      if queue == [] {
        EmptyQueue(last, playTime);
      } else {
        IterationGone(queue, last, playTime, k, p);
        k := k + |queue| - |it.queue|;
        p := p.(dropped := p.dropped + if it.stale then 1 else 0);
      }
      FramesDoNotMatter(queue, last, k, p, Play(n, queue, last, playTime));
    }
  }

  lemma PlayNothing(queue: seq<Track>, last: real, playTime: real)
    ensures Play(0, queue, last, playTime) == Played([], queue, last, 0)
  {
  }

  lemma StaleIsNotShort(queue: seq<Track>, last: real)
    requires ShortOnTime(queue, last) && queue != [] && queue[0].stamp < last
    ensures !Short(queue[0])
  {
  }

  lemma Suffixes(whole: seq<int>, rest: seq<int>)
    requires rest == whole || (|whole| >= 2 && rest == whole[2..])
    ensures IsSuffix(rest, whole) && forall r :: IsSuffix(r, rest) ==> IsSuffix(r, whole)
  {
    if rest != whole {
      forall r | IsSuffix(r, rest)
        ensures IsSuffix(r, whole)
      {
        SuffixOfSuffix(r, whole);
      }
    }
  }

  lemma FramesDoNotMatter(queue: seq<Track>, last: real, k: nat, p: Played, q: Played)
    requires Gone(queue, last, k, p) && q.queue == p.queue && q.last == p.last && q.dropped == p.dropped
    ensures Gone(queue, last, k, q)
  {
  }

  // ----- What is heard -----

  /** A frame of output, and whether the host's buffer has room for it: a stale packet's has none. */
  datatype Beat = Beat(frame: Frame, counted: bool)

  function Counted(frames: seq<Frame>): (r: seq<Beat>)
    ensures |r| == |frames|
  {
    seq(|frames|, i requires 0 <= i < |frames| => Beat(frames[i], true))
  }

  /** What packet i contributes: all its frames, or when it is stale one, the first or silence. */
  function Part(queue: seq<Track>, last: real, playTime: real, i: nat): seq<Beat>
    requires i < |queue|
  {
    var t := queue[i];
    if !IsStale(queue, last, i) then Counted(Frames(t.stamp, t.rest))
    else [Beat(if t.stamp < playTime && !Short(t) then Sound(t.stamp, t.rest[0], t.rest[1]) else Silence, false)]
  }

  /** The contributions of the first k packets. */
  function Score(queue: seq<Track>, last: real, playTime: real, k: nat): seq<Beat>
    requires k <= |queue|
  {
    if k == 0 then [] else Score(queue, last, playTime, k - 1) + Part(queue, last, playTime, k - 1)
  }

  /** How far the callback can get from packet i on: to the first that is neither stale nor due. */
  function Reach(queue: seq<Track>, last: real, playTime: real, i: nat): (r: nat)
    requires i <= |queue|
    ensures i <= r <= |queue|
    decreases |queue| - i
  {
    if i == |queue| || (!IsStale(queue, last, i) && queue[i].stamp >= playTime) then i
    else Reach(queue, last, playTime, i + 1)
  }

  /** The output for n counted frames of a score. */
  function Fit(beats: seq<Beat>, n: nat): seq<Frame>
    decreases |beats|
  {
    if n == 0 || beats == [] then []
    else [beats[0].frame] + Fit(beats[1..], if beats[0].counted then n - 1 else n)
  }

  function CountedIn(beats: seq<Beat>): nat {
    if beats == [] then 0 else (if beats[0].counted then 1 else 0) + CountedIn(beats[1..])
  }

  /** The whole score of a queue. */
  function Program(queue: seq<Track>, last: real, playTime: real): seq<Beat> {
    Score(queue, last, playTime, Reach(queue, last, playTime, 0))
  }

  /** The output: the score as far as n counted frames go, and silence for the rest. */
  function Rendered(beats: seq<Beat>, n: nat): seq<Frame> {
    Fit(beats, n) + Silences(n - Min(n, CountedIn(beats)))
  }

  lemma {:induction false} ReachTail(t: Track, tail: seq<Track>, last: real, playTime: real, i: nat)
    requires i <= |tail|
    ensures Reach([t] + tail, last, playTime, i + 1) == 1 + Reach(tail, Later(last, t.stamp), playTime, i)
    decreases |tail| - i
  {
    hide Newest, IsStale;
    NewestTail(t, tail, last, i);
    if i < |tail| {
      ReachTail(t, tail, last, playTime, i + 1);
    }
  }

  lemma PartTail(t: Track, tail: seq<Track>, last: real, playTime: real, i: nat)
    requires i < |tail|
    ensures Part([t] + tail, last, playTime, i + 1) == Part(tail, Later(last, t.stamp), playTime, i)
  {
    hide Newest, IsStale, Frames, Counted;
    NewestTail(t, tail, last, i);
  }

  lemma {:induction false} ScoreTail(t: Track, tail: seq<Track>, last: real, playTime: real, k: nat)
    requires k <= |tail|
    ensures Score([t] + tail, last, playTime, k + 1) ==
            Part([t] + tail, last, playTime, 0) + Score(tail, Later(last, t.stamp), playTime, k)
  {
    hide Part, Score;
    var first := Part([t] + tail, last, playTime, 0);
    if k > 0 {
      ScoreTail(t, tail, last, playTime, k - 1);
      PartTail(t, tail, last, playTime, k - 1);
      ScoreLast([t] + tail, last, playTime, k + 1);
      ScoreLast(tail, Later(last, t.stamp), playTime, k);
      Associative(first, Score(tail, Later(last, t.stamp), playTime, k - 1),
                  Part(tail, Later(last, t.stamp), playTime, k - 1));
    } else {
      ScoreLast([t] + tail, last, playTime, 1);
      NoScore([t] + tail, last, playTime);
      NoScore(tail, Later(last, t.stamp), playTime);
      assert [] + first == first == first + [];
    }
  }

  lemma Associative<T>(a: seq<T>, b: seq<T>, c: seq<T>)
    ensures (a + b) + c == a + (b + c)
  {
  }

  lemma ScoreLast(queue: seq<Track>, last: real, playTime: real, k: nat)
    requires 0 < k <= |queue|
    ensures Score(queue, last, playTime, k) ==
            Score(queue, last, playTime, k - 1) + Part(queue, last, playTime, k - 1)
  {
  }

  lemma NoScore(queue: seq<Track>, last: real, playTime: real)
    ensures Score(queue, last, playTime, 0) == []
  {
  }

  /** The program of a queue, front first. */
  lemma ProgramFirst(t: Track, tail: seq<Track>, last: real, playTime: real)
    ensures Program([t] + tail, last, playTime) ==
            if t.stamp >= last && t.stamp >= playTime then []
            else Part([t] + tail, last, playTime, 0) + Program(tail, Later(last, t.stamp), playTime)
  {
    hide Part, Newest, IsStale;
    FrontStale(t, tail, last);
    if !(t.stamp >= last && t.stamp >= playTime) {
      ReachTail(t, tail, last, playTime, 0);
      ScoreTail(t, tail, last, playTime, Reach(tail, Later(last, t.stamp), playTime, 0));
    }
  }

  lemma FrontPart(t: Track, tail: seq<Track>, last: real, playTime: real)
    ensures Part([t] + tail, last, playTime, 0) ==
            if t.stamp >= last then Counted(Frames(t.stamp, t.rest))
            else
              var frame := if t.stamp < playTime && !Short(t) then Sound(t.stamp, t.rest[0], t.rest[1]) else Silence;
              [Beat(frame, false)]
  {
    hide Frames, Counted;
  }

  lemma FramesFirst(t: Track)
    ensures Short(t) ==> Counted(Frames(t.stamp, t.rest)) == []
    ensures !Short(t) ==>
              Counted(Frames(t.stamp, t.rest)) ==
              [Beat(Sound(t.stamp, t.rest[0], t.rest[1]), true)] + Counted(Frames(t.stamp, t.rest[2..]))
  {
  }

  lemma RenderedFirst(b: Beat, beats: seq<Beat>, n: nat)
    requires n > 0
    ensures Rendered([b] + beats, n) == [b.frame] + Rendered(beats, if b.counted then n - 1 else n)
  {
    assert ([b] + beats)[1..] == beats;
  }

  lemma NothingRendered(beats: seq<Beat>, n: nat)
    ensures Rendered(beats, 0) == []
    ensures n > 0 ==> Rendered([], n) == [Silence] + Rendered([], n - 1)
  {
  }

  /** One iteration takes the first beat off the program. */
  lemma IterationOfProgram(queue: seq<Track>, last: real, playTime: real)
    requires ShortOnTime(queue, last)
    ensures var it := Iterate(queue, last, playTime);
            var program, rest := Program(queue, last, playTime), Program(it.queue, it.last, playTime);
            || (program == [] && rest == [] && it.out == [Silence] && it.counts)
            || (it.out == [] && !it.counts && program == rest)
            || (|it.out| == 1 && program == [Beat(it.out[0], it.counts)] + rest)
  {
    hide Program, Part, ShortOnTime, Frames, Counted;
    if queue == [] {
      EmptyProgram(last, playTime);
    } else {
      var t, tail := queue[0], queue[1..];
      assert queue == [t] + tail && [] + tail == tail;
      ProgramFirst(t, tail, last, playTime);
      FrontPart(t, tail, last, playTime);
      FramesFirst(t);
      if t.stamp < last {
        StaleIsNotShort(queue, last);
      } else if t.stamp >= playTime {
        ProgramFirst(t, tail, t.stamp, playTime);
      } else if !Short(t) {
        var played := t.(rest := t.rest[2..]);
        ProgramFirst(played, tail, t.stamp, playTime);
        FrontPart(played, tail, t.stamp, playTime);
      }
    }
  }

  lemma EmptyProgram(last: real, playTime: real)
    ensures Program([], last, playTime) == []
  {
  }

  /** The closed form of a callback on any queue: the stale packets' first frames between the frames of the
      others, each after the packets before it, until n frames are counted or nothing more is due. */
  lemma {:induction false} PlayRenders(n: nat, queue: seq<Track>, last: real, playTime: real)
    requires ShortOnTime(queue, last)
    ensures Play(n, queue, last, playTime).frames == Rendered(Program(queue, last, playTime), n)
    decreases n + |queue|
  {
    hide ShortOnTime, Iterate, Play, Program, Rendered;
    var program := Program(queue, last, playTime);
    if n == 0 {
      PlayNothing(queue, last, playTime);
      NothingRendered(program, 0);
    } else {
      var it := Iterate(queue, last, playTime);
      var m := if it.counts then n - 1 else n;
      IterationAccounting(n, queue, last, playTime);
      IterationKeepsShortOnTime(queue, last, playTime);
      PlayOnce(n, queue, last, playTime);
      PlayRenders(m, it.queue, it.last, playTime);
      IterationOfProgram(queue, last, playTime);
      var rest := Program(it.queue, it.last, playTime);
      if program == [] && rest == [] && it.counts {
        NothingRendered([], n);
      } else if it.out != [] {
        RenderedFirst(Beat(it.out[0], it.counts), rest, n);
      }
    }
  }

  /** Neither stale nor due. */
  predicate Waits(t: Track, last: real, playTime: real) {
    last <= t.stamp && playTime <= t.stamp
  }

  /** Silence beyond the score means that nothing due is left: the queue is empty, or its front waits. */
  lemma {:induction false} SilentWhenNothingIsDue(n: nat, queue: seq<Track>, last: real, playTime: real)
    requires ShortOnTime(queue, last) && CountedIn(Program(queue, last, playTime)) < n
    ensures var p := Play(n, queue, last, playTime); p.queue == [] || Waits(p.queue[0], p.last, playTime)
    decreases n + |queue|
  {
    hide ShortOnTime, Iterate, Play, Program;
    var it := Iterate(queue, last, playTime);
    var program, rest := Program(queue, last, playTime), Program(it.queue, it.last, playTime);
    var m := if it.counts then n - 1 else n;
    IterationAccounting(n, queue, last, playTime);
    IterationKeepsShortOnTime(queue, last, playTime);
    PlayOnce(n, queue, last, playTime);
    IterationOfProgram(queue, last, playTime);
    if it.out == [Silence] && it.counts && program == [] {
      OnlyWaiting(n, queue, last, playTime);
    } else {
      if it.out != [] {
        CountedFirst(Beat(it.out[0], it.counts), rest);
      }
      SilentWhenNothingIsDue(m, it.queue, it.last, playTime);
    }
  }

  lemma CountedFirst(b: Beat, beats: seq<Beat>)
    ensures CountedIn([b] + beats) == (if b.counted then 1 else 0) + CountedIn(beats)
  {
    assert ([b] + beats)[1..] == beats;
  }

  /** With an empty program only played-out packets are removed. */
  lemma {:induction false} OnlyWaiting(n: nat, queue: seq<Track>, last: real, playTime: real)
    requires n > 0 && Iterate(queue, last, playTime).out == [Silence] && Iterate(queue, last, playTime).counts
    ensures var p := Play(n, queue, last, playTime); p.queue == [] || Waits(p.queue[0], p.last, playTime)
  {
    var it := Iterate(queue, last, playTime);
    PlayOnce(n, queue, last, playTime);
    if n > 1 {
      OnlyWaiting(n - 1, it.queue, it.last, playTime);
    }
  }
}
