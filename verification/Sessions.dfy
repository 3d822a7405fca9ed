/** What the audio callback makes of packets that keep arriving between its calls. */
module Sessions {
  import Arithmetic
  import opened PlaybackModel

  datatype AudioEvent = Arrival(track: Track) | Callback(frames: nat, playTime: real)

  function Arrivals(evs: seq<AudioEvent>): seq<Track> {
    if evs == [] then []
    else (if evs[0].Arrival? then [evs[0].track] else []) + Arrivals(evs[1..])
  }

  /** What the callbacks of a session write, one entry each, and the queue at its end. */
  function Session(queue: seq<Track>, last: real, evs: seq<AudioEvent>): (seq<seq<Frame>>, seq<Track>)
    decreases |evs|
  {
    if evs == [] then ([], queue)
    else match evs[0]
      case Arrival(track) => Session(queue + [track], last, evs[1..])
      case Callback(n, playTime) =>
        var p := Play(n, queue, last, playTime);
        var rest := Session(p.queue, p.last, evs[1..]);
        ([p.frames] + rest.0, rest.1)
  }

  function Callbacks(evs: seq<AudioEvent>): seq<AudioEvent> {
    if evs == [] then []
    else (if evs[0].Callback? then [evs[0]] else []) + Callbacks(evs[1..])
  }

  function Sounds(frames: seq<Frame>): (r: seq<Frame>)
    ensures |r| <= |frames|
  {
    if frames == [] then []
    else (if frames[0].Sound? then [frames[0]] else []) + Sounds(frames[1..])
  }

  function Heard(outputs: seq<seq<Frame>>): seq<Frame> {
    if outputs == [] then [] else Sounds(outputs[0]) + Heard(outputs[1..])
  }

  lemma {:induction false} AllFramesConcat(a: seq<Track>, b: seq<Track>)
    ensures AllFrames(a + b) == AllFrames(a) + AllFrames(b)
  {
    if a == [] {
      assert a + b == b;
    } else {
      AllFramesConcat(a[1..], b);
      assert (a + b)[0] == a[0] && (a + b)[1..] == a[1..] + b;
      hide Frames;
      var front := Frames(a[0].stamp, a[0].rest);
      assert front + (AllFrames(a[1..]) + AllFrames(b)) == (front + AllFrames(a[1..])) + AllFrames(b);
    }
  }

  lemma {:induction false} InOrderPrefix(a: seq<Track>, b: seq<Track>, last: real)
    requires InOrder(a + b, last)
    ensures InOrder(a, last)
  {
    if a != [] {
      assert (a + b)[1..] == a[1..] + b;
      InOrderPrefix(a[1..], b, a[0].stamp);
    }
  }

  lemma {:induction false} SoundsThenSilence(sounds: seq<Frame>, n: nat)
    requires forall f :: f in sounds ==> f.Sound?
    ensures Sounds(sounds + Silences(n)) == sounds
  {
    if sounds == [] {
      SoundsOfSilence(n);
      assert sounds + Silences(n) == Silences(n);
    } else {
      SoundsThenSilence(sounds[1..], n);
      assert (sounds + Silences(n))[1..] == sounds[1..] + Silences(n);
      assert sounds[0] in sounds;
    }
  }

  lemma {:induction false} SoundsOfSilence(n: nat)
    ensures Sounds(Silences(n)) == []
  {
    if n > 0 {
      SoundsOfSilence(n - 1);
      assert Silences(n)[1..] == Silences(n - 1);
    }
  }

  /** One callback fits its request: it fills the buffer exactly, sounds only packets whose stamp lies
      before its play time, and is silent only after all it sounds. */
  predicate Serves(output: seq<Frame>, callback: AudioEvent)
    requires callback.Callback?
  {
    && |output| == callback.frames
    && (forall f :: f in output && f.Sound? ==> f.stamp < callback.playTime)
    && output == Sounds(output) + Silences(|output| - |Sounds(output)|)
  }

  lemma CallbackServes(queue: seq<Track>, after: seq<Track>, last: real, n: nat, playTime: real)
    requires InOrder(queue + after, last)
    ensures var p := Play(n, queue, last, playTime);
            && Serves(p.frames, Callback(n, playTime))
            && AllFrames(queue + after) == Sounds(p.frames) + AllFrames(p.queue + after)
            && InOrder(p.queue + after, p.last)
  {
    hide Play, AllFrames, Due, InOrder, Sounds;
    PlayInOrder(n, queue, after, last, playTime);
    InOrderPrefix(queue, after, last);
    PlayConserves(n, queue, last, playTime);
    AllFramesConcat(queue, after);
    AllFramesConcat(Play(n, queue, last, playTime).queue, after);
    var due := Due(queue, playTime);
    DueInTime(queue, playTime);
    var sounds := due[..Arithmetic.Min(n, |due|)];
    SoundsThenSilence(sounds, n - |sounds|);
    assert forall f :: f in sounds + Silences(n - |sounds|) && f.Sound? ==> f in sounds;
  }

  lemma HeardOneMore(output: seq<Frame>, outputs: seq<seq<Frame>>)
    ensures Heard([output] + outputs) == Sounds(output) + Heard(outputs)
  {
    assert ([output] + outputs)[1..] == outputs;
  }

  /** Each output serves the callback that asked for it. */
  predicate AllServe(outputs: seq<seq<Frame>>, callbacks: seq<AudioEvent>) {
    && |outputs| == |callbacks|
    && forall i :: 0 <= i < |outputs| ==> callbacks[i].Callback? && Serves(outputs[i], callbacks[i])
  }

  lemma NobodyServed()
    ensures AllServe([], []) && Heard([]) == []
  {
  }

  lemma ServedOneMore(output: seq<Frame>, callback: AudioEvent, outputs: seq<seq<Frame>>, callbacks: seq<AudioEvent>)
    requires callback.Callback? && Serves(output, callback) && AllServe(outputs, callbacks)
    ensures AllServe([output] + outputs, [callback] + callbacks)
  {
    hide Serves;
  }

  /** Audio is conserved: over any interleaving of arrivals and callbacks with stamps in order, every
      callback serves its request, and what all callbacks sounded followed by what is still queued is
      exactly the frames queued at first and those of the arrivals, each once and in order. */
  lemma {:induction false} SessionConserves(queue: seq<Track>, last: real, evs: seq<AudioEvent>)
    requires InOrder(queue + Arrivals(evs), last)
    ensures var s := Session(queue, last, evs);
            && AllFrames(queue + Arrivals(evs)) == Heard(s.0) + AllFrames(s.1)
            && AllServe(s.0, Callbacks(evs))
    decreases |evs|
  {
    hide Play, Serves, AllFrames, InOrder, Sounds, Heard, AllServe;
    if evs == [] {
      assert queue + Arrivals(evs) == queue;
      NobodyServed();
    } else if evs[0].Arrival? {
      assert (queue + [evs[0].track]) + Arrivals(evs[1..]) == queue + Arrivals(evs);
      assert Callbacks(evs) == Callbacks(evs[1..]);
      SessionConserves(queue + [evs[0].track], last, evs[1..]);
    } else {
      var p := Play(evs[0].frames, queue, last, evs[0].playTime);
      assert Arrivals(evs) == Arrivals(evs[1..]);
      CallbackServes(queue, Arrivals(evs[1..]), last, evs[0].frames, evs[0].playTime);
      SessionConserves(p.queue, p.last, evs[1..]);
      var rest := Session(p.queue, p.last, evs[1..]);
      HeardOneMore(p.frames, rest.0);
      ServedOneMore(p.frames, evs[0], rest.0, Callbacks(evs[1..]));
      assert Session(queue, last, evs) == ([p.frames] + rest.0, rest.1);
      assert Sounds(p.frames) + (Heard(rest.0) + AllFrames(rest.1)) ==
             (Sounds(p.frames) + Heard(rest.0)) + AllFrames(rest.1);
    }
  }
}
