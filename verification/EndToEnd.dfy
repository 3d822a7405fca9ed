/** From the file on the master to the samples a client's callbacks write. */
module EndToEnd {
  import Arithmetic
  import opened TimePackets
  import opened MasterModel
  import opened ClientModel
  import opened PlaybackModel
  import opened Sessions
  import Playback
  import opened Streaming

  /** A client with a settled clock queues each packet under its time on the stream's clock. */
  function TracksOf(packets: seq<DataPacket>, offset: int, paOffset: int): (r: seq<Track>)
    ensures |r| == |packets|
  {
    if packets == [] then []
    else
      var p := packets[|packets| - 1];
      TracksOf(packets[..|packets| - 1], offset, paOffset) +
      [Track(GetPaTime(p.timestamp, offset, paOffset), p.payload)]
  }

  /** The stream lies on the positive side of the client's stream clock. */
  predicate AfterClockStart(start: int, n: nat, offset: int, paOffset: int) {
    0 <= start + offset + paOffset && start + PACKET_TIME_MS * n + offset + paOffset < Arithmetic.UINT64_SIZE
  }

  lemma {:induction false} InOrderAppend(queue: seq<Track>, t: Track, last: real)
    requires InOrder(queue, last)
    requires (if queue == [] then last else queue[|queue| - 1].stamp) <= t.stamp
    ensures InOrder(queue + [t], last)
  {
    if queue != [] {
      assert (queue + [t])[1..] == queue[1..] + [t];
      InOrderAppend(queue[1..], t, queue[0].stamp);
    }
  }

  /** Stamps that rise, within the first n packet times after `start`. */
  predicate InTurn(packets: seq<DataPacket>, start: int, n: nat) {
    && (forall i :: 0 <= i < |packets| ==> start <= packets[i].timestamp <= start + PACKET_TIME_MS * n)
    && forall i, j :: 0 <= i < j < |packets| ==> packets[i].timestamp <= packets[j].timestamp
  }

  /** Rising stamps give a queue in order. */
  lemma {:induction false} StreamIsInOrder(packets: seq<DataPacket>, start: int, n: nat, offset: int, paOffset: int)
    requires InTurn(packets, start, n) && AfterClockStart(start, n, offset, paOffset)
    ensures InOrder(TracksOf(packets, offset, paOffset), 0.0)
    ensures packets != [] ==>
              var tracks := TracksOf(packets, offset, paOffset);
              tracks[|tracks| - 1].stamp == GetPaTime(packets[|packets| - 1].timestamp, offset, paOffset)
  {
    if packets != [] {
      var front, p := packets[..|packets| - 1], packets[|packets| - 1];
      assert forall i :: 0 <= i < |front| ==> front[i] == packets[i];
      StreamIsInOrder(front, start, n, offset, paOffset);
      PaTimeExact(p.timestamp, offset, paOffset);
      if front != [] {
        PaTimeOrder(front[|front| - 1].timestamp, p.timestamp, offset, paOffset);
      }
      hide InOrder, GetPaTime;
      InOrderAppend(TracksOf(front, offset, paOffset),
                    Track(GetPaTime(p.timestamp, offset, paOffset), p.payload), 0.0);
    }
  }

  /** The frames of an even number of samples are those samples. */
  lemma {:induction false} FramesAreSamples(stamp: real, rest: seq<int>)
    requires |rest| % 2 == 0
    ensures Pcm(Frames(stamp, rest)) == rest
    decreases |rest|
  {
    if rest != [] {
      FramesAreSamples(stamp, rest[2..]);
      Playback.PcmConcat([Sound(stamp, rest[0], rest[1])], Frames(stamp, rest[2..]));
      Playback.PcmOne(Sound(stamp, rest[0], rest[1]));
    }
  }

  lemma {:induction false} TracksCarryAudio(packets: seq<DataPacket>, offset: int, paOffset: int)
    requires AllFull(packets)
    ensures Pcm(AllFrames(TracksOf(packets, offset, paOffset))) == Audio(packets)
  {
    if packets != [] {
      var front, p := packets[..|packets| - 1], packets[|packets| - 1];
      var t := Track(GetPaTime(p.timestamp, offset, paOffset), p.payload);
      var tracks := TracksOf(front, offset, paOffset);
      TracksCarryAudio(front, offset, paOffset);
      AllFramesConcat(tracks, [t]);
      assert AllFrames([t]) == Frames(t.stamp, t.rest);
      Playback.PcmConcat(AllFrames(tracks), AllFrames([t]));
      FramesAreSamples(t.stamp, t.rest);
    }
  }

  // ----- What came of the stream -----

  /** Indices of packets, in the order of the stream; any may be missing. */
  predicate Ascending(ks: seq<nat>, n: nat) {
    && (forall i :: 0 <= i < |ks| ==> ks[i] < n)
    && forall i, j :: 0 <= i < j < |ks| ==> ks[i] < ks[j]
  }

  function Chosen(packets: seq<DataPacket>, ks: seq<nat>): (r: seq<DataPacket>)
    requires Ascending(ks, |packets|)
    ensures |r| == |ks|
  {
    seq(|ks|, i requires 0 <= i < |ks| => packets[ks[i]])
  }

  predicate NoneMissing(ks: seq<nat>) {
    forall i :: 0 <= i < |ks| ==> ks[i] == i
  }

  lemma {:induction false} AudioPrefix(packets: seq<DataPacket>, k: nat)
    requires k <= |packets|
    ensures Audio(packets[..k]) <= Audio(packets)
  {
    if k == |packets| {
      assert packets[..k] == packets;
    } else {
      AudioPrefix(packets[..|packets| - 1], k);
      assert packets[..|packets| - 1][..k] == packets[..k];
    }
  }

  /** A packet's samples in the audio of all. */
  lemma AudioAt(packets: seq<DataPacket>, i: nat, j: nat)
    requires AllFull(packets) && i < |packets| && j < SAMPLES_PER_PACKET
    ensures SAMPLES_PER_PACKET * i + j < |Audio(packets)|
    ensures Audio(packets)[SAMPLES_PER_PACKET * i + j] == packets[i].payload[j]
  {
    AudioPrefix(packets, i + 1);
    AudioLength(packets[..i]);
    assert packets[..i + 1][..i] == packets[..i];
    assert Audio(packets[..i + 1]) == Audio(packets[..i]) + packets[i].payload;
  }

  /** The i-th packet carries the i-th part of the file, as far as the file goes. */
  predicate CarriesPart(p: DataPacket, i: nat, file: seq<int>) {
    && |p.payload| == SAMPLES_PER_PACKET
    && forall j :: 0 <= j < SAMPLES_PER_PACKET && SAMPLES_PER_PACKET * i + j < |file| ==>
         p.payload[j] == file[SAMPLES_PER_PACKET * i + j]
  }

  lemma PacketCarriesPart(s: Stream, home: set<Endpoint>, start: int, file: seq<int>, garbage: seq<int>, i: nat)
    requires StreamInv(s, home, start, file, garbage) && i < |s.packets|
    ensures CarriesPart(s.packets[i], i, file)
  {
    forall j: nat | j < SAMPLES_PER_PACKET && SAMPLES_PER_PACKET * i + j < |file|
      ensures s.packets[i].payload[j] == file[SAMPLES_PER_PACKET * i + j]
    {
      AudioAt(s.packets, i, j);
    }
  }

  lemma PrefixesCompare(a: seq<int>, b: seq<int>, whole: seq<int>)
    requires a <= whole && (whole <= b || b <= whole)
    ensures a <= b || b <= a
  {
  }

  /** With none missing the audio that came is the file as far as it goes. */
  lemma NoneMissingIsFile(s: Stream, home: set<Endpoint>, start: int, file: seq<int>, garbage: seq<int>, ks: seq<nat>)
    requires StreamInv(s, home, start, file, garbage) && Ascending(ks, |s.packets|) && NoneMissing(ks)
    ensures var audio := Audio(Chosen(s.packets, ks)); audio <= file || file <= audio
  {
    StreamIsFile(s, home, start, file, garbage);
    hide StreamInv, Audio;
    assert |ks| > 0 ==> ks[|ks| - 1] == |ks| - 1;
    assert Chosen(s.packets, ks) == s.packets[..|ks|];
    AudioPrefix(s.packets, |ks|);
    PrefixesCompare(Audio(s.packets[..|ks|]), file, Audio(s.packets));
  }

  lemma ChosenInTurn(s: Stream, home: set<Endpoint>, start: int, file: seq<int>, garbage: seq<int>, ks: seq<nat>,
                     n: nat)
    requires StreamInv(s, home, start, file, garbage) && Ascending(ks, n) && n <= |s.packets|
    ensures InTurn(Chosen(s.packets, ks), start, n) && AllFull(Chosen(s.packets, ks))
  {
    StreamParts(s, home, start, file, garbage);
    hide StreamInv;
  }

  /** What a session sounds and queues is the audio of exactly the packets that came, each of them its part of
      the file; with none missing this is the file as far as it goes. Every callback serves its request. */
  predicate PlaysTheFile(evs: seq<AudioEvent>, packets: seq<DataPacket>, ks: seq<nat>, file: seq<int>)
    requires Ascending(ks, |packets|)
  {
    var played, audio := Session([], 0.0, evs), Audio(Chosen(packets, ks));
    && Pcm(Heard(played.0)) + Pcm(AllFrames(played.1)) == audio
    && AllServe(played.0, Callbacks(evs))
    && (forall i :: 0 <= i < |ks| ==> CarriesPart(packets[ks[i]], ks[i], file))
    && (NoneMissing(ks) ==> audio <= file || file <= audio)
  }

  lemma SessionPlays(packets: seq<DataPacket>, start: int, n: nat, evs: seq<AudioEvent>, offset: int, paOffset: int)
    requires InTurn(packets, start, n) && AllFull(packets) && AfterClockStart(start, n, offset, paOffset)
    requires Arrivals(evs) == TracksOf(packets, offset, paOffset)
    ensures var played := Session([], 0.0, evs);
            && Pcm(Heard(played.0)) + Pcm(AllFrames(played.1)) == Audio(packets)
            && AllServe(played.0, Callbacks(evs))
  {
    hide Session, InOrder, Pcm, AllFrames, AllServe, Audio, AllFull, InTurn, AfterClockStart;
    var played := Session([], 0.0, evs);
    StreamIsInOrder(packets, start, n, offset, paOffset);
    assert [] + Arrivals(evs) == Arrivals(evs);
    SessionConserves([], 0.0, evs);
    TracksCarryAudio(packets, offset, paOffset);
    Playback.PcmConcat(Heard(played.0), AllFrames(played.1));
  }

  /** A client with a settled clock that has received some of the first n packets, in order, plays the file:
      over any interleaving of arrivals and callbacks. */
  lemma ClientPlaysTheFile(s: Stream, home: set<Endpoint>, start: int, file: seq<int>, garbage: seq<int>, n: nat,
                           ks: seq<nat>, evs: seq<AudioEvent>, offset: int, paOffset: int)
    requires StreamInv(s, home, start, file, garbage) && Ascending(ks, n) && n <= |s.packets|
    requires AfterClockStart(start, n, offset, paOffset)
    requires Arrivals(evs) == TracksOf(Chosen(s.packets, ks), offset, paOffset)
    ensures PlaysTheFile(evs, s.packets, ks, file)
  {
    hide StreamInv, Session, Pcm, AllFrames, AllServe, Audio, AllFull, InTurn, AfterClockStart, CarriesPart, Chosen;
    hide NoneMissing;
    ChosenInTurn(s, home, start, file, garbage, ks, n);
    SessionPlays(Chosen(s.packets, ks), start, n, evs, offset, paOffset);
    forall i | 0 <= i < |ks|
      ensures CarriesPart(s.packets[ks[i]], ks[i], file)
    {
      PacketCarriesPart(s, home, start, file, garbage, ks[i]);
    }
    if NoneMissing(ks) {
      NoneMissingIsFile(s, home, start, file, garbage, ks);
    }
  }

  lemma StreamParts(s: Stream, home: set<Endpoint>, start: int, file: seq<int>, garbage: seq<int>)
    requires StreamInv(s, home, start, file, garbage)
    ensures Stamped(s.packets, start) && AllFull(s.packets)
  {
  }
}
