/** What is streamed, in which order, when, and for how long. */
module Streaming {
  import opened Arithmetic
  import opened TimePackets
  import opened MasterModel

  /** The payloads one after the other. */
  function Audio(packets: seq<DataPacket>): seq<int> {
    if packets == [] then [] else Audio(packets[..|packets| - 1]) + packets[|packets| - 1].payload
  }

  predicate AllFull(packets: seq<DataPacket>) {
    forall i :: 0 <= i < |packets| ==> |packets[i].payload| == SAMPLES_PER_PACKET
  }

  lemma {:induction false} AudioLength(packets: seq<DataPacket>)
    requires AllFull(packets)
    ensures |Audio(packets)| == SAMPLES_PER_PACKET * |packets|
  {
    if packets != [] {
      AudioLength(packets[..|packets| - 1]);
    }
  }

  /** The samples streamed so far are the file as far as it goes; past its end each sample repeats
      the one a packet earlier, where `garbage` (the buffer before the first read) precedes the audio. */
  predicate CarriesFile(audio: seq<int>, file: seq<int>, garbage: seq<int>)
    requires |garbage| == SAMPLES_PER_PACKET
  {
    && (forall j :: 0 <= j < |audio| && j < |file| ==> audio[j] == file[j])
    && (forall j :: |file| <= j < |audio| ==> audio[j] == (garbage + audio)[j])
  }

  /** Stamps rise from `start` by the playing time of one packet. */
  predicate Stamped(packets: seq<DataPacket>, start: int) {
    forall i :: 0 <= i < |packets| ==> packets[i].timestamp == start + PACKET_TIME_MS * (i + 1)
  }

  /** Completions still awaited for the packet in flight, in the 16-bit counter. */
  predicate Awaiting(s: Stream) {
    && s.outstanding == Uint16(s.pendingSends + s.failedSends)
    && s.pendingSends + s.failedSends <= 0x1_0000
  }

  /** The packets packed so far, the data buffer and the rest of the file fit together. */
  predicate Reading(packets: seq<DataPacket>, buffer: seq<int>, rest: seq<int>, file: seq<int>, garbage: seq<int>) {
    var sent := SAMPLES_PER_PACKET * |packets|;
    && |garbage| == |buffer| == SAMPLES_PER_PACKET
    && AllFull(packets)
    && CarriesFile(Audio(packets), file, garbage)
    && buffer == (garbage + Audio(packets))[|Audio(packets)|..]
    && rest == file[Min(sent, |file|)..]
    && sent < |file| + SAMPLES_PER_PACKET
  }

  /** Every endpoint of `home` has been sent exactly these packets. */
  predicate AllSent(log: Log<DataPacket>, home: set<Endpoint>, packets: seq<DataPacket>) {
    forall e :: e in home ==> Sent(log, e) == packets
  }

  lemma AllSentOneMore(log: Log<DataPacket>, to: set<Endpoint>, home: set<Endpoint>, packets: seq<DataPacket>,
                       packet: DataPacket)
    requires AllSent(log, home, packets) && home <= to
    ensures AllSent(PushAll(log, to, packet), home, packets + [packet])
  {
    assert forall e :: e in home ==> Sent(log, e) == packets;
  }

  predicate StreamInv(s: Stream, home: set<Endpoint>, start: int, file: seq<int>, garbage: seq<int>) {
    && HasBuffer(s)
    && Reading(s.packets, s.dataBuffer, s.file, file, garbage)
    && start > 0
    && Stamped(s.packets, start)
    && s.streamStart == start + PACKET_TIME_MS * |s.packets|
    && s.nFramesSent == FRAMES_PER_PACKET * |s.packets|
    && AllSent(s.dataLog, home, s.packets)
    && (if s.isDone then s.file == [] && s.pendingSends == s.failedSends == 0 else s.packets != [] && Awaiting(s))
  }

  /** The state in which a send of data finds the stream: nothing in flight. */
  predicate Drained(s: Stream, home: set<Endpoint>, start: int, file: seq<int>, garbage: seq<int>) {
    && HasBuffer(s)
    && Reading(s.packets, s.dataBuffer, s.file, file, garbage)
    && start > 0
    && Stamped(s.packets, start)
    && (s.streamStart == start + PACKET_TIME_MS * |s.packets| || (s.packets == [] && s.streamStart == 0))
    && s.nFramesSent == FRAMES_PER_PACKET * |s.packets|
    && AllSent(s.dataLog, home, s.packets)
    && !s.isDone && s.pendingSends == s.failedSends == 0
  }

  /** Past what was sent, the samples of the packet are the file's, and past its end the buffer's. */
  lemma NextSamples(audio: seq<int>, buffer: seq<int>, file: seq<int>, garbage: seq<int>, payload: seq<int>, n: nat)
    requires |garbage| == |buffer| == SAMPLES_PER_PACKET && |audio| < |file|
    requires CarriesFile(audio, file, garbage) && buffer == (garbage + audio)[|audio|..]
    requires n == Min(SAMPLES_PER_PACKET, |file| - |audio|) && payload == ReadInto(buffer, file[|audio|..], n)
    ensures CarriesFile(audio + payload, file, garbage)
  {
    var more := audio + payload;
    forall j | |audio| <= j < |more|
      ensures j < |file| ==> more[j] == file[j]
      ensures j >= |file| ==> more[j] == (garbage + more)[j]
    {
      var i := j - |audio|;
      assert more[j] == payload[i];
      if j >= |file| {
        assert payload[i] == buffer[i] == (garbage + audio)[j] == (garbage + more)[j];
      }
    }
  }

  lemma LastPacket(garbage: seq<int>, audio: seq<int>, payload: seq<int>)
    requires |garbage| == |payload|
    ensures (garbage + (audio + payload))[|audio + payload|..] == payload
  {
    assert garbage + (audio + payload) == (garbage + audio) + payload;
  }

  lemma ReadMore(packets: seq<DataPacket>, buffer: seq<int>, rest: seq<int>, file: seq<int>, garbage: seq<int>,
                 packet: DataPacket, n: nat)
    requires Reading(packets, buffer, rest, file, garbage) && rest != []
    requires n == Min(SAMPLES_PER_PACKET, |rest|)
    requires packet.payload == ReadInto(buffer, rest, n)
    ensures Reading(packets + [packet], packet.payload, rest[n..], file, garbage)
  {
    var audio := Audio(packets);
    AudioLength(packets);
    assert (packets + [packet])[..|packets|] == packets;
    assert Audio(packets + [packet]) == audio + packet.payload;
    NextSamples(audio, buffer, file, garbage, packet.payload, n);
    LastPacket(garbage, audio, packet.payload);
    hide CarriesFile, Audio;
  }

  /** Sending the next packet, or finding the end of the file. */
  lemma SendKeeps(s: Stream, to: set<Endpoint>, home: set<Endpoint>, clock: int, start: int,
                  file: seq<int>, garbage: seq<int>)
    requires Drained(s, home, start, file, garbage) && home <= to && |to| <= 0x1_0000
    requires s.streamStart == 0 ==> start == clock + STREAM_OFFSET
    ensures StreamInv(SendData(s, to, clock), home, start, file, garbage)
    ensures var r := SendData(s, to, clock);
            if s.file == [] then r.isDone && r.packets == s.packets
            else !r.isDone && |r.packets| == |s.packets| + 1 && r.packets[..|s.packets|] == s.packets
                 && r.pendingSends == |to| && r.failedSends == 0
                 && r.file == s.file[Min(SAMPLES_PER_PACKET, |s.file|)..]
  {
    hide Reading, PushAll, AllSent;
    if s.file != [] {
      var packet := SendData(s, to, clock).packets[|s.packets|];
      AllSentOneMore(s.dataLog, to, home, s.packets, packet);
      ReadMore(s.packets, s.dataBuffer, s.file, file, garbage, packet, Min(SAMPLES_PER_PACKET, |s.file|));
    }
  }

  /** A completion handler keeps the stream in order. It packs another packet, or finds the end of the
      file, exactly when it is the last completion awaited and none has failed. */
  lemma CompletionKeeps(s: Stream, to: set<Endpoint>, ok: bool, clock: int, home: set<Endpoint>, start: int,
                        file: seq<int>, garbage: seq<int>)
    requires StreamInv(s, home, start, file, garbage) && s.pendingSends > 0
    requires home <= to && |to| <= 0x1_0000
    ensures StreamInv(Completion(s, to, ok, clock), home, start, file, garbage)
    ensures var r, last := Completion(s, to, ok, clock), ok && s.pendingSends == 1 && s.failedSends == 0;
            && (r.packets != s.packets || r.isDone <==> last)
            && (last && s.file == [] ==> r.isDone && r.packets == s.packets)
            && (last && s.file != [] ==> !r.isDone && r.pendingSends == |to| && r.failedSends == 0
                                         && |r.packets| == |s.packets| + 1
                                         && r.file == s.file[Min(SAMPLES_PER_PACKET, |s.file|)..])
            && (!last ==> r.file == s.file && r.isDone == s.isDone && r.pendingSends == s.pendingSends - 1
                          && r.failedSends == s.failedSends + if ok then 0 else 1)
            && r.packets[..|s.packets|] == s.packets
  {
    hide SendData, Reading, AllSent, Stamped;
    if ok {
      var counted := s.(pendingSends := s.pendingSends - 1, outstanding := Uint16(s.outstanding - 1));
      if counted.outstanding == 0 {
        SendKeeps(counted, to, home, clock, start, file, garbage);
      }
    }
  }

  /** What the listeners are owed at any moment of the stream: two samples for every frame counted, as many as
      play in the time the stamps have advanced, and these are the file's. */
  lemma StreamIsFile(s: Stream, home: set<Endpoint>, start: int, file: seq<int>, garbage: seq<int>)
    requires StreamInv(s, home, start, file, garbage)
    ensures s.nFramesSent * 1000 == SAMPLE_RATE * (s.streamStart - start)
    ensures |Audio(s.packets)| == 2 * s.nFramesSent == SAMPLES_PER_PACKET * |s.packets|
    ensures |Audio(s.packets)| * 1000 == 88200 * (s.streamStart - start)
    ensures Audio(s.packets) <= file || (file <= Audio(s.packets) && |Audio(s.packets)| < |file| + SAMPLES_PER_PACKET)
    ensures s.isDone ==> file <= Audio(s.packets)
  {
    AudioLength(s.packets);
  }

  /** A finished stream has sent the file and nothing else exactly when the file fills its last packet. */
  lemma ExactlyTheFileIff(s: Stream, home: set<Endpoint>, start: int, file: seq<int>, garbage: seq<int>)
    requires StreamInv(s, home, start, file, garbage) && s.isDone
    ensures Audio(s.packets) == file <==> |file| % SAMPLES_PER_PACKET == 0
  {
    StreamIsFile(s, home, start, file, garbage);
    hide StreamInv, Audio;
    if |file| % SAMPLES_PER_PACKET == 0 {
      assert |Audio(s.packets)| == |file|;
    }
  }

  // ----- How long a stream without send errors lasts -----

  /** Packets needed for n samples. */
  function PacketsFor(n: nat): nat {
    (n + SAMPLES_PER_PACKET - 1) / SAMPLES_PER_PACKET
  }

  lemma PacketsStep(listeners: nat, n: nat)
    ensures n > 0 ==>
              listeners * PacketsFor(n) == listeners * PacketsFor(n - Min(SAMPLES_PER_PACKET, n)) + listeners
    ensures PacketsFor(0) == 0
  {
    if n > 0 {
      var rest := n - Min(SAMPLES_PER_PACKET, n);
      assert PacketsFor(n) == PacketsFor(rest) + 1;
      assert listeners * (PacketsFor(rest) + 1) == listeners * PacketsFor(rest) + listeners;
    }
  }

  /** Completions left until the end of the file is found. */
  function CompletionsLeft(s: Stream, listeners: nat): nat {
    if s.isDone then 0 else s.pendingSends + listeners * PacketsFor(|s.file|)
  }

  function CompleteAll(s: Stream, to: set<Endpoint>, n: nat, clock: int): Stream
    requires HasBuffer(s)
    decreases n
  {
    if n == 0 || s.pendingSends == 0 then s
    else CompleteAll(Completion(s, to, true, clock), to, n - 1, clock)
  }

  lemma OneCompletion(s: Stream, to: set<Endpoint>, clock: int, start: int, file: seq<int>, garbage: seq<int>)
    requires StreamInv(s, to, start, file, garbage) && s.failedSends == 0
    requires s.pendingSends > 0 && 0 < |to| <= 0x1_0000
    ensures var r := Completion(s, to, true, clock);
            && StreamInv(r, to, start, file, garbage) && r.failedSends == 0
            && CompletionsLeft(r, |to|) == CompletionsLeft(s, |to|) - 1
            && (r.isDone || r.pendingSends > 0)
  {
    InFlight(s, to, start, file, garbage);
    CompletionKeeps(s, to, true, clock, to, start, file, garbage);
    hide StreamInv, Completion, PacketsFor;
    InFlight(Completion(s, to, true, clock), to, start, file, garbage);
    PacketsStep(|to|, |s.file|);
  }

  lemma InFlight(s: Stream, home: set<Endpoint>, start: int, file: seq<int>, garbage: seq<int>)
    requires StreamInv(s, home, start, file, garbage)
    ensures HasBuffer(s)
    ensures s.isDone ==> s.pendingSends == s.failedSends == 0 && s.file == []
  {
  }

  lemma {:induction false} ManyCompletions(s: Stream, to: set<Endpoint>, n: nat, clock: int, start: int,
                                           file: seq<int>, garbage: seq<int>)
    requires StreamInv(s, to, start, file, garbage) && s.failedSends == 0
    requires 0 < |to| <= 0x1_0000 && (s.isDone || s.pendingSends > 0)
    requires n <= CompletionsLeft(s, |to|)
    ensures var r := CompleteAll(s, to, n, clock);
            StreamInv(r, to, start, file, garbage) && (r.isDone <==> n == CompletionsLeft(s, |to|))
    decreases n
  {
    hide StreamInv, Completion, PacketsFor;
    InFlight(s, to, start, file, garbage);
    if n > 0 {
      OneCompletion(s, to, clock, start, file, garbage);
      ManyCompletions(Completion(s, to, true, clock), to, n - 1, clock, start, file, garbage);
    }
  }

  /** Without send errors and with at least one listener the stream ends after one completion per
      listener and packet, neither earlier nor later, with every listener sent the whole file. */
  lemma StreamEnds(file: seq<int>, garbage: seq<int>, to: set<Endpoint>, n: nat, clock: int)
    requires |garbage| == SAMPLES_PER_PACKET && 0 < |to| <= 0x1_0000 && clock > 0
    requires n <= |to| * PacketsFor(|file|)
    ensures var r := CompleteAll(SendData(StreamOf(file, garbage), to, clock), to, n, clock);
            && (r.isDone <==> n == |to| * PacketsFor(|file|))
            && (forall e :: e in to ==> Sent(r.dataLog, e) == r.packets)
            && Stamped(r.packets, clock + 1000)
            && (r.isDone ==> |r.packets| == PacketsFor(|file|) && file <= Audio(r.packets))
  {
    hide Drained, StreamInv, PacketsFor, CompleteAll;
    var unsent, start := StreamOf(file, garbage), clock + STREAM_OFFSET;
    UnsentIsDrained(file, garbage, to, start);
    SendKeeps(unsent, to, to, clock, start, file, garbage);
    hide SendData;
    PacketsStep(|to|, |file|);
    ManyCompletions(SendData(unsent, to, clock), to, n, clock, start, file, garbage);
    WhatWasSent(CompleteAll(SendData(unsent, to, clock), to, n, clock), to, start, file, garbage);
  }

  lemma UnsentIsDrained(file: seq<int>, garbage: seq<int>, home: set<Endpoint>, start: int)
    requires |garbage| == SAMPLES_PER_PACKET && start > 0
    ensures Drained(StreamOf(file, garbage), home, start, file, garbage)
  {
    assert garbage + [] == garbage;
  }

  lemma WhatWasSent(s: Stream, home: set<Endpoint>, start: int, file: seq<int>, garbage: seq<int>)
    requires StreamInv(s, home, start, file, garbage)
    ensures forall e :: e in home ==> Sent(s.dataLog, e) == s.packets
    ensures Stamped(s.packets, start)
    ensures s.isDone ==> |s.packets| == PacketsFor(|file|) && file <= Audio(s.packets)
  {
    StreamIsFile(s, home, start, file, garbage);
    AudioLength(s.packets);
  }
}
