/** The streaming invariant over every run of the master, from start-up on. */
module StreamingRuns {
  import opened TimePackets
  import opened MasterModel
  import opened MasterRuns
  import opened Streaming

  /** The connections released by the barrier; a stranger that writes later is not among them. */
  function Listeners(m: MasterState): set<Endpoint> {
    set e | e in m.connections && m.connections[e].state == SendingData
  }

  /** Before the barrier the stream is untouched; after it the stream carries the file to the listeners.
      The one receive still pending can add one stranger. */
  ghost predicate StreamOk(m: MasterState, file: seq<int>, garbage: seq<int>) {
    && Inv(m)
    && if m.listening then m.stream == StreamOf(file, garbage)
       else && |m.connections| + (if m.armed then 1 else 0) <= 0x1_0000
            && (m.stream.pendingSends > 0 ==> m.connections != map[])
            && exists start :: StreamInv(m.stream, Listeners(m), start, file, garbage)
  }

  lemma SentToSomebody(file: seq<int>, garbage: seq<int>, to: set<Endpoint>, clock: int)
    requires |garbage| == SAMPLES_PER_PACKET
    ensures SendData(StreamOf(file, garbage), to, clock).pendingSends > 0 ==> to != {}
  {
  }

  lemma OpenedStream(m: MasterState, r: MasterState, e: Endpoint, clock: int)
    requires HasBuffer(m.stream) && Inv(r) && !r.listening && e in m.connections && Settled(m, r, e, clock)
    ensures |r.connections| < 0x1_0000 && |r.connections.Keys| == |r.connections|
    ensures Listeners(r) == r.connections.Keys && r.stream == SendData(m.stream, r.connections.Keys, clock)
  {
    hide SendData, Inv;
  }

  lemma SettledStreamOk(m: MasterState, r: MasterState, e: Endpoint, clock: int, file: seq<int>, garbage: seq<int>)
    requires StreamOk(m, file, garbage) && |garbage| == SAMPLES_PER_PACKET && clock > 0
    requires m.listening && e in m.connections && Settled(m, r, e, clock) && Inv(r)
    ensures StreamOk(r, file, garbage)
  {
    hide StreamInv, SendData, Inv, Settled, Listeners, Drained, HasBuffer;
    BufferOf(m);
    if !r.listening {
      OpenedStream(m, r, e, clock);
      SentToSomebody(file, garbage, r.connections.Keys, clock);
      UnsentIsDrained(file, garbage, Listeners(r), clock + STREAM_OFFSET);
      SendKeeps(m.stream, r.connections.Keys, Listeners(r), clock, clock + STREAM_OFFSET, file, garbage);
    } else {
      StillUnsent(m, r, e, clock);
    }
  }

  lemma StillUnsent(m: MasterState, r: MasterState, e: Endpoint, clock: int)
    requires HasBuffer(m.stream) && r.listening && e in m.connections && Settled(m, r, e, clock)
    ensures r.stream == m.stream
  {
  }

  lemma StepStreamOk(m: MasterState, ev: Event, file: seq<int>, garbage: seq<int>)
    requires StreamOk(m, file, garbage) && |garbage| == SAMPLES_PER_PACKET
    requires Enabled(m, ev) && !Unexpected(m, ev)
    ensures StreamOk(Step(m, ev), file, garbage)
  {
    hide Receive, Timeout, Completion, StreamInv, Settled;
    StepSafe(m, ev);
    match ev
    case Received(e, tp, fromRecvd, clock) =>
      if Effective(m, ev) {
        ReceiveSyncing(m, e, tp, fromRecvd, clock);
        if Settled(m, Step(m, ev), e, clock) {
          SettledStreamOk(m, Step(m, ev), e, clock, file, garbage);
        }
      } else {
        ReceiveOther(m, e, tp, fromRecvd, clock);
        assert Listeners(Step(m, ev)) == Listeners(m);
      }
    case TimedOut(e, clock) =>
      TimeoutStep(m, e, clock);
      if Settled(m, Step(m, ev), e, clock) {
        SettledStreamOk(m, Step(m, ev), e, clock, file, garbage);
      }
    case SendCompleted(ok, clock) =>
      NothingInFlight(file, garbage);
      var start :| StreamInv(m.stream, Listeners(m), start, file, garbage);
      CompletionKeeps(m.stream, m.connections.Keys, ok, clock, Listeners(m), start, file, garbage);
      assert Listeners(Step(m, ev)) == Listeners(m);
  }

  lemma NothingInFlight(file: seq<int>, garbage: seq<int>)
    ensures StreamOf(file, garbage).pendingSends == 0
  {
  }

  /** In every run of the master that has not panicked: while it listens nothing has been streamed, and
      from then on the listeners have all been sent the same packets, stamped in order, carrying the file. */
  lemma {:induction false} RunStreams(run: seq<MasterState>, evs: seq<Event>, file: seq<int>, garbage: seq<int>, n: nat)
    requires IsRun(run, evs) && StreamOk(run[0], file, garbage) && |garbage| == SAMPLES_PER_PACKET
    requires n <= |evs| && !run[n].panicked
    ensures StreamOk(run[n], file, garbage)
  {
    if n > 0 {
      assert Follows(run[n - 1], evs[n - 1], run[n]);
      hide Step, StreamOk, IsRun;
      RunStreams(run, evs, file, garbage, n - 1);
      StreamOkInv(run[n - 1], file, garbage);
      StepSafe(run[n - 1], evs[n - 1]);
      StepStreamOk(run[n - 1], evs[n - 1], file, garbage);
    }
  }

  lemma StreamOkInv(m: MasterState, file: seq<int>, garbage: seq<int>)
    requires StreamOk(m, file, garbage)
    ensures Inv(m)
  {
  }

  lemma StartStreamOk(es: set<Endpoint>, clocks: map<Endpoint, int>, file: seq<int>, buffer: seq<int>)
    requires es != {} && es <= clocks.Keys && |buffer| == SAMPLES_PER_PACKET
    ensures StreamOk(Start(es, clocks, file, buffer), file, buffer)
  {
    StartBounded(es, clocks, file, buffer);
  }

  /** From start-up: whatever happens on the network, every listener of a master that streams has been
      sent the same whole packets, and what they carry is the file as far as it goes. */
  lemma ListenersHearTheFile(run: seq<MasterState>, evs: seq<Event>, es: set<Endpoint>, clocks: map<Endpoint, int>,
                             file: seq<int>, buffer: seq<int>, n: nat)
    requires es != {} && es <= clocks.Keys && |buffer| == SAMPLES_PER_PACKET
    requires IsRun(run, evs) && run[0] == Start(es, clocks, file, buffer)
    requires n <= |evs| && !run[n].panicked
    ensures var r := run[n];
            && (forall e1, e2 :: e1 in Listeners(r) && e2 in Listeners(r) ==>
                  Sent(r.stream.dataLog, e1) == Sent(r.stream.dataLog, e2) == r.stream.packets)
            && (Audio(r.stream.packets) <= file
                || (file <= Audio(r.stream.packets)
                    && |Audio(r.stream.packets)| < |file| + SAMPLES_PER_PACKET))
            && (r.stream.isDone ==>
                  && file <= Audio(r.stream.packets)
                  && (Audio(r.stream.packets) == file <==> |file| % SAMPLES_PER_PACKET == 0))
            && |Audio(r.stream.packets)| == 2 * r.stream.nFramesSent
            && exists start :: Stamped(r.stream.packets, start)
                               && |Audio(r.stream.packets)| * 1000 == 88200 * (r.stream.streamStart - start)
  {
    StartStreamOk(es, clocks, file, buffer);
    RunStreams(run, evs, file, buffer, n);
    hide IsRun, Start;
    var r := run[n];
    if r.listening {
      assert Listeners(r) == {};
      assert Audio([]) == [];
      assert Stamped(r.stream.packets, 0);
    } else {
      var start :| StreamInv(r.stream, Listeners(r), start, file, buffer);
      WhatWasSent(r.stream, Listeners(r), start, file, buffer);
      StreamIsFile(r.stream, Listeners(r), start, file, buffer);
      if r.stream.isDone {
        ExactlyTheFileIff(r.stream, Listeners(r), start, file, buffer);
      }
    }
  }
}
