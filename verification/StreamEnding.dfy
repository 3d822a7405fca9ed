/** When a stream that has begun can still reach the end of the file. */
module StreamEnding {
  import TimePackets
  import opened MasterModel
  import opened MasterRuns
  import Streaming
  import opened StreamingRuns

  /** Every completion awaited can still come and count. */
  predicate CanEnd(s: Stream) {
    s.isDone || (s.failedSends == 0 && s.pendingSends > 0)
  }

  /** A run from m to the end of the file. */
  predicate EndsStream(m: MasterState, run: seq<MasterState>, evs: seq<Event>) {
    IsRun(run, evs) && run[0] == m && !run[|evs|].panicked && run[|evs|].stream.isDone
  }

  ghost predicate Streams(m: MasterState, file: seq<int>, garbage: seq<int>) {
    StreamOk(m, file, garbage) && !m.listening && |garbage| == SAMPLES_PER_PACKET
  }

  lemma CompletionStep(m: MasterState, ok: bool, clock: int, file: seq<int>, garbage: seq<int>)
    requires Streams(m, file, garbage) && m.stream.pendingSends > 0 && clock > 0
    ensures Enabled(m, SendCompleted(ok, clock))
    ensures var r := Step(m, SendCompleted(ok, clock));
            var last := ok && m.stream.pendingSends == 1 && m.stream.failedSends == 0;
            && Streams(r, file, garbage) && !r.panicked
            && (last && m.stream.file == [] ==> r.stream.isDone && r.stream.file == [])
            && (last && m.stream.file != [] ==>
                  CanEnd(r.stream) && |r.stream.file| < |m.stream.file|)
            && (!last ==> r.stream.isDone == m.stream.isDone && r.stream.pendingSends == m.stream.pendingSends - 1
                          && r.stream.file == m.stream.file
                          && r.stream.failedSends == m.stream.failedSends + if ok then 0 else 1)
  {
    hide Streaming.StreamInv, Completion;
    StreamingBuffer(m, file, garbage);
    var start :| Streaming.StreamInv(m.stream, Listeners(m), start, file, garbage);
    Streaming.CompletionKeeps(m.stream, m.connections.Keys, ok, clock, Listeners(m), start, file, garbage);
    Streaming.InFlight(Completion(m.stream, m.connections.Keys, ok, clock), Listeners(m), start, file, garbage);
    StepStreamOk(m, SendCompleted(ok, clock), file, garbage);
  }

  lemma StreamingBuffer(m: MasterState, file: seq<int>, garbage: seq<int>)
    requires Streams(m, file, garbage)
    ensures HasBuffer(m.stream) && !m.panicked && Listeners(m) <= m.connections.Keys
    ensures |m.connections.Keys| <= 0x1_0000
  {
  }

  /** Successful completions alone lead to the end. */
  lemma {:induction false} CompletionsEndStream(m: MasterState, file: seq<int>, garbage: seq<int>)
    returns (run: seq<MasterState>, evs: seq<Event>)
    requires Streams(m, file, garbage) && CanEnd(m.stream)
    ensures EndsStream(m, run, evs)
    decreases |m.stream.file|, if m.stream.isDone then 0 else m.stream.pendingSends
  {
    hide Streams, Enabled, Step;
    StreamingIsUp(m, file, garbage);
    if m.stream.isDone {
      run, evs := [m], [];
    } else {
      var ev := SendCompleted(true, 1);
      CompletionStep(m, true, 1, file, garbage);
      var r := Step(m, ev);
      run, evs := CompletionsEndStream(r, file, garbage);
      StepPrepended(m, ev, run, evs);
      run, evs := [m] + run, [ev] + evs;
    }
  }

  lemma StreamingIsUp(m: MasterState, file: seq<int>, garbage: seq<int>)
    requires Streams(m, file, garbage)
    ensures !m.panicked && Inv(m) && !m.listening
  {
  }

  // ----- Nothing brings it back -----

  lemma StuckStays(m: MasterState, ev: Event, file: seq<int>, garbage: seq<int>)
    requires Streams(m, file, garbage) && !CanEnd(m.stream) && Enabled(m, ev) && !Step(m, ev).panicked
    ensures Streams(Step(m, ev), file, garbage) && !CanEnd(Step(m, ev).stream)
  {
    hide Streams, Step, Inv, StreamOk;
    StreamingIsUp(m, file, garbage);
    StreamingStartsOnce(m, ev);
    if ev.SendCompleted? {
      SomethingPending(m, ev);
      CompletionStep(m, ev.ok, ev.clock, file, garbage);
      assert ev == SendCompleted(ev.ok, ev.clock);
    } else {
      ReceivingStreams(m, ev, file, garbage);
    }
  }

  lemma SomethingPending(m: MasterState, ev: Event)
    requires Enabled(m, ev) && ev.SendCompleted?
    ensures m.stream.pendingSends > 0 && ev.clock > 0
  {
  }

  lemma ReceivingStreams(m: MasterState, ev: Event, file: seq<int>, garbage: seq<int>)
    requires Streams(m, file, garbage) && Enabled(m, ev) && !Step(m, ev).panicked && ev.Received?
    ensures Streams(Step(m, ev), file, garbage)
  {
    hide StreamOk, Inv, Step, Enabled;
    StreamingIsUp(m, file, garbage);
    StepSafe(m, ev);
    StepStreamOk(m, ev, file, garbage);
    StreamingStartsOnce(m, ev);
  }

  lemma {:induction false} StuckForGood(run: seq<MasterState>, evs: seq<Event>, file: seq<int>, garbage: seq<int>,
                                        n: nat)
    requires IsRun(run, evs) && Streams(run[0], file, garbage) && !CanEnd(run[0].stream)
    requires n <= |evs| && !run[n].panicked
    ensures Streams(run[n], file, garbage) && !CanEnd(run[n].stream)
  {
    hide Streams, CanEnd, Enabled, Step;
    if n > 0 {
      assert Follows(run[n - 1], evs[n - 1], run[n]);
      Unpanicked(run[n - 1], evs[n - 1]);
      StuckForGood(run, evs, file, garbage, n - 1);
      StuckStays(run[n - 1], evs[n - 1], file, garbage);
    }
  }

  lemma Unpanicked(m: MasterState, ev: Event)
    requires Enabled(m, ev)
    ensures !m.panicked
  {
  }

  /** A stream that has begun can still reach the end of its file if and only if it is there, or no send of the
      packet in flight has failed and some completion is still to come. With nobody to send to, no completion
      is. */
  lemma StreamCanEndIff(m: MasterState, file: seq<int>, garbage: seq<int>)
    requires Streams(m, file, garbage)
    ensures (exists run, evs :: EndsStream(m, run, evs)) <==> CanEnd(m.stream)
  {
    hide Streams, IsRun;
    if CanEnd(m.stream) {
      var run, evs := CompletionsEndStream(m, file, garbage);
    } else {
      forall run, evs
        ensures !EndsStream(m, run, evs)
      {
        if EndsStream(m, run, evs) {
          StuckForGood(run, evs, file, garbage, |evs|);
        }
      }
    }
  }

  /** Right after the barrier: the stream can end if and only if the file is empty or somebody listens. */
  lemma OpenedStreamCanEndIff(file: seq<int>, garbage: seq<int>, to: set<TimePackets.Endpoint>, clock: int)
    requires |garbage| == SAMPLES_PER_PACKET
    ensures CanEnd(SendData(StreamOf(file, garbage), to, clock)) <==> file == [] || to != {}
  {
  }
}
