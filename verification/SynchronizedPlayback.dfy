/** From the first clock sample to the samples played, in one lock-step run of master, network and clients. */
module SynchronizedPlayback {
  import Arithmetic
  import opened TimePackets
  import opened ClientModel
  import opened MasterModel
  import opened MasterRuns
  import opened Streaming
  import opened StreamingRuns
  import opened SyncNetwork
  import opened LockStep
  import Sessions
  import opened EndToEnd

  /** The master's time one packet before the first stamp. */
  function Began(s: Stream): int {
    s.streamStart - PACKET_TIME_MS * |s.packets|
  }

  lemma BeganIs(s: Stream, home: set<Endpoint>, start: int, file: seq<int>, garbage: seq<int>)
    requires StreamInv(s, home, start, file, garbage)
    ensures Began(s) == start
  {
  }

  // ----- What holds along every lock-step run -----

  /** The clock of a client that has processed a FINAL: its stream began no later than now. */
  predicate ClockSet(c: ClientState, theta: int, now: int) {
    c.paOffset + theta + now >= 0
  }

  predicate ClocksSet(s: System, theta: Clocks) {
    forall e :: e in theta && e in s.clients && e in s.heard && HeardFinal(s.heard[e]) ==>
      ClockSet(s.clients[e], theta[e], s.now)
  }

  /** The stream's stamps lie at least a second after the clocks of the listeners were set. */
  predicate Ahead(s: System, theta: Clocks) {
    !s.master.listening ==>
      forall e :: e in s.master.connections && e in theta && e in s.clients ==>
        Began(s.master.stream) + theta[e] + s.clients[e].paOffset >= 1000
  }

  ghost predicate PlayInv(s: System, setup: Setup) {
    && StreamOk(s.master, setup.file, setup.buffer)
    && ClocksSet(s, setup.theta)
    && Ahead(s, setup.theta)
  }

  // ----- The master's side -----

  /** The step that opens the barrier takes its clock reading as the beginning. */
  lemma OpeningBegins(file: seq<int>, garbage: seq<int>, to: set<Endpoint>, clock: int)
    requires |garbage| == SAMPLES_PER_PACKET && clock > 0
    ensures Began(SendData(StreamOf(file, garbage), to, clock)) == clock + STREAM_OFFSET
  {
  }

  function ClockOf(ev: Event): int {
    match ev
    case Received(_, _, _, clock) => clock
    case TimedOut(_, clock) => clock
    case SendCompleted(_, clock) => clock
  }

  lemma OpeningStep(m: MasterState, ev: Event, file: seq<int>, garbage: seq<int>)
    requires StreamOk(m, file, garbage) && |garbage| == SAMPLES_PER_PACKET
    requires Enabled(m, ev) && !Unexpected(m, ev) && m.listening && !Step(m, ev).listening
    ensures Began(Step(m, ev).stream) == ClockOf(ev) + STREAM_OFFSET && ClockOf(ev) > 0
  {
    hide Receive, Timeout, Completion, Closer, Moved, SendData, Settled;
    match ev
    case Received(e, tp, fromRecvd, clock) =>
      if Effective(m, ev) {
        ReceiveSyncing(m, e, tp, fromRecvd, clock);
        MovedListens(m, Step(m, ev), e);
        OpenedBySettling(m, Step(m, ev), e, clock, file, garbage);
      } else {
        ReceiveOther(m, e, tp, fromRecvd, clock);
      }
    case TimedOut(e, clock) =>
      TimeoutStep(m, e, clock);
      MovedListens(m, Step(m, ev), e);
      OpenedBySettling(m, Step(m, ev), e, clock, file, garbage);
    case SendCompleted(_, _) =>
  }

  lemma MovedListens(m: MasterState, r: MasterState, e: Endpoint)
    ensures (exists c, tp :: r == Moved(m, e, c, tp)) ==> r.listening == m.listening
  {
  }

  lemma OpenedBySettling(m: MasterState, r: MasterState, e: Endpoint, clock: int, file: seq<int>, garbage: seq<int>)
    requires m.stream == StreamOf(file, garbage) && |garbage| == SAMPLES_PER_PACKET && clock > 0
    requires e in m.connections
    requires HasBuffer(m.stream) && (!r.listening ==> Settled(m, r, e, clock))
    ensures !r.listening ==> Began(r.stream) == clock + STREAM_OFFSET
  {
    hide SendData;
    OpeningBegins(file, garbage, r.connections.Keys, clock);
  }

  /** A completion keeps the beginning of the stream. */
  lemma CompletionKeepsBegan(m: MasterState, ok: bool, clock: int, file: seq<int>, garbage: seq<int>)
    requires StreamOk(m, file, garbage) && !m.listening && Enabled(m, SendCompleted(ok, clock))
    ensures Began(Step(m, SendCompleted(ok, clock)).stream) == Began(m.stream)
  {
    hide StreamInv, Completion;
    var start :| StreamInv(m.stream, Listeners(m), start, file, garbage);
    CompletionKeeps(m.stream, m.connections.Keys, ok, clock, Listeners(m), start, file, garbage);
    BeganIs(m.stream, Listeners(m), start, file, garbage);
    BeganIs(Completion(m.stream, m.connections.Keys, ok, clock), Listeners(m), start, file, garbage);
  }

  // ----- The clients' side -----

  /** Processing a packet: a FINAL sets the clock by a reading of that moment. */
  lemma ClockAfter(c: ClientState, heard: seq<TPacket>, tp: TPacket, paStart: real, theta: int, now: int, done: int)
    requires HeardFinal(heard) ==> ClockSet(c, theta, now)
    requires now <= done && paStart >= 0.0
    ensures HeardFinal(Remember(heard, tp)) ==> ClockSet(OnTimesync(c, tp, paStart, done + theta), theta, done)
  {
    hide CleanOffset, HeardFinal, Remember;
    SamplesAfter(c, tp, paStart, done + theta, heard);
    if tp.tpType == Final {
      TruncateNonNegative(paStart * 1000.0);
    }
  }

  lemma TruncateNonNegative(x: real)
    requires x >= 0.0
    ensures Truncate(x) >= 0
  {
  }

  lemma NextClocksSet(s: System, ev: NetEvent, theta: Clocks)
    requires CanHappen(s, ev, theta) && ClocksSet(s, theta)
    ensures ClocksSet(Next(s, ev, theta), theta)
  {
    var r := Next(s, ev, theta);
    hide HeardFinal, Next, OnTimesync, Remember;
    if ev.ClientReceives? {
      forall e | e in theta && e in r.clients && e in r.heard && HeardFinal(r.heard[e])
        ensures ClockSet(r.clients[e], theta[e], r.now)
      {
        ReceivingSets(s, ev, theta, e);
        ClockAfter(s.clients[e], s.heard[e], ev.tp, ev.paStart, theta[e], s.now, ev.done);
      }
    } else {
      OnlyReceivingSets(s, ev, theta);
    }
  }

  // ----- While the master streams the clients' clocks stand -----

  lemma QuietNet(s: System, theta: Clocks, e: Endpoint)
    requires LockInv(s, theta) && !s.master.listening && e in theta
    ensures s.net[e] == multiset{}
  {
    hide HeardFinal, ConnectionInv, OneLive, Requested, Replied;
    assert LinkAt(s, e);
  }

  lemma OnlyData(s: System, ev: NetEvent, theta: Clocks)
    requires LockInv(s, theta) && !s.master.listening && CanHappen(s, ev, theta)
    ensures ev.Wait? || ev.MasterCompletion?
  {
    hide LockInv;
    StreamingArmsNothing(s, theta);
    if !ev.Wait? && !ev.MasterCompletion? && !ev.MasterTimeout? {
      QuietNet(s, theta, if ev.MasterReceives? then ev.from else ev.at);
    }
  }

  lemma StreamingArmsNothing(s: System, theta: Clocks)
    requires LockInv(s, theta) && !s.master.listening
    ensures forall e :: e in s.master.connections ==> s.master.connections[e].timer == NoTimer
  {
    forall e | e in s.master.connections
      ensures s.master.connections[e].timer == NoTimer
    {
      assert ConnectionInv(s.master.connections[e]);
    }
  }

  /** From the barrier on no client's clock and no connection changes. */
  lemma StreamingStands(s: System, ev: NetEvent, theta: Clocks)
    requires LockInv(s, theta) && !s.master.listening && CanHappen(s, ev, theta)
    ensures var r := Next(s, ev, theta);
            && r.clients == s.clients && r.heard == s.heard && !r.master.listening
            && r.master.connections == s.master.connections
  {
    hide LockInv, Completion;
    OnlyData(s, ev, theta);
  }

  // ----- Each step keeps the streams ahead of the clocks -----

  lemma MasterStepOk(m: MasterState, ev: Event, file: seq<int>, garbage: seq<int>)
    requires StreamOk(m, file, garbage) && |garbage| == SAMPLES_PER_PACKET
    requires Enabled(m, ev) && !Step(m, ev).panicked
    ensures StreamOk(Step(m, ev), file, garbage) && !Unexpected(m, ev)
  {
    hide StreamOk, Step, Enabled, Unexpected, Inv;
    StreamOkInv(m, file, garbage);
    StepSafe(m, ev);
    StepStreamOk(m, ev, file, garbage);
  }

  /** What a step of the network makes the master do. */
  function MasterEvent(s: System, ev: NetEvent): Event
    requires ev.MasterReceives? || ev.MasterTimeout? || ev.MasterCompletion?
  {
    match ev
    case MasterReceives(e, tp, clock) => Received(e, tp, s.now, clock)
    case MasterTimeout(e, clock) => TimedOut(e, clock)
    case MasterCompletion(ok, clock) => SendCompleted(ok, clock)
  }

  lemma MasterSide(s: System, ev: NetEvent, theta: Clocks)
    requires CanHappen(s, ev, theta)
    ensures var r := Next(s, ev, theta);
            if ev.MasterReceives? || ev.MasterTimeout? || ev.MasterCompletion? then
              && Enabled(s.master, MasterEvent(s, ev)) && r.master == Step(s.master, MasterEvent(s, ev))
              && r.clients == s.clients && r.heard == s.heard
              && s.now <= ClockOf(MasterEvent(s, ev)) == r.now
            else r.master == s.master
  {
    hide Receive, Timeout, Completion;
  }

  lemma NextStreamOk(s: System, ev: NetEvent, setup: Setup)
    requires CanHappen(s, ev, setup.theta) && StreamOk(s.master, setup.file, setup.buffer)
    requires |setup.buffer| == SAMPLES_PER_PACKET && !Next(s, ev, setup.theta).master.panicked
    ensures StreamOk(Next(s, ev, setup.theta).master, setup.file, setup.buffer)
  {
    hide StreamOk, Next, CanHappen, Step, Enabled;
    MasterSide(s, ev, setup.theta);
    if ev.MasterReceives? || ev.MasterTimeout? || ev.MasterCompletion? {
      MasterStepOk(s.master, MasterEvent(s, ev), setup.file, setup.buffer);
    }
  }

  /** A listener has processed its FINAL by the time the barrier opens. */
  lemma ListenersClocks(r: System, theta: Clocks, e: Endpoint)
    requires LockInv(r, theta) && !r.master.listening && e in r.master.connections
    ensures e in theta && e in r.heard && e in r.clients && HeardFinal(r.heard[e])
  {
    hide LockInv, HeardFinal;
    StreamingIsSettled(r, e, theta);
    LockInvMaster(r, theta);
  }

  lemma OpeningIsAhead(s: System, ev: NetEvent, setup: Setup)
    requires LockInv(s, setup.theta) && CanHappen(s, ev, setup.theta) && PlayInv(s, setup)
    requires |setup.buffer| == SAMPLES_PER_PACKET && s.master.listening
    requires LockInv(Next(s, ev, setup.theta), setup.theta)
    ensures Ahead(Next(s, ev, setup.theta), setup.theta)
  {
    hide LockInv, Next, CanHappen, Step, Enabled, StreamOk, HeardFinal, Unexpected, Began;
    var r := Next(s, ev, setup.theta);
    MasterSide(s, ev, setup.theta);
    if !r.master.listening {
      var mev := MasterEvent(s, ev);
      LockInvMaster(r, setup.theta);
      NotPanicked(r, setup.theta);
      MasterStepOk(s.master, mev, setup.file, setup.buffer);
      OpeningStep(s.master, mev, setup.file, setup.buffer);
      forall e | e in r.master.connections && e in setup.theta && e in r.clients
        ensures Began(r.master.stream) + setup.theta[e] + r.clients[e].paOffset >= 1000
      {
        ListenersClocks(r, setup.theta, e);
        assert ClockSet(s.clients[e], setup.theta[e], s.now);
      }
    }
  }

  lemma NotPanicked(s: System, theta: Clocks)
    requires LockInv(s, theta)
    ensures !s.master.panicked
  {
  }

  lemma StreamingStaysAhead(s: System, ev: NetEvent, setup: Setup)
    requires LockInv(s, setup.theta) && CanHappen(s, ev, setup.theta) && PlayInv(s, setup)
    requires !s.master.listening
    ensures Ahead(Next(s, ev, setup.theta), setup.theta)
  {
    hide LockInv, Next, CanHappen, Step, Enabled, StreamOk, Began, ClocksSet;
    OnlyData(s, ev, setup.theta);
    StreamingStands(s, ev, setup.theta);
    MasterSide(s, ev, setup.theta);
    if ev.MasterCompletion? {
      CompletionKeepsBegan(s.master, ev.ok, ev.clock, setup.file, setup.buffer);
    }
  }

  lemma NextPlayInv(s: System, ev: NetEvent, setup: Setup)
    requires LockInv(s, setup.theta) && StaysInStep(s, ev, setup.theta) && PlayInv(s, setup)
    requires |setup.buffer| == SAMPLES_PER_PACKET
    ensures PlayInv(Next(s, ev, setup.theta), setup)
  {
    hide LockInv, Next, CanHappen, InStep, StreamOk, ClocksSet, Ahead;
    InStepKeeps(s, ev, setup.theta);
    NotPanicked(Next(s, ev, setup.theta), setup.theta);
    NextStreamOk(s, ev, setup);
    NextClocksSet(s, ev, setup.theta);
    if s.master.listening {
      OpeningIsAhead(s, ev, setup);
    } else {
      StreamingStaysAhead(s, ev, setup);
    }
  }

  lemma StartPlayInv(s: System, setup: Setup)
    requires Starts(s, setup)
    ensures PlayInv(s, setup) && |setup.buffer| == SAMPLES_PER_PACKET
  {
    hide StreamOk, HeardFinal;
    StartStreamOk(setup.endpoints, setup.clocks, setup.file, setup.buffer);
    NothingHeard();
  }

  lemma {:induction false} RunPlayInv(run: seq<System>, evs: seq<NetEvent>, setup: Setup, n: nat)
    requires IsLockStepRun(run, evs, setup) && n <= |evs|
    ensures PlayInv(run[n], setup) && |setup.buffer| == SAMPLES_PER_PACKET
  {
    hide PlayInv, Next, CanHappen, InStep, Starts, LockInv;
    if n == 0 {
      StartPlayInv(run[0], setup);
    } else {
      assert LeadsTo(run[n - 1], evs[n - 1], setup.theta, run[n]);
      assert StaysInStep(run[n - 1], evs[n - 1], setup.theta);
      LockStepInv(run, evs, setup, n - 1);
      RunPlayInv(run, evs, setup, n - 1);
      NextPlayInv(run[n - 1], evs[n - 1], setup);
    }
  }

  // ----- What a listener hears -----

  /** From the barrier on a listener's clock is fixed: every packet of the stream is queued under the same
      two offsets. */
  lemma {:induction false} ClocksStand(run: seq<System>, evs: seq<NetEvent>, setup: Setup, n: nat, later: nat)
    requires IsLockStepRun(run, evs, setup) && n <= later <= |evs| && !run[n].master.listening
    ensures run[later].clients == run[n].clients && !run[later].master.listening
    ensures run[later].master.connections == run[n].master.connections
  {
    hide Next, CanHappen, InStep, Starts, LockInv;
    if n < later {
      assert LeadsTo(run[later - 1], evs[later - 1], setup.theta, run[later]);
      LockStepInv(run, evs, setup, later - 1);
      ClocksStand(run, evs, setup, n, later - 1);
      StreamingStands(run[later - 1], evs[later - 1], setup.theta);
    }
  }

  /** The offsets the client e has heard are within a second of its clock's, and the last stamp does not
      wrap on its stream clock. */
  predicate GoodClock(s: System, e: Endpoint) {
    && HasHeard(s, e, 2000)
    && s.master.stream.streamStart + s.clients[e].offset + s.clients[e].paOffset < Arithmetic.UINT64_SIZE
  }

  /** The whole stream lies after the start of the listener's stream clock. */
  lemma StreamIsAfterClockStart(run: seq<System>, evs: seq<NetEvent>, setup: Setup, n: nat, e: Endpoint)
    requires IsLockStepRun(run, evs, setup) && n <= |evs| && GoodClock(run[n], e)
    requires !run[n].master.listening && e in run[n].master.connections
    ensures var c, stream := run[n].clients[e], run[n].master.stream;
            AfterClockStart(Began(stream), |stream.packets|, c.offset, c.paOffset)
  {
    LockStepInv(run, evs, setup, n);
    RunPlayInv(run, evs, setup, n);
    hide IsNetRun, LeadsTo, StaysInStep, LockInv, StreamOk, ClocksSet, HasHeard, HeardFinal;
    ListenersClocks(run[n], setup.theta, e);
    hide IsLockStepRun;
    OffsetAccuracy(run, evs, setup, n, e, 2000);
  }

  /** In every lock-step run: a listener whose worst sample is good to within a second plays the file. It
      has been sent the master's packets; whichever of them have come, in order, between whichever callbacks,
      what it has sounded and what it has queued together are the audio of exactly these, each its part of the
      file; every callback serves its request, and nothing wraps on the way. */
  lemma ListenerPlaysTheFile(run: seq<System>, evs: seq<NetEvent>, setup: Setup, n: nat, e: Endpoint,
                             ks: seq<nat>, session: seq<Sessions.AudioEvent>)
    requires IsLockStepRun(run, evs, setup) && n <= |evs| && GoodClock(run[n], e)
    requires !run[n].master.listening && e in run[n].master.connections
    requires Ascending(ks, |run[n].master.stream.packets|)
    requires var c := run[n].clients[e];
             Sessions.Arrivals(session) == TracksOf(Chosen(run[n].master.stream.packets, ks), c.offset, c.paOffset)
    ensures Sent(run[n].master.stream.dataLog, e) == run[n].master.stream.packets
    ensures PlaysTheFile(session, run[n].master.stream.packets, ks, setup.file)
  {
    var s := run[n];
    StreamIsAfterClockStart(run, evs, setup, n, e);
    RunPlayInv(run, evs, setup, n);
    LockStepInv(run, evs, setup, n);
    hide IsLockStepRun, LockInv, StreamInv, PlaysTheFile, Ahead, ClocksSet, GoodClock, Ascending, Chosen;
    IsListener(s, setup.theta, e);
    var start :| StreamInv(s.master.stream, Listeners(s.master), start, setup.file, setup.buffer);
    BeganIs(s.master.stream, Listeners(s.master), start, setup.file, setup.buffer);
    WhatWasSent(s.master.stream, Listeners(s.master), start, setup.file, setup.buffer);
    ClientPlaysTheFile(s.master.stream, Listeners(s.master), start, setup.file, setup.buffer,
                       |s.master.stream.packets|, ks, session, s.clients[e].offset, s.clients[e].paOffset);
  }

  lemma IsListener(s: System, theta: Clocks, e: Endpoint)
    requires LockInv(s, theta) && !s.master.listening && e in s.master.connections
    ensures e in Listeners(s.master)
  {
    hide HeardFinal, ConnectionInv, OneLive, Requested, Replied;
    assert LinkAt(s, e);
  }
}
