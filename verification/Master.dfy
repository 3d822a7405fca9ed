/** The master process. Every handler refines its function in MasterModel. */
module Masters {
  import Arithmetic
  import opened TimePackets
  import opened MasterModel

  /** What a process leaves behind when it exits does not matter; otherwise the states agree. */
  predicate Refines(after: MasterState, spec: MasterState) {
    after.panicked == spec.panicked && (!spec.panicked ==> after == spec)
  }

  lemma PushOneMore<T>(log: Log<T>, es: set<Endpoint>, e: Endpoint, x: T)
    requires e !in es
    ensures Push(PushAll(log, es, x), e, x) == PushAll(log, es + {e}, x)
  {
  }

  lemma PushNone<T>(log: Log<T>, x: T)
    ensures PushAll(log, {}, x) == log
  {
  }

  lemma ReadNothing(buffer: seq<int>, file: seq<int>)
    ensures ReadInto(buffer, file, 0) == buffer && file[0..] == file
  {
  }

  /** A fresh master that has sent the first request to the endpoints in `done`. */
  function Requested(m: MasterState, done: set<Endpoint>, clocks: map<Endpoint, int>): MasterState
    requires done <= clocks.Keys
  {
    m.(connections := map e | e in m.connections ::
         if e in done then Connection(1, 0, ResendInitial, SentInitial) else m.connections[e],
       timeLog := map e | e in done :: [Request(clocks[e])])
  }

  predicate Unstarted(m: MasterState) {
    && HasBuffer(m.stream) && !m.panicked && m.timeLog == map[]
    && forall e :: e in m.connections ==> m.connections[e] == NEW_CONNECTION
  }

  lemma RequestedOneMore(m: MasterState, done: set<Endpoint>, e: Endpoint, clocks: map<Endpoint, int>)
    requires Unstarted(m) && e in m.connections && e !in done && done + {e} <= clocks.Keys
    ensures e in Requested(m, done, clocks).connections
    ensures HasBuffer(Requested(m, done, clocks).stream) && !Requested(m, done, clocks).panicked
    ensures Refines(SendInitial(Requested(m, done, clocks), e, clocks[e]), Requested(m, done + {e}, clocks))
  {
    var sent := SendInitial(Requested(m, done, clocks), e, clocks[e]);
    assert sent.connections == Requested(m, done + {e}, clocks).connections;
    assert [] + [Request(clocks[e])] == [Request(clocks[e])];
    assert sent.timeLog == Requested(m, done + {e}, clocks).timeLog;
  }

  class Master {
    var connections: Connections
    var synced: nat
    var listening: bool
    var armed: bool
    var panicked: bool
    var outstanding: nat
    var streamStart: int
    var nFramesSent: nat
    var isDone: bool
    var file: seq<int>
    const dataBuffer: array<int>
    var timeLog: Log<TPacket>
    var dataLog: Log<DataPacket>
    var packets: seq<DataPacket>
    var pendingSends: nat
    var failedSends: nat

    function StreamView(): Stream
      reads this, dataBuffer
    {
      Stream(outstanding, streamStart, nFramesSent, isDone, file, dataBuffer[..],
             dataLog, packets, pendingSends, failedSends)
    }

    function View(): MasterState
      reads this, dataBuffer
    {
      MasterState(connections, synced, listening, armed, panicked, timeLog, StreamView())
    }

    predicate Valid()
      reads this, dataBuffer
    {
      dataBuffer.Length == SAMPLES_PER_PACKET && !panicked
    }

    constructor (endpoints: seq<Endpoint>, samples: seq<int>)
      ensures Valid() && fresh(dataBuffer)
      ensures View() == MasterState(map e | e in endpoints :: NEW_CONNECTION, 0, true, false, false, map[],
                                    StreamOf(samples, dataBuffer[..]))
    {
      connections := map e | e in endpoints :: NEW_CONNECTION;
      synced, outstanding, streamStart, nFramesSent := 0, 0, 0, 0;
      listening, armed, panicked, isDone := true, false, false, false;
      file := samples;
      dataBuffer := new int[SAMPLES_PER_PACKET];
      timeLog, dataLog, packets := map[], map[], [];
      pendingSends, failedSends := 0, 0;
    }

    method Panic()
      modifies `panicked
      ensures panicked
    {
      panicked := true;
    }

    /** Hands a time packet to the socket. */
    method SendTime(e: Endpoint, tp: TPacket)
      modifies `timeLog
      ensures timeLog == Push(old(timeLog), e, tp)
    {
      timeLog := Push(timeLog, e, tp);
    }

    /** Hands a data packet to the socket. */
    method SendDataTo(e: Endpoint, packet: DataPacket)
      modifies `dataLog, `pendingSends
      ensures dataLog == Push(old(dataLog), e, packet)
      ensures pendingSends == old(pendingSends) + 1
    {
      dataLog := Push(dataLog, e, packet);
      pendingSends := pendingSends + 1;
    }

    /** Reads up to a packet's worth of samples from the file into the data buffer. */
    method ReadFile() returns (numRead: nat)
      requires Valid()
      modifies `file, dataBuffer
      ensures numRead == Arithmetic.Min(SAMPLES_PER_PACKET, |old(file)|)
      ensures file == old(file)[numRead..]
      ensures dataBuffer[..] == ReadInto(old(dataBuffer[..]), old(file), numRead)
    {
      numRead := Arithmetic.Min(SAMPLES_PER_PACKET, |file|);
      forall i | 0 <= i < numRead {
        dataBuffer[i] := file[i];
      }
      file := file[numRead..];
    }

    /** One packet to every connection. */
    method SendToAll(packet: DataPacket)
      modifies `dataLog, `pendingSends
      ensures dataLog == PushAll(old(dataLog), connections.Keys, packet)
      ensures pendingSends == old(pendingSends) + |connections|
    {
      hide PushAll, Push;
      PushNone(dataLog, packet);
      var remaining := connections.Keys;
      ghost var done := {};
      while remaining != {}
        invariant done !! remaining && done + remaining == connections.Keys
        invariant dataLog == PushAll(old(dataLog), done, packet)
        invariant pendingSends == old(pendingSends) + |done|
        decreases remaining
      {
        var e :| e in remaining;
        PushOneMore(old(dataLog), done, e, packet);
        SendDataTo(e, packet);
        remaining, done := remaining - {e}, done + {e};
      }
      assert done == connections.Keys;
    }

    /** Stamps the samples just read and sends them to every connection. */
    method SendRead()
      requires Valid()
      modifies `streamStart, `nFramesSent, `packets, `dataLog, `pendingSends
      ensures streamStart == old(streamStart) + PACKET_TIME_MS
      ensures nFramesSent == old(nFramesSent) + FRAMES_PER_PACKET
      ensures var packet := DataPacket(streamStart, dataBuffer[..]);
              && packets == old(packets) + [packet]
              && dataLog == PushAll(old(dataLog), connections.Keys, packet)
      ensures pendingSends == old(pendingSends) + |connections|
    {
      hide PushAll;
      streamStart := streamStart + PACKET_TIME_MS;
      nFramesSent := nFramesSent + FRAMES_PER_PACKET;
      var packet := DataPacket(streamStart, dataBuffer[..]);
      packets := packets + [packet];
      SendToAll(packet);
    }

    method SendData(clock: int)
      requires Valid()
      modifies `outstanding, `streamStart, `isDone, `nFramesSent, `packets, `dataLog, `pendingSends, `file, dataBuffer
      ensures StreamView() == MasterModel.SendData(old(StreamView()), connections.Keys, clock)
    {
      hide PushAll, ReadInto, Uint16, Arithmetic.Min;
      outstanding := Uint16(|connections|);
      if streamStart == 0 {
        streamStart := clock + STREAM_OFFSET;
      }
      var numRead := ReadFile();
      if numRead == 0 {
        ReadNothing(old(dataBuffer[..]), old(file));
        isDone := true;
        return;
      }
      SendRead();
    }

    /** Moves every connection to SendingData, or panics at one that is not pending. */
    method ReleaseAll()
      requires !panicked
      modifies `connections, `panicked
      ensures panicked == !AllPending(old(connections))
      ensures !panicked ==> connections == AllSending(old(connections))
    {
      ghost var before := connections;
      var remaining := connections.Keys;
      while remaining != {}
        invariant !panicked && remaining <= before.Keys && connections.Keys == before.Keys
        invariant forall e :: e in before.Keys - remaining ==>
                    before[e].state == PendingAllSynced && connections[e] == before[e].(state := SendingData)
        invariant forall e :: e in remaining ==> connections[e] == before[e]
        decreases remaining
      {
        var e :| e in remaining;
        if connections[e].state != PendingAllSynced {
          Panic();
          return;
        }
        connections := connections[e := connections[e].(state := SendingData)];
        remaining := remaining - {e};
      }
    }

    /** Stops listening and sends the first packet. */
    method StartSending(clock: int)
      requires Valid()
      modifies `listening, `outstanding, `streamStart, `isDone, `nFramesSent, `packets, `dataLog, `pendingSends
      modifies `file, dataBuffer
      ensures View() == old(View()).(listening := false,
                                     stream := MasterModel.SendData(old(StreamView()), connections.Keys, clock))
    {
      hide MasterModel.SendData;
      listening := false;
      SendData(clock);
    }

    method TrySendData(clock: int)
      requires Valid()
      modifies this, dataBuffer
      ensures Refines(View(), MasterModel.TrySendData(old(View()), clock))
    {
      hide MasterModel.SendData, AllPending, AllSending;
      if synced == |connections| {
        ReleaseAll();
        if panicked {
          return;
        }
        StartSending(clock);
      }
    }

    method SendInitialTimesync(e: Endpoint, clock: int)
      requires Valid() && e in connections
      modifies this, dataBuffer
      ensures Refines(View(), SendInitial(old(View()), e, clock))
    {
      hide MasterModel.TrySendData;
      var cxn := connections[e].(state := SentInitial, timer := ResendInitial);
      connections := connections[e := cxn];
      if cxn.attempts > 2 {
        assert connections - {e} == old(connections) - {e};
        connections := connections - {e};
        TrySendData(clock);
        return;
      }
      connections := connections[e := cxn.(attempts := cxn.attempts + 1)];
      SendTime(e, Request(clock));
    }

    method SendFinalTimesync(e: Endpoint, packet: TPacket, clock: int)
      requires Valid() && e in connections
      modifies this, dataBuffer
      ensures Refines(View(), SendFinal(old(View()), e, packet, clock))
    {
      hide MasterModel.TrySendData;
      var cxn := connections[e].(state := SentFinal, timer := ResendFinal(packet));
      connections := connections[e := cxn];
      if cxn.attempts > 2 {
        assert connections - {e} == old(connections) - {e};
        connections := connections - {e};
        TrySendData(clock);
        return;
      }
      var tp := packet;
      cxn := cxn.(attempts := cxn.attempts + 1);
      if cxn.syncRounds + 1 == NTP_ROUNDS {
        tp := tp.(tpType := Final);
      }
      // The timer shares the packet, so it re-sends the marked one.
      connections := connections[e := cxn.(timer := ResendFinal(tp))];
      SendTime(e, tp);
    }

    /** The first requests to all connections, at start-up. */
    method SendTimesync(clocks: map<Endpoint, int>)
      requires Valid() && connections.Keys <= clocks.Keys && Unstarted(View())
      modifies this, dataBuffer
      ensures View() == Requested(old(View()), old(connections.Keys), clocks)
    {
      ghost var before := View();
      assert View() == Requested(before, {}, clocks);
      hide Requested, SendInitial;
      var remaining := connections.Keys;
      ghost var done := {};
      while remaining != {}
        invariant done !! remaining && done + remaining == before.connections.Keys
        invariant View() == Requested(before, done, clocks)
        decreases remaining
      {
        var e :| e in remaining;
        RequestedOneMore(before, done, e, clocks);
        SendInitialTimesync(e, clocks[e]);
        remaining, done := remaining - {e}, done + {e};
      }
    }

    /** Start-up: arms the receive, then sends every first request. */
    method Run(clocks: map<Endpoint, int>)
      requires Valid() && connections.Keys <= clocks.Keys
      requires View() == MasterState(map e | e in connections :: NEW_CONNECTION, 0, true, false, false, map[],
                                     StreamOf(file, dataBuffer[..]))
      modifies this, dataBuffer
      ensures View() == Start(old(connections.Keys), clocks, old(file), old(dataBuffer[..]))
    {
      armed := true;
      SendTimesync(clocks);
    }

    /** Finds the sender's connection, inserting it when it is unknown, and cancels its timer. */
    method Demultiplex(e: Endpoint)
      modifies `connections
      ensures View() == MasterModel.Demultiplex(old(View()), e)
    {
      var cxn := if e in connections then connections[e] else NEW_CONNECTION;
      if cxn.timer != NoTimer {
        cxn := cxn.(timer := NoTimer);
      }
      connections := connections[e := cxn.(attempts := 0)];
    }

    /** The switch on the connection's state. */
    method Dispatch(e: Endpoint, packet: TPacket, fromRecvd: int, clock: int)
      requires Valid() && e in connections
      modifies this, dataBuffer
      ensures Refines(View(), MasterModel.Dispatch(old(View()), e, packet, fromRecvd, clock))
    {
      hide SendInitial, SendFinal, MasterModel.TrySendData;
      var cxn := connections[e];
      match cxn.state {
        case Naked =>
        case SentInitial =>
          var tp := packet.(fromRecvd := fromRecvd, tpType := Complete);
          tp := tp.(offset := Half((tp.toRecvd - tp.fromSent) + (tp.toSent - tp.fromRecvd)));
          SendFinalTimesync(e, tp, clock);
        case SentFinal =>
          cxn := cxn.(syncRounds := cxn.syncRounds + 1);
          connections := connections[e := cxn];
          if cxn.syncRounds < NTP_ROUNDS {
            assert View() == old(View()).(connections := old(connections)[e := cxn]);
            SendInitialTimesync(e, clock);
          } else {
            connections := connections[e := cxn.(state := PendingAllSynced)];
            synced := Uint16(synced + 1);
            assert connections == old(connections)[e := cxn.(state := PendingAllSynced)];
            assert View() == old(View()).(connections := connections, synced := synced);
            TrySendData(clock);
          }
        case PendingAllSynced =>
          Panic();
        case SendingData =>
          Panic();
      }
    }

    /** The handler of the pending receive, which is armed again while the master listens. */
    method ReceiveEverything(e: Endpoint, packet: TPacket, fromRecvd: int, clock: int)
      requires Valid()
      modifies this, dataBuffer
      ensures Refines(View(), Receive(old(View()), e, packet, fromRecvd, clock))
    {
      Demultiplex(e);
      Dispatch(e, packet, fromRecvd, clock);
      armed := listening;
    }

    /** The handler of a retry timer that has run out. */
    method OnTimer(e: Endpoint, clock: int)
      requires Valid() && e in connections && connections[e].timer != NoTimer
      modifies this, dataBuffer
      ensures Refines(View(), Timeout(old(View()), e, clock))
    {
      match connections[e].timer {
        case ResendInitial => SendInitialTimesync(e, clock);
        case ResendFinal(tp) => SendFinalTimesync(e, tp, clock);
      }
    }

    /** The completion handler of one data send. */
    method OnSendCompleted(ok: bool, clock: int)
      requires Valid() && pendingSends > 0
      modifies `outstanding, `streamStart, `isDone, `nFramesSent, `packets, `dataLog, `pendingSends, `failedSends,
               `file, dataBuffer
      ensures StreamView() == Completion(old(StreamView()), connections.Keys, ok, clock)
    {
      hide MasterModel.SendData;
      pendingSends := pendingSends - 1;
      if !ok {
        failedSends := failedSends + 1;
      } else {
        outstanding := Uint16(outstanding - 1);
        if outstanding == 0 {
          SendData(clock);
        }
      }
    }
  }
}
