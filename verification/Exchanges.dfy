/** One exchange between the master and a client, and the offset it yields, in terms of when its events happen. */
module Exchanges {
  import opened TimePackets
  import opened ClientModel
  import opened MasterModel
  import opened MasterRuns
  import opened SyncNetwork
  import opened Timers

  /** The n-th event of a run puts one more copy of this message on the network. */
  predicate Puts(run: seq<System>, n: nat, e: Endpoint, msg: Message)
    requires n + 1 < |run|
  {
    e in run[n].net && e in run[n + 1].net && run[n + 1].net[e][msg] > run[n].net[e][msg]
  }

  /** The master sends this packet to e, in the handler that reads its clock at `at`. */
  predicate SendsPacket(run: seq<System>, evs: seq<NetEvent>, n: nat, e: Endpoint, tp: TPacket, at: int)
    requires n + 1 < |run| && n < |evs|
  {
    SendsTo(evs[n], e) && evs[n].clock == at && Puts(run, n, e, ToClient(tp))
  }

  /** The client receives this packet at `received`, and stamps and sends this reply at `answered`. */
  predicate Answers(run: seq<System>, evs: seq<NetEvent>, n: nat, e: Endpoint, tp: TPacket, received: int,
                    answered: int, reply: TPacket)
    requires n + 1 < |run| && n < |evs|
  {
    && evs[n].ClientReceives? && evs[n].at == e && evs[n].tp == tp
    && run[n].now == received && evs[n].sent == answered && Puts(run, n, e, ToMaster(reply))
  }

  /** The master receives this reply at `received` and sends this packet in return. */
  predicate Returns(run: seq<System>, evs: seq<NetEvent>, n: nat, e: Endpoint, reply: TPacket, received: int,
                    tp: TPacket)
    requires n + 1 < |run| && n < |evs|
  {
    && evs[n].MasterReceives? && evs[n].from == e && evs[n].tp == reply
    && run[n].now == received && Puts(run, n, e, ToClient(tp))
  }

  // ----- The three events -----

  lemma ClientPuts(s: System, e: Endpoint, tp: TPacket, sent: int, done: int, paStart: real, theta: Clocks,
                   msg: Message)
    requires CanHappen(s, ClientReceives(e, tp, sent, done, paStart), theta)
    requires Next(s, ClientReceives(e, tp, sent, done, paStart), theta).net[e][msg] > s.net[e][msg]
    ensures msg == ToMaster(Echo(tp, s.now + theta[e], sent + theta[e]))
  {
    hide OnTimesync, Echo, Remember;
  }

  lemma MasterPuts(s: System, r: MasterState, e: Endpoint, rest: multiset<Message>, clock: int, msg: Message)
    requires e in s.net && rest <= s.net[e] && MasterMoves(s, r, e, rest, clock).net[e][msg] > s.net[e][msg]
    ensures msg in NewlySent(s.master, r, e)
  {
    hide NewlySent;
  }

  /** What a handler sends e for the state it leaves the connection in. */
  lemma MovePuts(m: MasterState, e: Endpoint, c: Connection, tp: TPacket, msg: Message)
    requires msg in NewlySent(m, Moved(m, e, c, tp), e)
    ensures msg == ToClient(tp)
  {
    SentByMove(m, e, c, tp);
  }

  lemma NothingPut(m: MasterState, r: MasterState, e: Endpoint)
    requires r.timeLog == m.timeLog
    ensures NewlySent(m, r, e) == multiset{}
  {
  }

  /** A request the master sends bears the reading of its clock. */
  lemma RequestSent(s: System, ev: NetEvent, e: Endpoint, tp: TPacket, theta: Clocks)
    requires NetInv(s, theta) && CanHappen(s, ev, theta) && SendsTo(ev, e)
    requires Next(s, ev, theta).net[e][ToClient(tp)] > s.net[e][ToClient(tp)] && tp.tpType == Incomplete
    ensures tp == Request(ev.clock)
  {
    match ev {
      case MasterTimeout(_, clock) => TimeoutSends(s, e, clock, tp, theta);
      case MasterReceives(_, reply, clock) => ReplySends(s, e, reply, clock, tp, theta);
    }
  }

  lemma Armed(s: System, e: Endpoint, theta: Clocks)
    requires NetInv(s, theta) && !s.master.panicked && e in s.master.connections && e in theta
    ensures Inv(s.master) && HasBuffer(s.master.stream)
    ensures s.master.connections[e].timer.ResendFinal? ==> CarriesOffset(s.master.connections[e].timer.tp)
  {
  }

  lemma TimeoutSends(s: System, e: Endpoint, clock: int, tp: TPacket, theta: Clocks)
    requires NetInv(s, theta) && CanHappen(s, MasterTimeout(e, clock), theta)
    requires Next(s, MasterTimeout(e, clock), theta).net[e][ToClient(tp)] > s.net[e][ToClient(tp)]
    requires tp.tpType == Incomplete
    ensures tp == Request(clock)
  {
    hide NetInv, Inv, Timeout, Moved, Settled, Closer, NewlySent, MasterMoves;
    Armed(s, e, theta);
    var m, c := s.master, s.master.connections[e];
    var r := Timeout(m, e, clock);
    MasterPuts(s, r, e, s.net[e], clock, ToClient(tp));
    TimeoutStep(m, e, clock);
    if c.attempts > 2 {
      SettledSame(m, r, e, clock);
      NothingPut(m, r, e);
    } else {
      MovePuts(m, e, Retried(c), Resend(c, clock), ToClient(tp));
    }
  }

  lemma SettledSame(m: MasterState, r: MasterState, e: Endpoint, clock: int)
    requires HasBuffer(m.stream) && e in m.connections && Settled(m, r, e, clock)
    ensures r.timeLog == m.timeLog
  {
  }

  lemma ReplySends(s: System, e: Endpoint, reply: TPacket, clock: int, tp: TPacket, theta: Clocks)
    requires NetInv(s, theta) && CanHappen(s, MasterReceives(e, reply, clock), theta)
    requires Next(s, MasterReceives(e, reply, clock), theta).net[e][ToClient(tp)] > s.net[e][ToClient(tp)]
    ensures tp.tpType == Incomplete ==> tp == Request(clock)
    ensures CarriesOffset(tp) ==>
              var sent := Completed(reply, s.now); tp == sent || tp == sent.(tpType := Final)
  {
    hide NetInv, Inv, Receive, Moved, Settled, Closer, NewlySent, MasterMoves, Completed;
    var m, r := s.master, Receive(s.master, e, reply, s.now, clock);
    UpAndRunning(s, theta);
    MasterPuts(s, r, e, s.net[e] - multiset{ToMaster(reply)}, clock, ToClient(tp));
    if e in m.connections && Syncing(m.connections[e]) {
      var c := m.connections[e];
      SyncingRounds(m, e);
      if c.state == SentInitial {
        ReplyToInitial(m, e, reply, s.now, clock);
        CompletedType(reply, s.now);
        MovePuts(m, e, AwaitingFinal(c, FinalFor(c, reply, s.now)), FinalFor(c, reply, s.now), ToClient(tp));
      } else if c.syncRounds + 1 < NTP_ROUNDS {
        ReplyToFinal(m, e, reply, s.now, clock);
        MovePuts(m, e, NextRound(c), Request(clock), ToClient(tp));
      } else {
        ReplyToLastFinal(m, e, reply, s.now, clock);
        SettledSame(m, r, e, clock);
        NothingPut(m, r, e);
      }
    } else {
      OtherIsQuiet(m, e, reply, s.now, clock);
      NothingPut(m, r, e);
    }
  }

  lemma UpAndRunning(s: System, theta: Clocks)
    requires NetInv(s, theta) && !s.master.panicked
    ensures Inv(s.master) && HasBuffer(s.master.stream)
  {
  }

  lemma CompletedType(reply: TPacket, fromRecvd: int)
    ensures Completed(reply, fromRecvd).tpType == Complete
  {
  }

  // ----- What the exchange yields -----

  /** When a request was sent, received, answered, and its answer received. */
  datatype Times = Times(sent: int, received: int, answered: int, returned: int)

  /** In a run: the h-th event sends a request at `sent` (or the run starts with it, h being 0), the i-th is its
      receipt and its answer by the client, the j-th the receipt of that answer, to which the master replies with
      a packet that carries an offset. */
  predicate IsExchange(run: seq<System>, evs: seq<NetEvent>, setup: Setup, e: Endpoint, times: Times, h: nat, i: nat,
                       j: nat, request: TPacket, reply: TPacket, final: TPacket)
  {
    && IsNetRun(run, evs, setup) && e in setup.theta && h <= |evs| && i < |evs| && j < |evs|
    && request.tpType == Incomplete && CarriesOffset(final)
    && (if h == 0 then e in setup.endpoints && times.sent == setup.clocks[e] && UnderWay(run[0], e, ToClient(request))
        else SendsPacket(run, evs, h - 1, e, request, times.sent))
    && Answers(run, evs, i, e, request, times.received, times.answered, reply)
    && Returns(run, evs, j, e, reply, times.returned, final)
  }

  lemma FirstRequest(s: System, setup: Setup, e: Endpoint, tp: TPacket)
    requires Starts(s, setup) && e in setup.endpoints && UnderWay(s, e, ToClient(tp))
    ensures tp == Request(setup.clocks[e])
  {
    hide Start;
  }

  /** The stamps are the moments they name, on the clocks of the two ends. */
  lemma StampsAreMoments(run: seq<System>, evs: seq<NetEvent>, setup: Setup, e: Endpoint, times: Times, h: nat, i: nat,
                         j: nat, request: TPacket, reply: TPacket, final: TPacket)
    requires IsExchange(run, evs, setup, e, times, h, i, j, request, reply, final)
    ensures final.fromSent == times.sent && final.fromRecvd == times.returned
    ensures final.toRecvd == times.received + setup.theta[e] && final.toSent == times.answered + setup.theta[e]
    ensures final.offset == Sample(final)
  {
    hide NetInv, Next, CanHappen, Starts, Half, Echo;
    var theta := setup.theta;
    if h == 0 {
      FirstRequest(run[0], setup, e, request);
    } else {
      assert LeadsTo(run[h - 1], evs[h - 1], theta, run[h]);
      RunInv(run, evs, setup, h - 1);
      RequestSent(run[h - 1], evs[h - 1], e, request, theta);
    }
    assert LeadsTo(run[i], evs[i], theta, run[i + 1]);
    var answer := evs[i];
    assert answer == ClientReceives(e, request, times.answered, answer.done, answer.paStart);
    ClientPuts(run[i], e, request, times.answered, answer.done, answer.paStart, theta, ToMaster(reply));
    assert LeadsTo(run[j], evs[j], theta, run[j + 1]);
    RunInv(run, evs, setup, j);
    ReplySends(run[j], e, reply, evs[j].clock, final, theta);
    StampsOf(request, times, theta[e], reply, final);
  }

  lemma StampsOf(request: TPacket, times: Times, theta: int, reply: TPacket, final: TPacket)
    requires request == Request(times.sent)
    requires reply == Echo(request, times.received + theta, times.answered + theta)
    requires var sent := Completed(reply, times.returned); final == sent || final == sent.(tpType := Final)
    ensures final.fromSent == times.sent && final.fromRecvd == times.returned
    ensures final.toRecvd == times.received + theta && final.toSent == times.answered + theta
    ensures final.offset == Sample(final)
  {
    hide Half;
  }

  lemma OffsetOf(tp: TPacket, theta: int, times: Times)
    requires tp.fromSent == times.sent && tp.fromRecvd == times.returned
    requires tp.toRecvd == times.received + theta && tp.toSent == times.answered + theta
    requires tp.offset == Sample(tp)
    ensures var there, back := times.received - times.sent, times.returned - times.answered;
            && Abs(2 * (tp.offset - theta) - (there - back)) <= 1
            && (there == back ==> tp.offset == theta)
  {
  }

  lemma InTheSetup(run: seq<System>, evs: seq<NetEvent>, setup: Setup, e: Endpoint, times: Times, h: nat, i: nat,
                   j: nat, request: TPacket, reply: TPacket, final: TPacket)
    requires IsExchange(run, evs, setup, e, times, h, i, j, request, reply, final)
    ensures e in setup.theta
  {
  }

  /** Whatever the delays: twice the offset's error is the difference of the two delays, to within the one that
      truncation costs; with equal delays there is no error. */
  lemma ExchangeOffset(run: seq<System>, evs: seq<NetEvent>, setup: Setup, e: Endpoint, times: Times, h: nat, i: nat,
                       j: nat, request: TPacket, reply: TPacket, final: TPacket)
    requires IsExchange(run, evs, setup, e, times, h, i, j, request, reply, final)
    ensures var there, back := times.received - times.sent, times.returned - times.answered;
            && Abs(2 * (final.offset - setup.theta[e]) - (there - back)) <= 1
            && (there == back ==> final.offset == setup.theta[e])
  {
    hide IsExchange, Sample, Abs;
    StampsAreMoments(run, evs, setup, e, times, h, i, j, request, reply, final);
    InTheSetup(run, evs, setup, e, times, h, i, j, request, reply, final);
    OffsetOf(final, setup.theta[e], times);
  }

  // ----- Every exchange takes place -----

  /** One endpoint, reached at `sent`, whose clock reads master time plus theta. */
  function SingleSetup(e: Endpoint, sent: int, theta: int, file: seq<int>, buffer: seq<int>): Setup {
    Setup({e}, map[e := sent], file, buffer, map[e := theta])
  }

  function SingleStart(e: Endpoint, sent: int, file: seq<int>, buffer: seq<int>): System {
    System(Start({e}, map[e := sent], file, buffer), map[e := ClientState(0, 0, [])],
           map[e := multiset{ToClient(Request(sent))}], map[e := []], sent)
  }

  lemma SingleStarts(e: Endpoint, sent: int, theta: int, file: seq<int>, buffer: seq<int>)
    requires |buffer| == SAMPLES_PER_PACKET
    ensures Starts(SingleStart(e, sent, file, buffer), SingleSetup(e, sent, theta, file, buffer))
  {
    hide Start;
  }

  lemma SingleMaster(e: Endpoint, sent: int, file: seq<int>, buffer: seq<int>)
    requires |buffer| == SAMPLES_PER_PACKET
    ensures var m := Start({e}, map[e := sent], file, buffer);
            && Inv(m) && m.listening && m.armed && !m.panicked && HasBuffer(m.stream)
            && e in m.connections && m.connections[e] == Connection(1, 0, ResendInitial, SentInitial)
  {
    StartBounded({e}, map[e := sent], file, buffer);
  }

  lemma WaitsUntil(s: System, until: int, theta: Clocks)
    requires KnownTo(s, theta) && s.now <= until
    ensures LeadsTo(s, Wait(until), theta, s.(now := until))
  {
  }

  lemma AnswerTakesPlace(s: System, e: Endpoint, tp: TPacket, answered: int, theta: Clocks) returns (r: System)
    requires KnownTo(s, theta) && e in theta && s.net[e] == multiset{ToClient(tp)} && s.now <= answered
    ensures LeadsTo(s, ClientReceives(e, tp, answered, answered, 0.0), theta, r) && KnownTo(r, theta)
    ensures r.master == s.master && r.now == answered
    ensures r.net[e] == multiset{ToMaster(Echo(tp, s.now + theta[e], answered + theta[e]))}
  {
    hide OnTimesync, Remember, Echo;
    r := Next(s, ClientReceives(e, tp, answered, answered, 0.0), theta);
    assert multiset{ToClient(tp)} - multiset{ToClient(tp)} == multiset{};
  }

  lemma ReturnTakesPlace(s: System, e: Endpoint, reply: TPacket, theta: Clocks) returns (r: System)
    requires KnownTo(s, theta) && e in theta && s.net[e] == multiset{ToMaster(reply)} && s.now > 0
    requires Inv(s.master) && s.master.listening && s.master.armed && !s.master.panicked && HasBuffer(s.master.stream)
    requires e in s.master.connections
    requires s.master.connections[e] == Connection(1, 0, ResendInitial, SentInitial)
    ensures LeadsTo(s, MasterReceives(e, reply, s.now), theta, r)
    ensures KnownTo(r, theta) && r.net[e] == multiset{ToClient(Completed(reply, s.now))}
  {
    hide Inv, Receive, Completed, NewlySent, Moved;
    var final, c := Completed(reply, s.now), s.master.connections[e];
    ReplyToInitial(s.master, e, reply, s.now, s.now);
    SentByMove(s.master, e, AwaitingFinal(c, final), final);
    assert CanHappen(s, MasterReceives(e, reply, s.now), theta);
    r := Next(s, MasterReceives(e, reply, s.now), theta);
    assert multiset{ToMaster(reply)} - multiset{ToMaster(reply)} == multiset{};
  }

  /** The answer's system has the reply on the network, the return's the packet with the offset. */
  predicate Exchanged(s1: System, s2: System, s3: System, s4: System, e: Endpoint, times: Times, reply: TPacket,
                      final: TPacket)
  {
    && s1.now == times.received && s3.now == times.returned
    && e in s1.net && e in s2.net && e in s3.net && e in s4.net
    && s2.net[e][ToMaster(reply)] > s1.net[e][ToMaster(reply)]
    && s4.net[e][ToClient(final)] > s3.net[e][ToClient(final)]
  }

  lemma FourEvents(setup: Setup, e: Endpoint, times: Times, s0: System, s1: System, s2: System, s3: System, s4: System,
                   request: TPacket, reply: TPacket, final: TPacket)
    requires Starts(s0, setup) && e in setup.endpoints && e in setup.theta && e in setup.clocks
    requires setup.clocks[e] == times.sent && UnderWay(s0, e, ToClient(request))
    requires LeadsTo(s0, Wait(times.received), setup.theta, s1)
    requires LeadsTo(s1, ClientReceives(e, request, times.answered, times.answered, 0.0), setup.theta, s2)
    requires LeadsTo(s2, Wait(times.returned), setup.theta, s3)
    requires LeadsTo(s3, MasterReceives(e, reply, times.returned), setup.theta, s4)
    requires Exchanged(s1, s2, s3, s4, e, times, reply, final)
    requires request.tpType == Incomplete && CarriesOffset(final)
    ensures var evs := [Wait(times.received), ClientReceives(e, request, times.answered, times.answered, 0.0),
                        Wait(times.returned), MasterReceives(e, reply, times.returned)];
            IsExchange([s0, s1, s2, s3, s4], evs, setup, e, times, 0, 1, 3, request, reply, final)
  {
    hide Starts, LeadsTo, CarriesOffset;
  }

  /** Whatever the delays there and back and in between, some run has an exchange with them. */
  lemma AnyExchange(e: Endpoint, theta: int, times: Times, file: seq<int>, buffer: seq<int>)
    returns (run: seq<System>, evs: seq<NetEvent>, request: TPacket, reply: TPacket, final: TPacket)
    requires 0 < times.sent <= times.received <= times.answered <= times.returned && |buffer| == SAMPLES_PER_PACKET
    ensures IsExchange(run, evs, SingleSetup(e, times.sent, theta, file, buffer), e, times, 0, 1, 3, request, reply,
                       final)
  {
    hide Starts, LeadsTo, Start, Inv, Echo, Completed, Request, IsExchange;
    var setup := SingleSetup(e, times.sent, theta, file, buffer);
    request := Request(times.sent);
    var s0 := SingleStart(e, times.sent, file, buffer);
    SingleStarts(e, times.sent, theta, file, buffer);
    SingleMaster(e, times.sent, file, buffer);
    WaitsUntil(s0, times.received, setup.theta);
    var s1 := s0.(now := times.received);
    var s2 := AnswerTakesPlace(s1, e, request, times.answered, setup.theta);
    reply := Echo(request, times.received + theta, times.answered + theta);
    WaitsUntil(s2, times.returned, setup.theta);
    var s3 := s2.(now := times.returned);
    var s4 := ReturnTakesPlace(s3, e, reply, setup.theta);
    final := Completed(reply, times.returned);
    CompletedType(reply, times.returned);
    RequestType(times.sent);
    FourEvents(setup, e, times, s0, s1, s2, s3, s4, request, reply, final);
    run, evs := [s0, s1, s2, s3, s4],
                [Wait(times.received), ClientReceives(e, request, times.answered, times.answered, 0.0),
                 Wait(times.returned), MasterReceives(e, reply, times.returned)];
  }

  lemma RequestType(clock: int)
    ensures Request(clock).tpType == Incomplete
  {
  }
}
