/** Master and clients on a network that may lose, duplicate and reorder packets. Each client's clock
    reads master time plus a fixed offset, theta; handlers take their clock readings as they run. */
module SyncNetwork {
  import opened TimePackets
  import opened ClientModel
  import opened MasterModel
  import opened MasterRuns

  datatype Message = ToClient(tp: TPacket) | ToMaster(tp: TPacket)

  type Clocks = map<Endpoint, int>

  /** `heard` is the history of packets with an offset that each client has processed, as received. */
  datatype System = System(
    master: MasterState,
    clients: map<Endpoint, ClientState>,
    net: map<Endpoint, multiset<Message>>,
    heard: map<Endpoint, seq<TPacket>>,
    now: int)

  /** A client stamps its reply at `sent` and takes its last clock reading at `done`; `paStart` is its stream's
      clock. */
  datatype NetEvent =
    | Wait(until: int)
    | Lose(at: Endpoint, message: Message)
    | Duplicate(at: Endpoint, message: Message)
    | ClientReceives(at: Endpoint, tp: TPacket, sent: int, done: int, paStart: real)
    | MasterReceives(from: Endpoint, tp: TPacket, clock: int)
    | MasterTimeout(at: Endpoint, clock: int)
    | MasterCompletion(ok: bool, clock: int)

  predicate KnownTo(s: System, theta: Clocks) {
    s.clients.Keys == s.net.Keys == s.heard.Keys == theta.Keys
  }

  predicate CanHappen(s: System, ev: NetEvent, theta: Clocks) {
    && KnownTo(s, theta)
    && match ev
       case Wait(until) => s.now <= until
       case Lose(e, msg) => e in theta && msg in s.net[e]
       case Duplicate(e, msg) => e in theta && msg in s.net[e]
       case ClientReceives(e, tp, sent, done, paStart) =>
         e in theta && ToClient(tp) in s.net[e] && s.now <= sent <= done && paStart >= 0.0
       case MasterReceives(e, tp, clock) =>
         e in theta && ToMaster(tp) in s.net[e] && s.now <= clock && Enabled(s.master, Received(e, tp, s.now, clock))
       case MasterTimeout(e, clock) => e in theta && s.now <= clock && Enabled(s.master, TimedOut(e, clock))
       case MasterCompletion(ok, clock) => s.now <= clock && Enabled(s.master, SendCompleted(ok, clock))
  }

  /** The time packet a step of the master sent to e, if any. */
  function NewlySent(m: MasterState, r: MasterState, e: Endpoint): multiset<Message> {
    var sent := Sent(r.timeLog, e);
    if |sent| > |Sent(m.timeLog, e)| then multiset{ToClient(sent[|sent| - 1])} else multiset{}
  }

  function MasterMoves(s: System, r: MasterState, e: Endpoint, rest: multiset<Message>, clock: int): System {
    s.(master := r, net := s.net[e := rest + NewlySent(s.master, r, e)], now := clock)
  }

  function ClientMoves(s: System, e: Endpoint, c: ClientState, bag: multiset<Message>, heard: seq<TPacket>,
                       later: int): System {
    s.(clients := s.clients[e := c], net := s.net[e := bag], heard := s.heard[e := heard], now := later)
  }

  function Remember(heard: seq<TPacket>, tp: TPacket): seq<TPacket> {
    if CarriesOffset(tp) then heard + [tp] else heard
  }

  function Next(s: System, ev: NetEvent, theta: Clocks): (r: System)
    requires CanHappen(s, ev, theta)
    ensures KnownTo(r, theta)
  {
    match ev
    case Wait(until) => s.(now := until)
    case Lose(e, msg) => s.(net := s.net[e := s.net[e] - multiset{msg}])
    case Duplicate(e, msg) => s.(net := s.net[e := s.net[e] + multiset{msg}])
    case ClientReceives(e, tp, sent, done, paStart) =>
      var reply := Echo(tp, s.now + theta[e], sent + theta[e]);
      ClientMoves(s, e, OnTimesync(s.clients[e], tp, paStart, done + theta[e]),
                  s.net[e] - multiset{ToClient(tp)} + multiset{ToMaster(reply)}, Remember(s.heard[e], tp), done)
    case MasterReceives(e, tp, clock) =>
      MasterMoves(s, Step(s.master, Received(e, tp, s.now, clock)), e, s.net[e] - multiset{ToMaster(tp)}, clock)
    case MasterTimeout(e, clock) =>
      MasterMoves(s, Step(s.master, TimedOut(e, clock)), e, s.net[e], clock)
    case MasterCompletion(ok, clock) =>
      s.(master := Step(s.master, SendCompleted(ok, clock)), now := clock)
  }

  /** What a run starts from: the endpoints the master was given, its clock reading at each first request,
      the file and the initial content of its buffer, and the offset of every client's clock. */
  datatype Setup = Setup(endpoints: set<Endpoint>, clocks: Clocks, file: seq<int>, buffer: seq<int>, theta: Clocks)

  /** The start: the master has sent its first requests, no client has collected anything. */
  predicate Starts(s: System, setup: Setup) {
    var es, clocks, theta := setup.endpoints, setup.clocks, setup.theta;
    && es != {} && es <= theta.Keys && es <= clocks.Keys && |setup.buffer| == SAMPLES_PER_PACKET
    && KnownTo(s, theta)
    && s.master == Start(es, clocks, setup.file, setup.buffer)
    && (forall e :: e in es ==> clocks[e] <= s.now)
    && forall e :: e in theta ==>
         && s.net[e] == (if e in es then multiset{ToClient(Request(clocks[e]))} else multiset{})
         && s.heard[e] == [] && s.clients[e].samples == []
  }

  predicate LeadsTo(s: System, ev: NetEvent, theta: Clocks, r: System) {
    CanHappen(s, ev, theta) && r == Next(s, ev, theta)
  }

  /** The systems of a run, one before and one after each event. */
  predicate IsNetRun(run: seq<System>, evs: seq<NetEvent>, setup: Setup) {
    && |run| == |evs| + 1
    && Starts(run[0], setup)
    && forall i :: 0 <= i < |evs| ==> LeadsTo(run[i], evs[i], setup.theta, run[i + 1])
  }

  // ----- Stamps keep their causal order -----

  /** A packet on its way to a client: sent in the past, and any offset in it is as good as its own
      stamps say. */
  predicate GoodRequest(tp: TPacket, theta: int, now: int) {
    tp.fromSent <= now && (CarriesOffset(tp) ==> WithinError(tp.offset, theta, Uncertainty(tp)))
  }

  predicate GoodMessage(msg: Message, theta: int, now: int) {
    match msg
    case ToClient(tp) => GoodRequest(tp, theta, now)
    case ToMaster(tp) => Causal(tp, theta, now)
  }

  predicate GoodTimers(m: MasterState, theta: Clocks, now: int) {
    forall e :: e in m.connections && m.connections[e].timer.ResendFinal? ==>
      && e in theta
      && GoodRequest(m.connections[e].timer.tp, theta[e], now)
      && CarriesOffset(m.connections[e].timer.tp)
  }

  predicate GoodNet(net: map<Endpoint, multiset<Message>>, theta: Clocks, now: int) {
    forall e, msg :: e in net && e in theta && msg in net[e] ==> GoodMessage(msg, theta[e], now)
  }

  predicate GoodHistory(heard: map<Endpoint, seq<TPacket>>, theta: Clocks) {
    forall e, i :: e in heard && e in theta && 0 <= i < |heard[e]| ==>
      WithinError(heard[e][i].offset, theta[e], Uncertainty(heard[e][i]))
  }

  function Least(heard: seq<TPacket>): (r: int)
    requires heard != []
    ensures forall i :: 0 <= i < |heard| ==> r <= heard[i].offset
    ensures exists i :: 0 <= i < |heard| && r == heard[i].offset
  {
    var x := heard[|heard| - 1].offset;
    if |heard| == 1 then x
    else
      var r := Least(heard[..|heard| - 1]);
      assert forall i :: 0 <= i < |heard| - 1 ==> heard[i] == heard[..|heard| - 1][i];
      if x < r then x else r
  }

  function Greatest(heard: seq<TPacket>): (r: int)
    requires heard != []
    ensures forall i :: 0 <= i < |heard| ==> heard[i].offset <= r
    ensures exists i :: 0 <= i < |heard| && r == heard[i].offset
  {
    var x := heard[|heard| - 1].offset;
    if |heard| == 1 then x
    else
      var r := Greatest(heard[..|heard| - 1]);
      assert forall i :: 0 <= i < |heard| - 1 ==> heard[i] == heard[..|heard| - 1][i];
      if x > r then x else r
  }

  predicate AllBetween(samples: seq<real>, low: int, high: int) {
    forall i :: 0 <= i < |samples| ==> low as real <= samples[i] <= high as real
  }

  /** A client's samples and, once it has one, its offset lie in the range of the offsets it has heard. */
  predicate InRange(c: ClientState, heard: seq<TPacket>) {
    && (c.samples != [] ==> heard != [])
    && (heard != [] ==>
          && Least(heard) <= c.offset <= Greatest(heard)
          && AllBetween(c.samples, Least(heard), Greatest(heard)))
  }

  predicate ClientsInRange(s: System) {
    forall e :: e in s.clients && e in s.heard ==> InRange(s.clients[e], s.heard[e])
  }

  predicate NetInv(s: System, theta: Clocks) {
    && KnownTo(s, theta)
    && (!s.master.panicked ==> Inv(s.master) && GoodTimers(s.master, theta, s.now))
    && GoodNet(s.net, theta, s.now)
    && GoodHistory(s.heard, theta)
    && ClientsInRange(s)
  }

  lemma LaterIsGood(s: System, theta: Clocks, later: int)
    requires NetInv(s, theta) && s.now <= later
    ensures NetInv(s.(now := later), theta)
  {
    forall e, msg | e in s.net && msg in s.net[e]
      ensures GoodMessage(msg, theta[e], later)
    {
      assert GoodMessage(msg, theta[e], s.now);
    }
  }

  lemma EchoIsCausal(tp: TPacket, theta: int, now: int, sent: int, done: int)
    requires tp.fromSent <= now <= sent <= done
    ensures Causal(Echo(tp, now + theta, sent + theta), theta, done)
  {
  }

  /** Two clocks and a reply, stamped in causal order, make an offset within its own error bound,
      even when the reply answers an older or a duplicated request. */
  lemma CompletedIsGood(tp: TPacket, theta: int, now: int)
    requires Causal(tp, theta, now)
    ensures GoodRequest(Completed(tp, now), theta, now) && CarriesOffset(Completed(tp, now))
  {
    var stamped := tp.(fromRecvd := now, tpType := Complete);
    SampleBound(stamped, theta);
    assert Uncertainty(Completed(tp, now)) == Uncertainty(stamped);
  }

  lemma RangeGrows(heard: seq<TPacket>, tp: TPacket)
    requires heard != []
    ensures Least(heard + [tp]) <= Least(heard) && Greatest(heard) <= Greatest(heard + [tp])
    ensures Least(heard + [tp]) <= tp.offset <= Greatest(heard + [tp])
  {
    assert (heard + [tp])[..|heard|] == heard;
  }

  lemma BetweenGrows(samples: seq<real>, x: int, low: int, high: int, lower: int, higher: int)
    requires AllBetween(samples, low, high) && lower <= low && high <= higher && lower <= x <= higher
    ensures AllBetween(samples + [x as real], lower, higher)
  {
    var more := samples + [x as real];
    forall i | 0 <= i < |more|
      ensures lower as real <= more[i] <= higher as real
    {
      if i < |samples| {
        assert low as real <= samples[i] <= high as real;
      }
    }
  }

  lemma CollectStaysInRange(c: ClientState, heard: seq<TPacket>, tp: TPacket)
    requires InRange(c, heard)
    ensures InRange(Collect(c, tp), Remember(heard, tp))
  {
    if CarriesOffset(tp) {
      hide Least, Greatest, AllBetween;
      if heard != [] {
        RangeGrows(heard, tp);
        BetweenGrows(c.samples, tp.offset, Least(heard), Greatest(heard), Least(heard + [tp]), Greatest(heard + [tp]));
      } else {
        assert heard + [tp] == [tp];
        OneOffset(tp);
        NoneBetween(tp.offset);
        BetweenGrows([], tp.offset, tp.offset, tp.offset, tp.offset, tp.offset);
        assert c.samples + [tp.offset as real] == [] + [tp.offset as real];
      }
    }
  }

  lemma NoneBetween(x: int)
    ensures AllBetween([], x, x)
  {
  }

  lemma OneOffset(tp: TPacket)
    ensures Least([tp]) == Greatest([tp]) == tp.offset
  {
  }

  lemma CleanedStaysInRange(c: ClientState, heard: seq<TPacket>, paOffset: int)
    requires InRange(c, heard) && c.samples != []
    ensures InRange(ClientState(CleanOffset(c.samples), paOffset, []), heard)
  {
    hide CleanOffset, Least, Greatest;
    CleanOffsetBetween(c.samples, Least(heard), Greatest(heard));
  }

  lemma ClientStaysInRange(c: ClientState, heard: seq<TPacket>, tp: TPacket, paStart: real, systemTime: int)
    requires InRange(c, heard)
    ensures InRange(OnTimesync(c, tp, paStart, systemTime), Remember(heard, tp))
  {
    hide InRange, Truncate, CleanOffset, Remember;
    CollectStaysInRange(c, heard, tp);
    if tp.tpType == Final {
      CleanedStaysInRange(Collect(c, tp), Remember(heard, tp), Truncate(paStart * 1000.0) - systemTime);
    }
  }

  /** Replacing what is on the network for e by good messages. */
  lemma NetUpdateGood(s: System, e: Endpoint, bag: multiset<Message>, theta: Clocks)
    requires NetInv(s, theta) && e in theta
    requires forall msg :: msg in bag ==> GoodMessage(msg, theta[e], s.now)
    ensures NetInv(s.(net := s.net[e := bag]), theta)
  {
    hide Inv, InRange, GoodHistory, GoodTimers, GoodMessage;
  }

  lemma ClientUpdateGood(s: System, e: Endpoint, c: ClientState, heard: seq<TPacket>, theta: Clocks)
    requires NetInv(s, theta) && e in theta && InRange(c, heard)
    requires forall i :: 0 <= i < |heard| ==> WithinError(heard[i].offset, theta[e], Uncertainty(heard[i]))
    ensures NetInv(s.(clients := s.clients[e := c], heard := s.heard[e := heard]), theta)
  {
    hide Inv, InRange, GoodNet, GoodTimers, WithinError, Uncertainty;
  }

  lemma HistoryGrows(heard: seq<TPacket>, tp: TPacket, theta: int, now: int)
    requires forall i :: 0 <= i < |heard| ==> WithinError(heard[i].offset, theta, Uncertainty(heard[i]))
    requires GoodRequest(tp, theta, now)
    ensures var h := Remember(heard, tp);
            forall i :: 0 <= i < |h| ==> WithinError(h[i].offset, theta, Uncertainty(h[i]))
  {
  }

  lemma ClientMessages(s: System, e: Endpoint, tp: TPacket, sent: int, done: int, theta: Clocks)
    requires NetInv(s, theta) && e in theta && ToClient(tp) in s.net[e] && s.now <= sent <= done
    ensures GoodRequest(tp, theta[e], s.now)
    ensures var reply := Echo(tp, s.now + theta[e], sent + theta[e]);
            forall msg :: msg in s.net[e] - multiset{ToClient(tp)} + multiset{ToMaster(reply)} ==>
              GoodMessage(msg, theta[e], done)
    ensures forall i :: 0 <= i < |s.heard[e]| ==>
              WithinError(s.heard[e][i].offset, theta[e], Uncertainty(s.heard[e][i]))
    ensures InRange(s.clients[e], s.heard[e])
  {
    hide Inv, InRange, WithinError, Uncertainty;
    assert GoodMessage(ToClient(tp), theta[e], s.now);
    EchoIsCausal(tp, theta[e], s.now, sent, done);
    forall msg | msg in s.net[e]
      ensures GoodMessage(msg, theta[e], done)
    {
      assert GoodMessage(msg, theta[e], s.now);
    }
  }

  lemma ClientMovesGood(s: System, e: Endpoint, c: ClientState, bag: multiset<Message>, heard: seq<TPacket>,
                        later: int, theta: Clocks)
    requires NetInv(s, theta) && e in theta && s.now <= later && InRange(c, heard)
    requires forall msg :: msg in bag ==> GoodMessage(msg, theta[e], later)
    requires forall i :: 0 <= i < |heard| ==> WithinError(heard[i].offset, theta[e], Uncertainty(heard[i]))
    ensures NetInv(ClientMoves(s, e, c, bag, heard, later), theta)
  {
    hide NetInv, InRange, GoodMessage, WithinError, Uncertainty;
    LaterIsGood(s, theta, later);
    NetUpdateGood(s.(now := later), e, bag, theta);
    ClientUpdateGood(s.(now := later, net := s.net[e := bag]), e, c, heard, theta);
  }

  lemma ClientStep(s: System, e: Endpoint, tp: TPacket, sent: int, done: int, paStart: real, theta: Clocks)
    requires NetInv(s, theta) && CanHappen(s, ClientReceives(e, tp, sent, done, paStart), theta)
    ensures NetInv(Next(s, ClientReceives(e, tp, sent, done, paStart), theta), theta)
  {
    hide NetInv, InRange, GoodMessage, OnTimesync, GoodRequest, WithinError, Uncertainty, Remember, ClientMoves, Echo;
    var reply := Echo(tp, s.now + theta[e], sent + theta[e]);
    ClientMessages(s, e, tp, sent, done, theta);
    HistoryGrows(s.heard[e], tp, theta[e], s.now);
    ClientStaysInRange(s.clients[e], s.heard[e], tp, paStart, done + theta[e]);
    ClientMovesGood(s, e, OnTimesync(s.clients[e], tp, paStart, done + theta[e]),
                    s.net[e] - multiset{ToClient(tp)} + multiset{ToMaster(reply)}, Remember(s.heard[e], tp), done,
                    theta);
  }

  /** A step of the master sends at most the one packet it is recorded to have sent. */
  lemma SentByMove(m: MasterState, e: Endpoint, c: Connection, tp: TPacket)
    ensures NewlySent(m, Moved(m, e, c, tp), e) == multiset{ToClient(tp)}
  {
  }

  lemma MasterMovesGood(s: System, r: MasterState, e: Endpoint, rest: multiset<Message>, clock: int, theta: Clocks)
    requires NetInv(s, theta) && e in theta && s.now <= clock && rest <= s.net[e]
    requires !r.panicked ==> Inv(r) && GoodTimers(r, theta, clock)
    requires forall msg :: msg in NewlySent(s.master, r, e) ==> GoodMessage(msg, theta[e], clock)
    ensures NetInv(MasterMoves(s, r, e, rest, clock), theta)
  {
    hide Inv, InRange, NewlySent;
    LaterIsGood(s, theta, clock);
    var net := s.net[e := rest + NewlySent(s.master, r, e)];
    forall f, msg | f in net && f in theta && msg in net[f]
      ensures GoodMessage(msg, theta[f], clock)
    {
      if f != e || msg !in NewlySent(s.master, r, e) {
        assert msg in s.net[f];
      }
    }
  }

  /** Connection e moves, sending tp and perhaps keeping it for its timer. */
  lemma MoveGood(s: System, e: Endpoint, c: Connection, tp: TPacket, rest: multiset<Message>, clock: int, theta: Clocks)
    requires NetInv(s, theta) && !s.master.panicked && e in theta && s.now <= clock && rest <= s.net[e]
    requires Inv(Moved(s.master, e, c, tp))
    requires GoodRequest(tp, theta[e], clock) && (c.timer.ResendFinal? ==> c.timer.tp == tp && CarriesOffset(tp))
    ensures NetInv(MasterMoves(s, Moved(s.master, e, c, tp), e, rest, clock), theta)
  {
    hide Inv, InRange, NewlySent;
    SentByMove(s.master, e, c, tp);
    LaterIsGood(s, theta, clock);
    MasterMovesGood(s, Moved(s.master, e, c, tp), e, rest, clock, theta);
  }

  /** A step that sends nothing and arms nothing. */
  lemma QuietGood(s: System, r: MasterState, e: Endpoint, rest: multiset<Message>, clock: int, theta: Clocks)
    requires NetInv(s, theta) && !s.master.panicked && e in theta && s.now <= clock && rest <= s.net[e]
    requires r.panicked || Inv(r)
    requires r.timeLog == s.master.timeLog
    requires forall f :: f in r.connections ==>
               r.connections[f].timer == NoTimer
               || (f in s.master.connections && r.connections[f].timer == s.master.connections[f].timer)
    ensures NetInv(MasterMoves(s, r, e, rest, clock), theta)
  {
    hide Inv, InRange;
    LaterIsGood(s, theta, clock);
    MasterMovesGood(s, r, e, rest, clock, theta);
  }

  lemma SettledTimers(m: MasterState, r: MasterState, e: Endpoint, clock: int)
    requires Inv(m) && Inv(r) && e in m.connections && Settled(m, r, e, clock)
    ensures forall f :: f in r.connections ==>
              r.connections[f].timer == NoTimer
              || (f in m.connections && r.connections[f].timer == m.connections[f].timer)
  {
    forall f | f in r.connections
      ensures r.connections[f].timer == NoTimer
              || (f in m.connections && r.connections[f].timer == m.connections[f].timer)
    {
      assert ConnectionInv(r.connections[f]);
    }
  }

  lemma MasterReceivesStep(s: System, e: Endpoint, tp: TPacket, clock: int, theta: Clocks)
    requires NetInv(s, theta) && CanHappen(s, MasterReceives(e, tp, clock), theta)
    ensures NetInv(Next(s, MasterReceives(e, tp, clock), theta), theta)
  {
    hide Inv, InRange, Receive, Moved, Settled, MasterMoves, Closer;
    var m, r := s.master, Receive(s.master, e, tp, s.now, clock);
    var rest := s.net[e] - multiset{ToMaster(tp)};
    assert GoodMessage(ToMaster(tp), theta[e], s.now);
    if e in m.connections && Syncing(m.connections[e]) {
      var c := m.connections[e];
      if c.state == SentInitial {
        ReplyToInitial(m, e, tp, s.now, clock);
        CompletedIsGood(tp, theta[e], s.now);
        var final := FinalFor(c, tp, s.now);
        MoveGood(s, e, AwaitingFinal(c, final), final, rest, clock, theta);
      } else if c.syncRounds + 1 < NTP_ROUNDS {
        ReplyToFinal(m, e, tp, s.now, clock);
        MoveGood(s, e, NextRound(c), Request(clock), rest, clock, theta);
      } else {
        SyncingRounds(m, e);
        ReplyToLastFinal(m, e, tp, s.now, clock);
        SettledTimers(m, r, e, clock);
        SettledLog(m, r, e, clock);
        QuietGood(s, r, e, rest, clock, theta);
      }
    } else {
      OtherIsQuiet(m, e, tp, s.now, clock);
      QuietGood(s, r, e, rest, clock, theta);
    }
  }

  lemma SyncingRounds(m: MasterState, e: Endpoint)
    requires Inv(m) && e in m.connections && Syncing(m.connections[e])
    ensures 0 <= m.connections[e].syncRounds < NTP_ROUNDS
  {
  }

  lemma SettledLog(m: MasterState, r: MasterState, e: Endpoint, clock: int)
    requires HasBuffer(m.stream) && e in m.connections && Settled(m, r, e, clock)
    ensures r.timeLog == m.timeLog
  {
  }

  /** A packet from a stranger or from a connection that does not expect one sends nothing. */
  lemma OtherIsQuiet(m: MasterState, e: Endpoint, tp: TPacket, fromRecvd: int, clock: int)
    requires Inv(m) && !(e in m.connections && Syncing(m.connections[e]))
    ensures var r := Receive(m, e, tp, fromRecvd, clock);
            && (r.panicked || Inv(r))
            && r.timeLog == m.timeLog
            && forall f :: f in r.connections ==>
                 r.connections[f].timer == NoTimer
                 || (f in m.connections && r.connections[f].timer == m.connections[f].timer)
  {
    ReceiveOther(m, e, tp, fromRecvd, clock);
  }

  lemma MasterTimeoutStep(s: System, e: Endpoint, clock: int, theta: Clocks)
    requires NetInv(s, theta) && CanHappen(s, MasterTimeout(e, clock), theta)
    ensures NetInv(Next(s, MasterTimeout(e, clock), theta), theta)
  {
    hide Inv, InRange, Timeout, Moved, Settled, MasterMoves, Closer;
    var m, r, c := s.master, Timeout(s.master, e, clock), s.master.connections[e];
    TimeoutStep(m, e, clock);
    if c.attempts > 2 {
      SettledTimers(m, r, e, clock);
      SettledLog(m, r, e, clock);
      QuietGood(s, r, e, s.net[e], clock, theta);
    } else {
      LaterIsGood(s, theta, clock);
      MoveGood(s, e, Retried(c), Resend(c, clock), s.net[e], clock, theta);
    }
  }

  lemma NextInv(s: System, ev: NetEvent, theta: Clocks)
    requires NetInv(s, theta) && CanHappen(s, ev, theta)
    ensures NetInv(Next(s, ev, theta), theta)
  {
    hide NetInv, Next, Step, Inv;
    match ev
    case Wait(until) => WaitStep(s, until, theta);
    case Lose(e, msg) => LoseStep(s, e, msg, theta);
    case Duplicate(e, msg) => DuplicateStep(s, e, msg, theta);
    case ClientReceives(e, tp, sent, done, paStart) =>
      ClientStep(s, e, tp, sent, done, paStart, theta);
    case MasterReceives(e, tp, clock) => MasterReceivesStep(s, e, tp, clock, theta);
    case MasterTimeout(e, clock) => MasterTimeoutStep(s, e, clock, theta);
    case MasterCompletion(ok, clock) => MasterCompletionStep(s, ok, clock, theta);
  }

  lemma WaitStep(s: System, until: int, theta: Clocks)
    requires NetInv(s, theta) && CanHappen(s, Wait(until), theta)
    ensures NetInv(Next(s, Wait(until), theta), theta)
  {
    hide NetInv;
    LaterIsGood(s, theta, until);
  }

  lemma LoseStep(s: System, e: Endpoint, msg: Message, theta: Clocks)
    requires NetInv(s, theta) && CanHappen(s, Lose(e, msg), theta)
    ensures NetInv(Next(s, Lose(e, msg), theta), theta)
  {
    hide Inv, InRange, GoodMessage, GoodTimers, GoodHistory;
    NetUpdateGood(s, e, s.net[e] - multiset{msg}, theta);
  }

  lemma DuplicateStep(s: System, e: Endpoint, msg: Message, theta: Clocks)
    requires NetInv(s, theta) && CanHappen(s, Duplicate(e, msg), theta)
    ensures NetInv(Next(s, Duplicate(e, msg), theta), theta)
  {
    hide Inv, InRange, GoodMessage, GoodTimers, GoodHistory;
    NetUpdateGood(s, e, s.net[e] + multiset{msg}, theta);
  }

  lemma MasterCompletionStep(s: System, ok: bool, clock: int, theta: Clocks)
    requires NetInv(s, theta) && CanHappen(s, MasterCompletion(ok, clock), theta)
    ensures NetInv(Next(s, MasterCompletion(ok, clock), theta), theta)
  {
    hide InRange, GoodMessage, Completion;
    LaterIsGood(s, theta, clock);
    StepSafe(s.master, SendCompleted(ok, clock));
  }

  lemma {:induction false} RunInv(run: seq<System>, evs: seq<NetEvent>, setup: Setup, n: nat)
    requires IsNetRun(run, evs, setup) && n <= |evs|
    ensures n < |run| && NetInv(run[n], setup.theta)
  {
    hide NetInv, Next, Starts;
    if n == 0 {
      StartsInv(run[0], setup);
    } else {
      assert LeadsTo(run[n - 1], evs[n - 1], setup.theta, run[n]);
      RunInv(run, evs, setup, n - 1);
      NextInv(run[n - 1], evs[n - 1], setup.theta);
    }
  }

  lemma FirstMessages(s: System, setup: Setup)
    requires Starts(s, setup)
    ensures GoodNet(s.net, setup.theta, s.now) && GoodHistory(s.heard, setup.theta) && ClientsInRange(s)
  {
    hide Start, Least, Greatest, WithinError, Uncertainty;
    forall e, msg | e in s.net && e in setup.theta && msg in s.net[e]
      ensures GoodMessage(msg, setup.theta[e], s.now)
    {
      assert e in setup.endpoints && msg == ToClient(Request(setup.clocks[e]));
    }
  }

  lemma StartsInv(s: System, setup: Setup)
    requires Starts(s, setup)
    ensures NetInv(s, setup.theta)
  {
    StartBounded(setup.endpoints, setup.clocks, setup.file, setup.buffer);
    FirstTimers(setup.endpoints, setup.clocks, setup.file, setup.buffer);
    FirstMessages(s, setup);
    hide Start, Inv, GoodNet, GoodHistory, ClientsInRange;
  }

  lemma FirstTimers(es: set<Endpoint>, clocks: Clocks, file: seq<int>, buffer: seq<int>)
    requires es <= clocks.Keys
    ensures var m := Start(es, clocks, file, buffer);
            forall e :: e in m.connections ==> m.connections[e].timer == ResendInitial
  {
  }

  // ----- What a step does to the clients -----

  lemma OnlyReceivingSets(s: System, ev: NetEvent, theta: Clocks)
    requires CanHappen(s, ev, theta) && !ev.ClientReceives?
    ensures var r := Next(s, ev, theta); r.clients == s.clients && r.heard == s.heard && s.now <= r.now
  {
    hide Step, Enabled, NewlySent;
  }

  lemma ReceivingSets(s: System, ev: NetEvent, theta: Clocks, e: Endpoint)
    requires CanHappen(s, ev, theta) && ev.ClientReceives? && e in theta
    ensures var r := Next(s, ev, theta);
            && r.now == ev.done >= s.now && ev.paStart >= 0.0
            && r.clients[e] == (if e == ev.at then OnTimesync(s.clients[e], ev.tp, ev.paStart, ev.done + theta[e])
                                else s.clients[e])
            && r.heard[e] == if e == ev.at then Remember(s.heard[e], ev.tp) else s.heard[e]
  {
    hide OnTimesync, Echo, Remember;
  }

  // ----- What a listener can rely on -----

  /** All offsets a client has heard are as good as `bound`. */
  predicate Accuracy(heard: seq<TPacket>, bound: int) {
    forall i :: 0 <= i < |heard| ==> Uncertainty(heard[i]) <= bound
  }

  /** In every run, on any network: an offset the master sends is within half its packet's round trip of
      the true one; from its first such packet on a client's offset is within the worst of those it has
      heard, averaging, outlier removal and both truncations included. */
  lemma OffsetAccuracy(run: seq<System>, evs: seq<NetEvent>, setup: Setup, n: nat, e: Endpoint, bound: int)
    requires IsNetRun(run, evs, setup) && n <= |evs| && HasHeard(run[n], e, bound) && e in setup.theta
    ensures WithinError(run[n].clients[e].offset, setup.theta[e], bound)
  {
    RunInv(run, evs, setup, n);
    hide NetInv, IsNetRun, HasHeard;
    HeardAccurately(run[n], setup.theta, e, bound);
  }

  /** e has heard an offset, and each it has heard is as good as `bound`. */
  predicate HasHeard(s: System, e: Endpoint, bound: int) {
    e in s.clients && e in s.heard && s.heard[e] != [] && Accuracy(s.heard[e], bound)
  }

  lemma HeardAccurately(s: System, theta: Clocks, e: Endpoint, bound: int)
    requires NetInv(s, theta) && e in theta && HasHeard(s, e, bound)
    ensures WithinError(s.clients[e].offset, theta[e], bound)
  {
    hide Inv, GoodNet, GoodTimers;
    var heard := s.heard[e];
    assert InRange(s.clients[e], heard);
    var i :| 0 <= i < |heard| && Least(heard) == heard[i].offset;
    var j :| 0 <= j < |heard| && Greatest(heard) == heard[j].offset;
  }

  predicate UnderWay(s: System, e: Endpoint, msg: Message) {
    e in s.net && msg in s.net[e]
  }

  /** Every packet on its way to a client carries an offset as good as its stamps. */
  lemma EverySampleIsGood(run: seq<System>, evs: seq<NetEvent>, setup: Setup, n: nat, e: Endpoint, tp: TPacket)
    requires IsNetRun(run, evs, setup) && n <= |evs| && e in setup.theta
    requires UnderWay(run[n], e, ToClient(tp)) && CarriesOffset(tp)
    ensures WithinError(tp.offset, setup.theta[e], Uncertainty(tp))
  {
    RunInv(run, evs, setup, n);
    hide IsNetRun, Inv, WithinError, Uncertainty;
    assert GoodMessage(ToClient(tp), setup.theta[e], run[n].now);
  }

  /** Two clients that have heard offsets turn one master stamp into instants that are, in true time,
      no further apart than their two worst error bounds together. */
  lemma ClientsPlayTogether(run: seq<System>, evs: seq<NetEvent>, setup: Setup, n: nat,
                            e1: Endpoint, e2: Endpoint, b1: int, b2: int, stamp: int)
    requires IsNetRun(run, evs, setup) && n <= |evs| && e1 in setup.theta && e2 in setup.theta
    requires HasHeard(run[n], e1, b1) && HasHeard(run[n], e2, b2)
    ensures var c, theta := run[n].clients, setup.theta;
            2 * Abs((stamp + c[e1].offset - theta[e1]) - (stamp + c[e2].offset - theta[e2])) <= b1 + b2
  {
    hide LeadsTo, Starts, Accuracy, WithinError;
    OffsetAccuracy(run, evs, setup, n, e1, b1);
    OffsetAccuracy(run, evs, setup, n, e2, b2);
    var c, theta := run[n].clients, setup.theta;
    TwoClientsAgree(stamp, c[e1].offset, theta[e1], b1, c[e2].offset, theta[e2], b2);
  }
}
