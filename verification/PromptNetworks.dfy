/** Networks on which every request is answered within the second its timer waits. */
module PromptNetworks {
  import opened TimePackets
  import opened ClientModel
  import opened MasterModel
  import opened MasterRuns
  import opened SyncNetwork
  import opened Timers
  import opened LockStep

  /** No message is under way once the timer of its connection is due. */
  predicate QuickAt(s: System, evs: seq<NetEvent>, setup: Setup) {
    forall e :: e in s.net && s.net[e] != multiset{} ==> s.now < Due(evs, e, setup)
  }

  predicate IsPromptRun(run: seq<System>, evs: seq<NetEvent>, setup: Setup) {
    && IsNetRun(run, evs, setup) && NeverEarly(run, evs, setup)
    && (forall k :: 0 <= k <= |evs| ==> QuickAt(run[k], evs[..k], setup))
    && forall k :: 0 <= k < |evs| ==> !evs[k].Duplicate?
  }

  predicate NothingLost(evs: seq<NetEvent>) {
    forall k :: 0 <= k < |evs| ==> !evs[k].Lose?
  }

  /** On such a network a timer that fires has nothing to wait for any more: the run is a lock-step run. */
  lemma PromptIsLockStep(run: seq<System>, evs: seq<NetEvent>, setup: Setup)
    requires IsPromptRun(run, evs, setup)
    ensures IsLockStepRun(run, evs, setup)
  {
    forall k | 0 <= k < |evs|
      ensures StaysInStep(run[k], evs[k], setup.theta)
    {
      assert LeadsTo(run[k], evs[k], setup.theta, run[k + 1]);
      assert NotEarly(run, evs, setup, k) && QuickAt(run[k], evs[..k], setup);
      hide Next, Due, Enabled;
    }
  }

  // ----- Without loss nobody is given up -----

  predicate DeliversTo(ev: NetEvent, e: Endpoint) {
    (ev.ClientReceives? && ev.at == e) || (ev.MasterReceives? && ev.from == e)
  }

  /** Messages delivered so far between the master and e, in both directions. */
  function Deliveries(evs: seq<NetEvent>, e: Endpoint): nat {
    if evs == [] then 0
    else Deliveries(evs[..|evs| - 1], e) + if DeliversTo(evs[|evs| - 1], e) then 1 else 0
  }

  lemma OneMoreDelivery(evs: seq<NetEvent>, ev: NetEvent, e: Endpoint)
    ensures Deliveries(evs + [ev], e) == Deliveries(evs, e) + if DeliversTo(ev, e) then 1 else 0
  {
    assert (evs + [ev])[..|evs|] == evs;
  }

  /** The two ends of a connection that has never timed out. */
  predicate Exact(c: Connection, bag: multiset<Message>, samples: nat, finished: bool, deliveries: nat) {
    if Syncing(c) then
      && bag != multiset{} && c.attempts == 1
      && deliveries == 2 * Phase(c) + (if Replied(bag) then 1 else 0)
      && (!finished ==> samples == c.syncRounds + if c.state == SentFinal && Replied(bag) then 1 else 0)
    else deliveries == 4 * NTP_ROUNDS
  }

  predicate ExactAt(s: System, e: Endpoint, deliveries: nat)
    requires e in s.master.connections && e in s.net && e in s.clients && e in s.heard
  {
    Exact(s.master.connections[e], s.net[e], |s.clients[e].samples|, HeardFinal(s.heard[e]), deliveries)
  }

  predicate AllExact(s: System, evs: seq<NetEvent>, setup: Setup) {
    && s.master.connections.Keys == setup.endpoints && KnownTo(s, setup.theta) && setup.endpoints <= setup.theta.Keys
    && forall e :: e in setup.endpoints ==> ExactAt(s, e, Deliveries(evs, e))
  }

  lemma ExactAnswered(c: Connection, bag: multiset<Message>, samples: nat, finished: bool, deliveries: nat,
                      tp: TPacket, reply: TPacket)
    requires ConnectionInv(c) && Link(c, bag, samples, finished) && Exact(c, bag, samples, finished, deliveries)
    requires ToClient(tp) in bag && reply.tpType == tp.tpType
    ensures Exact(c, bag - multiset{ToClient(tp)} + multiset{ToMaster(reply)},
                  if tp.tpType == Final then 0 else if tp.tpType == Complete then samples + 1 else samples,
                  finished || tp.tpType == Final, deliveries + 1)
  {
    LiveMeansSyncing(c, bag, samples, finished, ToClient(tp));
    OneMessage(bag, ToClient(tp), tp.tpType);
    Singleton(ToMaster(reply));
    assert bag - multiset{ToClient(tp)} + multiset{ToMaster(reply)} == multiset{ToMaster(reply)};
  }

  lemma ExactAdvances(c: Connection, bag: multiset<Message>, samples: nat, finished: bool, deliveries: nat,
                      tp: TPacket, d: Connection, sent: TPacket)
    requires ConnectionInv(c) && Link(c, bag, samples, finished) && Exact(c, bag, samples, finished, deliveries)
    requires ToMaster(tp) in bag && Phase(c) < 2 * NTP_ROUNDS - 1
    requires d == if c.state == SentInitial then AwaitingFinal(c, sent) else NextRound(c)
    ensures Exact(d, multiset{ToClient(sent)}, samples, finished, deliveries + 1)
  {
    LiveMeansSyncing(c, bag, samples, finished, ToMaster(tp));
    OneMessage(bag, ToMaster(tp), tp.tpType);
    Singleton(ToClient(sent));
    assert ToClient(sent) in multiset{ToClient(sent)};
  }

  lemma ExactLast(c: Connection, bag: multiset<Message>, samples: nat, finished: bool, deliveries: nat, tp: TPacket,
                  d: Connection)
    requires ConnectionInv(c) && Link(c, bag, samples, finished) && Exact(c, bag, samples, finished, deliveries)
    requires ToMaster(tp) in bag && Phase(c) == 2 * NTP_ROUNDS - 1 && !Syncing(d)
    ensures Exact(d, multiset{}, samples, finished, deliveries + 1)
  {
    LiveMeansSyncing(c, bag, samples, finished, ToMaster(tp));
    OneMessage(bag, ToMaster(tp), tp.tpType);
  }

  /** What e sees of a step that concerns another: at most its release. */
  predicate SeesNothing(s: System, r: System, e: Endpoint) {
    && e in s.master.connections && e in s.net && e in s.clients && e in s.heard
    && e in r.master.connections && e in r.net && e in r.clients && e in r.heard
    && r.net[e] == s.net[e] && r.clients[e] == s.clients[e] && r.heard[e] == s.heard[e]
    && (r.master.connections[e] == s.master.connections[e]
        || (!Syncing(s.master.connections[e]) && !Syncing(r.master.connections[e])))
  }

  lemma ExactElsewhere(s: System, r: System, e: Endpoint, deliveries: nat)
    requires SeesNothing(s, r, e) && ExactAt(s, e, deliveries)
    ensures ExactAt(r, e, deliveries)
  {
    hide HeardFinal, Replied, Phase;
  }

  lemma ExactHolds(s: System, e: Endpoint, c: ClientState, bag: multiset<Message>, heard: seq<TPacket>, later: int,
                   deliveries: nat)
    requires e in s.net && e in s.clients && e in s.heard && e in s.master.connections
    requires Exact(s.master.connections[e], bag, |c.samples|, HeardFinal(heard), deliveries)
    ensures ExactAt(ClientMoves(s, e, c, bag, heard, later), e, deliveries)
  {
    hide Exact, HeardFinal;
  }

  /** The client's answer, seen from its link. */
  lemma AnswerExact(s: System, e: Endpoint, tp: TPacket, reply: TPacket, paStart: real, systemTime: int, theta: Clocks,
                    deliveries: nat)
    requires LockInv(s, theta) && e in theta && ToClient(tp) in s.net[e] && reply.tpType == tp.tpType
    requires e in s.master.connections && ExactAt(s, e, deliveries)
    ensures Exact(s.master.connections[e], s.net[e] - multiset{ToClient(tp)} + multiset{ToMaster(reply)},
                  |OnTimesync(s.clients[e], tp, paStart, systemTime).samples|, HeardFinal(Remember(s.heard[e], tp)),
                  deliveries + 1)
  {
    hide LockInv, ConnectionInv, Exact, Link, HeardFinal, OnTimesync, Remember, Syncing;
    LockInvMaster(s, theta);
    LiveConnection(s, e, ToClient(tp), theta);
    SamplesAfter(s.clients[e], tp, paStart, systemTime, s.heard[e]);
    ExactAnswered(s.master.connections[e], s.net[e], |s.clients[e].samples|, HeardFinal(s.heard[e]), deliveries, tp,
                  reply);
  }

  lemma ClientEffect(s: System, e: Endpoint, tp: TPacket, sent: int, done: int, paStart: real, theta: Clocks)
    requires CanHappen(s, ClientReceives(e, tp, sent, done, paStart), theta)
    ensures KnownTo(s, theta) && e in theta && ToClient(tp) in s.net[e]
    ensures var reply := Echo(tp, s.now + theta[e], sent + theta[e]);
            Next(s, ClientReceives(e, tp, sent, done, paStart), theta) ==
            ClientMoves(s, e, OnTimesync(s.clients[e], tp, paStart, done + theta[e]),
                        s.net[e] - multiset{ToClient(tp)} + multiset{ToMaster(reply)}, Remember(s.heard[e], tp), done)
  {
    hide ClientMoves, OnTimesync, Echo, Remember;
  }

  lemma ClientMovesOne(s: System, e: Endpoint, c: ClientState, bag: multiset<Message>, heard: seq<TPacket>,
                       later: int, f: Endpoint, theta: Clocks)
    requires KnownTo(s, theta) && e in theta && f in theta && f in s.master.connections && f != e
    ensures SeesNothing(s, ClientMoves(s, e, c, bag, heard, later), f)
  {
    hide Syncing;
  }

  lemma SameMaster(s: System, e: Endpoint, c: ClientState, bag: multiset<Message>, heard: seq<TPacket>, later: int)
    ensures ClientMoves(s, e, c, bag, heard, later).master == s.master
  {
  }

  lemma ClientStepExact(s: System, e: Endpoint, tp: TPacket, sent: int, done: int, paStart: real, setup: Setup,
                        deliveries: nat)
    requires LockInv(s, setup.theta) && CanHappen(s, ClientReceives(e, tp, sent, done, paStart), setup.theta)
    requires e in s.master.connections && ExactAt(s, e, deliveries)
    ensures var r := Next(s, ClientReceives(e, tp, sent, done, paStart), setup.theta);
            && KnownTo(r, setup.theta) && r.master == s.master && ExactAt(r, e, deliveries + 1)
            && forall f :: f in s.master.connections && f in setup.theta && f != e ==> SeesNothing(s, r, f)
  {
    hide LockInv, SeesNothing, Next, CanHappen, Exact, ExactAt, HeardFinal, OnTimesync, Remember, Echo, ClientMoves;
    ClientEffect(s, e, tp, sent, done, paStart, setup.theta);
    var reply := Echo(tp, s.now + setup.theta[e], sent + setup.theta[e]);
    var bag := s.net[e] - multiset{ToClient(tp)} + multiset{ToMaster(reply)};
    var c, heard := OnTimesync(s.clients[e], tp, paStart, done + setup.theta[e]), Remember(s.heard[e], tp);
    EchoKeepsType(tp, s.now + setup.theta[e], sent + setup.theta[e]);
    AnswerExact(s, e, tp, reply, paStart, done + setup.theta[e], setup.theta, deliveries);
    ExactHolds(s, e, c, bag, heard, done, deliveries + 1);
    StillKnown(s, e, c, bag, heard, done, setup.theta);
    forall f | f in s.master.connections && f in setup.theta && f != e
      ensures SeesNothing(s, ClientMoves(s, e, c, bag, heard, done), f)
    {
      ClientMovesOne(s, e, c, bag, heard, done, f, setup.theta);
    }
    SameMaster(s, e, c, bag, heard, done);
  }

  lemma MovedExact(s: System, e: Endpoint, c: Connection, tp: TPacket, clock: int, deliveries: nat)
    requires e in s.net && e in s.clients && e in s.heard && e in s.master.connections
    requires Exact(c, multiset{ToClient(tp)}, |s.clients[e].samples|, HeardFinal(s.heard[e]), deliveries)
    ensures ExactAt(MasterMoves(s, Moved(s.master, e, c, tp), e, multiset{}, clock), e, deliveries)
  {
    SentByMove(s.master, e, c, tp);
    hide Exact, HeardFinal, NewlySent;
    assert multiset{} + multiset{ToClient(tp)} == multiset{ToClient(tp)};
  }

  lemma LastExact(s: System, r: MasterState, e: Endpoint, clock: int, deliveries: nat)
    requires e in s.net && e in s.clients && e in s.heard && e in r.connections && r.timeLog == s.master.timeLog
    requires Exact(r.connections[e], multiset{}, |s.clients[e].samples|, HeardFinal(s.heard[e]), deliveries)
    ensures ExactAt(MasterMoves(s, r, e, multiset{}, clock), e, deliveries)
  {
    NothingSent(s.master, r, e);
    hide Exact, HeardFinal, NewlySent;
  }

  lemma MasterEffect(s: System, e: Endpoint, tp: TPacket, clock: int, theta: Clocks)
    requires CanHappen(s, MasterReceives(e, tp, clock), theta)
    ensures KnownTo(s, theta) && e in theta && ToMaster(tp) in s.net[e] && HasBuffer(s.master.stream)
    ensures Next(s, MasterReceives(e, tp, clock), theta) ==
            MasterMoves(s, Receive(s.master, e, tp, s.now, clock), e, s.net[e] - multiset{ToMaster(tp)}, clock)
  {
    hide MasterMoves, Receive;
  }

  /** A reply: its connection moves on, the others are as before, or the barrier released them. */
  lemma MasterStepExact(s: System, e: Endpoint, tp: TPacket, clock: int, setup: Setup, deliveries: nat)
    requires LockInv(s, setup.theta) && CanHappen(s, MasterReceives(e, tp, clock), setup.theta)
    requires e in s.master.connections && ExactAt(s, e, deliveries)
    ensures var r := Next(s, MasterReceives(e, tp, clock), setup.theta);
            && e in r.master.connections && ExactAt(r, e, deliveries + 1)
            && r.master.connections.Keys == s.master.connections.Keys
            && forall f :: f in s.master.connections && f != e ==>
                 r.master.connections[f] == s.master.connections[f]
                 || (!Syncing(s.master.connections[f]) && !Syncing(r.master.connections[f]))
  {
    hide CanHappen, Next, KnownTo, LockInv, Inv, ConnectionInv, Exact, Link, HeardFinal, Receive, Moved, Settled;
    hide MasterMoves, Closer, NewlySent;
    LockInvMaster(s, setup.theta);
    MasterEffect(s, e, tp, clock, setup.theta);
    LiveConnection(s, e, ToMaster(tp), setup.theta);
    var m, r, c := s.master, Receive(s.master, e, tp, s.now, clock), s.master.connections[e];
    var samples, finished := |s.clients[e].samples|, HeardFinal(s.heard[e]);
    LinkAdvances(c, s.net[e], samples, finished, tp, s.now);
    SyncingRounds(m, e);
    if c.state == SentInitial {
      var final := FinalFor(c, tp, s.now);
      ReplyToInitial(m, e, tp, s.now, clock);
      ExactAdvances(c, s.net[e], samples, finished, deliveries, tp, AwaitingFinal(c, final), final);
      MovedExact(s, e, AwaitingFinal(c, final), final, clock, deliveries + 1);
      MovedOnly(s, e, AwaitingFinal(c, final), final, clock);
    } else if c.syncRounds + 1 < NTP_ROUNDS {
      ReplyToFinal(m, e, tp, s.now, clock);
      ExactAdvances(c, s.net[e], samples, finished, deliveries, tp, NextRound(c), Request(clock));
      MovedExact(s, e, NextRound(c), Request(clock), clock, deliveries + 1);
      MovedOnly(s, e, NextRound(c), Request(clock), clock);
    } else {
      ReplyToLastFinal(m, e, tp, s.now, clock);
      SettledNotSyncing(m, r, e, clock);
      SettledOthers(m, r, e, clock);
      ExactLast(c, s.net[e], samples, finished, deliveries, tp, r.connections[e]);
      LastExact(s, r, e, clock, deliveries + 1);
      OnlyReleased(s, r, e, clock);
    }
  }

  lemma SettledNotSyncing(m: MasterState, r: MasterState, e: Endpoint, clock: int)
    requires HasBuffer(m.stream) && e in m.connections && Settled(m, r, e, clock)
    ensures e in r.connections ==> !Syncing(r.connections[e])
  {
  }

  lemma MovedOnly(s: System, e: Endpoint, c: Connection, tp: TPacket, clock: int)
    requires e in s.net && e in s.master.connections
    ensures var r := MasterMoves(s, Moved(s.master, e, c, tp), e, multiset{}, clock);
            && r.master.connections.Keys == s.master.connections.Keys
            && forall f :: f in s.master.connections && f != e ==>
                 r.master.connections[f] == s.master.connections[f]
  {
    hide NewlySent;
  }

  lemma OnlyReleased(s: System, r: MasterState, e: Endpoint, clock: int)
    requires e in s.net
    ensures MasterMoves(s, r, e, multiset{}, clock).master == r
  {
    hide NewlySent;
  }

  // ----- Every step -----

  lemma StillExact(s: System, r: System, evs: seq<NetEvent>, ev: NetEvent, setup: Setup)
    requires AllExact(s, evs, setup) && KnownTo(r, setup.theta)
    requires r.master.connections == s.master.connections
    requires r.net == s.net && r.clients == s.clients && r.heard == s.heard
    requires forall e :: !DeliversTo(ev, e)
    ensures AllExact(r, evs + [ev], setup)
  {
    hide Exact, HeardFinal, Deliveries;
    forall e | e in setup.endpoints
      ensures ExactAt(r, e, Deliveries(evs + [ev], e))
    {
      OneMoreDelivery(evs, ev, e);
      assert ExactAt(s, e, Deliveries(evs, e));
    }
  }

  /** A delivery on e's link; the others are as before, or the barrier released them. */
  lemma DeliveryKeepsExact(s: System, r: System, evs: seq<NetEvent>, ev: NetEvent, e: Endpoint, setup: Setup)
    requires AllExact(s, evs, setup) && KnownTo(r, setup.theta) && e in setup.endpoints
    requires forall f :: DeliversTo(ev, f) <==> f == e
    requires r.master.connections.Keys == s.master.connections.Keys
    requires ExactAt(r, e, Deliveries(evs, e) + 1)
    requires forall f :: f in setup.endpoints && f != e ==> SeesNothing(s, r, f)
    ensures AllExact(r, evs + [ev], setup)
  {
    hide Exact, ExactAt, HeardFinal, Deliveries, SeesNothing, DeliversTo;
    forall f | f in setup.endpoints
      ensures ExactAt(r, f, Deliveries(evs + [ev], f))
    {
      OneMoreDelivery(evs, ev, f);
      if f != e {
        ExactElsewhere(s, r, f, Deliveries(evs, f));
      }
    }
  }

  lemma Linked(s: System, ev: NetEvent, e: Endpoint, theta: Clocks)
    requires LockInv(s, theta) && CanHappen(s, ev, theta)
    requires (ev.ClientReceives? && ev.at == e) || (ev.MasterReceives? && ev.from == e)
    ensures e in s.master.connections
  {
    hide LockInv, Link, HeardFinal, ConnectionInv, Enabled;
    LiveConnection(s, e, if ev.ClientReceives? then ToClient(ev.tp) else ToMaster(ev.tp), theta);
  }

  lemma ExactOf(s: System, evs: seq<NetEvent>, setup: Setup, e: Endpoint)
    requires AllExact(s, evs, setup) && e in s.master.connections
    ensures KnownTo(s, setup.theta) && e in setup.theta && ExactAt(s, e, Deliveries(evs, e)) && e in setup.endpoints
    ensures forall f :: f in setup.endpoints ==> f in s.master.connections && f in setup.theta
  {
    hide Exact, HeardFinal, Deliveries;
  }

  lemma ClientKeepsExact(s: System, evs: seq<NetEvent>, e: Endpoint, tp: TPacket, sent: int, done: int, paStart: real,
                         setup: Setup)
    requires LockInv(s, setup.theta) && AllExact(s, evs, setup)
    requires CanHappen(s, ClientReceives(e, tp, sent, done, paStart), setup.theta)
    ensures var ev := ClientReceives(e, tp, sent, done, paStart);
            AllExact(Next(s, ev, setup.theta), evs + [ev], setup)
  {
    hide LockInv, Next, CanHappen, AllExact, ExactAt, KnownTo, HeardFinal, Deliveries, SeesNothing;
    var ev := ClientReceives(e, tp, sent, done, paStart);
    Linked(s, ev, e, setup.theta);
    ExactOf(s, evs, setup, e);
    ClientStepExact(s, e, tp, sent, done, paStart, setup, Deliveries(evs, e));
    DeliveryKeepsExact(s, Next(s, ev, setup.theta), evs, ev, e, setup);
  }

  lemma MasterTouchesOne(s: System, e: Endpoint, tp: TPacket, clock: int, theta: Clocks)
    requires CanHappen(s, MasterReceives(e, tp, clock), theta)
    ensures KnownTo(s, theta) && e in theta && ToMaster(tp) in s.net[e]
    ensures var r := Next(s, MasterReceives(e, tp, clock), theta);
            && KnownTo(r, theta) && r.clients == s.clients && r.heard == s.heard
            && forall f :: f in theta && f != e ==> r.net[f] == s.net[f]
  {
    hide Receive, NewlySent;
  }

  lemma MasterMovesOne(s: System, r: System, f: Endpoint, theta: Clocks)
    requires KnownTo(s, theta) && KnownTo(r, theta) && f in theta
    requires f in s.master.connections && f in r.master.connections
    requires r.net[f] == s.net[f] && r.clients == s.clients && r.heard == s.heard
    requires r.master.connections[f] == s.master.connections[f]
             || (!Syncing(s.master.connections[f]) && !Syncing(r.master.connections[f]))
    ensures SeesNothing(s, r, f)
  {
  }

  lemma OthersSeeNothing(s: System, e: Endpoint, tp: TPacket, clock: int, setup: Setup, deliveries: nat, f: Endpoint)
    requires LockInv(s, setup.theta) && CanHappen(s, MasterReceives(e, tp, clock), setup.theta)
    requires e in s.master.connections && ExactAt(s, e, deliveries)
    requires f in s.master.connections && f in setup.theta && f != e
    ensures SeesNothing(s, Next(s, MasterReceives(e, tp, clock), setup.theta), f)
  {
    hide LockInv, Next, CanHappen, ExactAt, HeardFinal, Syncing;
    MasterTouchesOne(s, e, tp, clock, setup.theta);
    MasterStepExact(s, e, tp, clock, setup, deliveries);
  }

  lemma MasterKeepsExact(s: System, evs: seq<NetEvent>, e: Endpoint, tp: TPacket, clock: int, setup: Setup)
    requires LockInv(s, setup.theta) && AllExact(s, evs, setup)
    requires CanHappen(s, MasterReceives(e, tp, clock), setup.theta)
    ensures var ev := MasterReceives(e, tp, clock);
            AllExact(Next(s, ev, setup.theta), evs + [ev], setup)
  {
    hide LockInv, Next, CanHappen, AllExact, ExactAt, HeardFinal, Deliveries, SeesNothing, KnownTo;
    var ev := MasterReceives(e, tp, clock);
    var r := Next(s, ev, setup.theta);
    Linked(s, ev, e, setup.theta);
    ExactOf(s, evs, setup, e);
    forall f | f in setup.endpoints && f != e
      ensures SeesNothing(s, r, f)
    {
      OthersSeeNothing(s, e, tp, clock, setup, Deliveries(evs, e), f);
    }
    ReplyExact(s, e, tp, clock, setup, Deliveries(evs, e));
    DeliveryKeepsExact(s, r, evs, ev, e, setup);
  }

  lemma ReplyExact(s: System, e: Endpoint, tp: TPacket, clock: int, setup: Setup, deliveries: nat)
    requires LockInv(s, setup.theta) && CanHappen(s, MasterReceives(e, tp, clock), setup.theta)
    requires e in s.master.connections && ExactAt(s, e, deliveries)
    ensures var r := Next(s, MasterReceives(e, tp, clock), setup.theta);
            && KnownTo(r, setup.theta) && r.master.connections.Keys == s.master.connections.Keys
            && e in r.master.connections && ExactAt(r, e, deliveries + 1)
  {
    hide LockInv, Next, CanHappen, ExactAt, Syncing;
    MasterStepExact(s, e, tp, clock, setup, deliveries);
  }

  lemma CompletionTouchesNone(s: System, ev: NetEvent, theta: Clocks)
    requires CanHappen(s, ev, theta) && (ev.Wait? || ev.MasterCompletion?)
    ensures var r := Next(s, ev, theta);
            && KnownTo(r, theta) && r.master.connections == s.master.connections
            && r.net == s.net && r.clients == s.clients && r.heard == s.heard
  {
    hide Completion;
  }

  lemma IdleKeepsExact(s: System, evs: seq<NetEvent>, ev: NetEvent, setup: Setup)
    requires AllExact(s, evs, setup) && CanHappen(s, ev, setup.theta) && (ev.Wait? || ev.MasterCompletion?)
    ensures AllExact(Next(s, ev, setup.theta), evs + [ev], setup)
  {
    hide Next, AllExact, CanHappen;
    CompletionTouchesNone(s, ev, setup.theta);
    StillExact(s, Next(s, ev, setup.theta), evs, ev, setup);
  }

  lemma NextExact(s: System, evs: seq<NetEvent>, ev: NetEvent, setup: Setup)
    requires LockInv(s, setup.theta) && AllExact(s, evs, setup) && CanHappen(s, ev, setup.theta)
    requires !ev.Lose? && !ev.Duplicate? && !ev.MasterTimeout?
    ensures AllExact(Next(s, ev, setup.theta), evs + [ev], setup)
  {
    hide LockInv, Next, AllExact, CanHappen;
    match ev {
      case ClientReceives(e, tp, sent, done, paStart) => ClientKeepsExact(s, evs, e, tp, sent, done, paStart, setup);
      case MasterReceives(e, tp, clock) => MasterKeepsExact(s, evs, e, tp, clock, setup);
      case Wait(_) => IdleKeepsExact(s, evs, ev, setup);
      case MasterCompletion(_, _) => IdleKeepsExact(s, evs, ev, setup);
      case _ =>
    }
  }

  /** A timer that fires would find the request or its answer still under way. */
  lemma NoTimerFires(s: System, evs: seq<NetEvent>, setup: Setup, e: Endpoint, clock: int)
    requires LockInv(s, setup.theta) && AllExact(s, evs, setup) && QuickAt(s, evs, setup)
    requires CanHappen(s, MasterTimeout(e, clock), setup.theta)
    ensures s.now < Due(evs, e, setup)
  {
    hide Due, Deliveries, HeardFinal, Link;
    TimerMeansSyncing(s.master, e);
    assert ExactAt(s, e, Deliveries(evs, e));
  }

  lemma FirstRequestExact(clock: int)
    ensures Exact(Connection(1, 0, ResendInitial, SentInitial), multiset{ToClient(Request(clock))}, 0, false, 0)
  {
    Singleton(ToClient(Request(clock)));
    assert ToClient(Request(clock)) in multiset{ToClient(Request(clock))};
  }

  lemma StartExact(s: System, setup: Setup)
    requires Starts(s, setup)
    ensures AllExact(s, [], setup)
  {
    StartConnections(setup.endpoints, setup.clocks, setup.file, setup.buffer);
    NothingHeard();
    hide Start, HeardFinal, Exact;
    forall e | e in setup.endpoints
      ensures ExactAt(s, e, Deliveries([], e))
    {
      FirstRequestExact(setup.clocks[e]);
    }
  }

  lemma StepExact(s: System, ev: NetEvent, r: System, evs: seq<NetEvent>, setup: Setup)
    requires LockInv(s, setup.theta) && AllExact(s, evs, setup) && QuickAt(s, evs, setup)
    requires LeadsTo(s, ev, setup.theta, r) && !ev.Lose? && !ev.Duplicate?
    requires ev.MasterTimeout? ==> Due(evs, ev.at, setup) <= s.now
    ensures AllExact(r, evs + [ev], setup) && !ev.MasterTimeout?
  {
    hide LockInv, AllExact, QuickAt, Next, CanHappen, Due;
    if ev.MasterTimeout? {
      NoTimerFires(s, evs, setup, ev.at, ev.clock);
    } else {
      NextExact(s, evs, ev, setup);
    }
  }

  lemma PromptAt(run: seq<System>, evs: seq<NetEvent>, setup: Setup, k: nat)
    requires IsPromptRun(run, evs, setup) && k < |evs|
    ensures |run| == |evs| + 1 && LeadsTo(run[k], evs[k], setup.theta, run[k + 1])
    ensures QuickAt(run[k], evs[..k], setup) && !evs[k].Duplicate?
    ensures evs[k].MasterTimeout? ==> Due(evs[..k], evs[k].at, setup) <= run[k].now
  {
    hide LeadsTo, Starts, QuickAt, Due;
    assert NotEarly(run, evs, setup, k);
  }

  lemma LessLost(evs: seq<NetEvent>, n: nat)
    requires 0 < n <= |evs| && NothingLost(evs[..n])
    ensures NothingLost(evs[..n - 1]) && !evs[n - 1].Lose? && evs[..n] == evs[..n - 1] + [evs[n - 1]]
  {
    assert forall k :: 0 <= k < n ==> evs[..n][k] == evs[k];
  }

  lemma PromptBegins(run: seq<System>, evs: seq<NetEvent>, setup: Setup)
    requires IsPromptRun(run, evs, setup)
    ensures |run| == |evs| + 1 && AllExact(run[0], [], setup)
  {
    hide LeadsTo, Starts, QuickAt, AllExact, NeverEarly;
    StartExact(run[0], setup);
  }

  /** Along every prompt run in which nothing is lost no timer fires, nobody is given up, and each connection
      is as far as the messages delivered on it have brought it. */
  lemma {:induction false} RunExact(run: seq<System>, evs: seq<NetEvent>, setup: Setup, n: nat)
    requires IsPromptRun(run, evs, setup) && n <= |evs| && NothingLost(evs[..n])
    ensures n < |run| && AllExact(run[n], evs[..n], setup)
    ensures forall k :: 0 <= k < n ==> !evs[k].MasterTimeout?
  {
    hide IsPromptRun, IsLockStepRun, LeadsTo, AllExact, QuickAt, LockInv, Due, NothingLost;
    PromptBegins(run, evs, setup);
    if n > 0 {
      PromptIsLockStep(run, evs, setup);
      LessLost(evs, n);
      LockStepInv(run, evs, setup, n - 1);
      PromptAt(run, evs, setup, n - 1);
      RunExact(run, evs, setup, n - 1);
      StepExact(run[n - 1], evs[n - 1], run[n], evs[..n - 1], setup);
    }
  }

  // ----- What such a network gives -----

  /** A client that processes its first FINAL holds exactly ten samples. */
  lemma TenSamples(run: seq<System>, evs: seq<NetEvent>, setup: Setup, n: nat, e: Endpoint, tp: TPacket)
    requires IsPromptRun(run, evs, setup) && n <= |evs| && NothingLost(evs[..n])
    requires FirstFinal(run[n], e, tp)
    ensures |Collect(run[n].clients[e], tp).samples| == 10
  {
    PromptIsLockStep(run, evs, setup);
    RunExact(run, evs, setup, n);
    LockStepInv(run, evs, setup, n);
    hide IsPromptRun, IsLockStepRun, LockInv;
    FinalAfterTen(run[n], evs[..n], setup, e, tp);
  }

  lemma FinalAfterTen(s: System, evs: seq<NetEvent>, setup: Setup, e: Endpoint, tp: TPacket)
    requires LockInv(s, setup.theta) && AllExact(s, evs, setup) && FirstFinal(s, e, tp)
    ensures |Collect(s.clients[e], tp).samples| == 10
  {
    hide Inv, HeardFinal, Deliveries;
    LiveConnection(s, e, ToClient(tp), setup.theta);
    assert ExactAt(s, e, Deliveries(evs, e));
    OneMessage(s.net[e], ToClient(tp), tp.tpType);
  }

  lemma NobodyIsGivenUp(run: seq<System>, evs: seq<NetEvent>, setup: Setup, n: nat)
    requires IsPromptRun(run, evs, setup) && n <= |evs| && NothingLost(evs[..n])
    ensures n < |run| && run[n].master.connections.Keys == setup.endpoints && !run[n].master.panicked
  {
    PromptIsLockStep(run, evs, setup);
    RunExact(run, evs, setup, n);
    LockStepInv(run, evs, setup, n);
    hide IsPromptRun, IsLockStepRun;
  }

  /** Every connection has carried the forty messages of its ten rounds. */
  predicate AllDelivered(evs: seq<NetEvent>, setup: Setup) {
    forall e :: e in setup.endpoints ==> Deliveries(evs, e) == 40
  }

  /** Streaming has begun exactly when every connection has carried the forty messages of its ten rounds. */
  lemma StreamsAfterFortyMessages(run: seq<System>, evs: seq<NetEvent>, setup: Setup, n: nat)
    requires IsPromptRun(run, evs, setup) && n <= |evs| && NothingLost(evs[..n]) && |setup.endpoints| < 0x1_0000
    ensures n < |run| && (!run[n].master.listening <==> AllDelivered(evs[..n], setup))
  {
    PromptIsLockStep(run, evs, setup);
    RunExact(run, evs, setup, n);
    LockStepInv(run, evs, setup, n);
    hide IsPromptRun, IsLockStepRun, LockInv;
    FortyMessages(run[n], evs[..n], setup);
  }

  lemma FortyMessages(s: System, evs: seq<NetEvent>, setup: Setup)
    requires LockInv(s, setup.theta) && AllExact(s, evs, setup) && |setup.endpoints| < 0x1_0000
    ensures !s.master.listening <==> AllDelivered(evs, setup)
  {
    hide HeardFinal, Deliveries, Link, LinkAt;
    assert |s.master.connections.Keys| == |s.master.connections|;
    forall e | e in setup.endpoints
      ensures Deliveries(evs, e) == 4 * NTP_ROUNDS <==> !Syncing(s.master.connections[e])
    {
      assert ExactAt(s, e, Deliveries(evs, e)) && ConnectionInv(s.master.connections[e]);
    }
    LiveStates(s, setup.theta);
  }

  /** In a lock-step run no stranger enters the map. */
  lemma LiveStates(s: System, theta: Clocks)
    requires LockInv(s, theta)
    ensures forall e :: e in s.master.connections ==> s.master.connections[e].state != Naked
  {
    hide Inv, HeardFinal;
    forall e | e in s.master.connections
      ensures s.master.connections[e].state != Naked
    {
      assert LinkAt(s, e);
    }
  }
}
