/** Runs in which a retry timer fires only after its request or the reply to it was lost,
    and nothing is duplicated. */
module LockStep {
  import opened TimePackets
  import opened ClientModel
  import opened MasterModel
  import opened MasterRuns
  import opened SyncNetwork

  predicate InStep(s: System, ev: NetEvent, theta: Clocks)
    requires CanHappen(s, ev, theta)
  {
    match ev
    case Duplicate(_, _) => false
    case MasterTimeout(e, _) => s.net[e] == multiset{}
    case _ => true
  }

  predicate StaysInStep(s: System, ev: NetEvent, theta: Clocks) {
    CanHappen(s, ev, theta) && InStep(s, ev, theta)
  }

  predicate IsLockStepRun(run: seq<System>, evs: seq<NetEvent>, setup: Setup) {
    && IsNetRun(run, evs, setup)
    && forall i :: 0 <= i < |evs| ==> StaysInStep(run[i], evs[i], setup.theta)
  }

  /** At most one request or reply is alive, of this type. */
  predicate OneLive(bag: multiset<Message>, tpType: TPacketType) {
    |bag| <= 1 && forall msg :: msg in bag ==> msg.tp.tpType == tpType
  }

  predicate Requested(bag: multiset<Message>) {
    exists msg :: msg in bag && msg.ToClient?
  }

  predicate Replied(bag: multiset<Message>) {
    exists msg :: msg in bag && msg.ToMaster?
  }

  predicate HeardFinal(heard: seq<TPacket>) {
    exists i :: 0 <= i < |heard| && heard[i].tpType == Final
  }

  /** The type of a round's second timesync: FINAL in the tenth round and in no other. */
  function TypeInRound(syncRounds: int): TPacketType {
    if syncRounds + 1 == NTP_ROUNDS then Final else Complete
  }

  /** How far the two ends of one connection can be apart: `samples` is the number of samples the client
      holds, `finished` whether it has processed a FINAL. */
  predicate Link(c: Connection, bag: multiset<Message>, samples: nat, finished: bool) {
    match c.state
    case Naked => false
    case SentInitial =>
      !finished && OneLive(bag, Incomplete) && c.syncRounds <= samples <= 3 * c.syncRounds
    case SentFinal =>
      && OneLive(bag, TypeInRound(c.syncRounds))
      && c.timer.ResendFinal? && c.timer.tp.tpType == TypeInRound(c.syncRounds)
      && if c.syncRounds + 1 < NTP_ROUNDS then
           !finished && c.syncRounds + (if Replied(bag) then 1 else 0) <= samples
           <= 3 * c.syncRounds + c.attempts - (if Requested(bag) then 1 else 0)
         else
           && (Replied(bag) ==> finished)
           && if finished then samples == 0 else NTP_ROUNDS - 1 <= samples <= 3 * (NTP_ROUNDS - 1)
    case PendingAllSynced => bag == multiset{} && finished && samples == 0
    case SendingData => bag == multiset{} && finished && samples == 0
  }

  predicate LinkAt(s: System, e: Endpoint)
    requires e in s.net && e in s.clients && e in s.heard
  {
    if e in s.master.connections then
      Link(s.master.connections[e], s.net[e], |s.clients[e].samples|, HeardFinal(s.heard[e]))
    else s.net[e] == multiset{}
  }

  predicate LockInv(s: System, theta: Clocks) {
    && KnownTo(s, theta)
    && Inv(s.master)
    && s.master.connections.Keys <= theta.Keys
    && forall e :: e in theta ==> LinkAt(s, e)
  }

  lemma OneMessage(bag: multiset<Message>, msg: Message, tpType: TPacketType)
    requires OneLive(bag, tpType) && msg in bag
    ensures bag == multiset{msg} && bag - multiset{msg} == multiset{}
    ensures Requested(bag) <==> msg.ToClient?
    ensures Replied(bag) <==> msg.ToMaster?
  {
    assert |bag - multiset{msg}| == |bag| - 1;
    assert bag - multiset{msg} == multiset{};
  }

  lemma Singleton(msg: Message)
    ensures multiset{} + multiset{msg} == multiset{msg}
    ensures OneLive(multiset{msg}, msg.tp.tpType)
    ensures Requested(multiset{msg}) <==> msg.ToClient?
    ensures Replied(multiset{msg}) <==> msg.ToMaster?
    ensures !Requested(multiset{}) && !Replied(multiset{})
  {
    if msg.ToClient? {
      assert msg in multiset{msg};
    }
  }

  /** The message alive on a link belongs to a syncing connection. */
  lemma LiveMeansSyncing(c: Connection, bag: multiset<Message>, samples: nat, finished: bool, msg: Message)
    requires Link(c, bag, samples, finished) && msg in bag
    ensures Syncing(c)
    ensures OneLive(bag, if c.state == SentInitial then Incomplete else TypeInRound(c.syncRounds))
  {
  }

  lemma LinkLoses(c: Connection, bag: multiset<Message>, samples: nat, finished: bool, msg: Message)
    requires Link(c, bag, samples, finished) && msg in bag
    ensures Link(c, bag - multiset{msg}, samples, finished)
  {
    LiveMeansSyncing(c, bag, samples, finished, msg);
    OneMessage(bag, msg, msg.tp.tpType);
    Singleton(msg);
  }

  /** The client answers, adding a sample or settling. */
  lemma LinkAnswered(c: Connection, bag: multiset<Message>, samples: nat, finished: bool, tp: TPacket, reply: TPacket)
    requires ConnectionInv(c) && Link(c, bag, samples, finished) && ToClient(tp) in bag
    requires reply.tpType == tp.tpType
    ensures Link(c, bag - multiset{ToClient(tp)} + multiset{ToMaster(reply)},
                 if tp.tpType == Final then 0 else if tp.tpType == Complete then samples + 1 else samples,
                 finished || tp.tpType == Final)
  {
    LiveMeansSyncing(c, bag, samples, finished, ToClient(tp));
    OneMessage(bag, ToClient(tp), tp.tpType);
    Singleton(ToMaster(reply));
    assert bag - multiset{ToClient(tp)} + multiset{ToMaster(reply)} == multiset{ToMaster(reply)};
  }

  lemma LinkAdvances(c: Connection, bag: multiset<Message>, samples: nat, finished: bool, tp: TPacket, now: int)
    requires ConnectionInv(c) && Link(c, bag, samples, finished) && ToMaster(tp) in bag && Syncing(c)
    ensures c.state == SentInitial ==>
              var final := FinalFor(c, tp, now);
              Link(AwaitingFinal(c, final), bag - multiset{ToMaster(tp)} + multiset{ToClient(final)}, samples, finished)
    ensures c.state == SentFinal && c.syncRounds + 1 < NTP_ROUNDS ==>
              forall clock :: Link(NextRound(c), bag - multiset{ToMaster(tp)} + multiset{ToClient(Request(clock))},
                                   samples, finished)
    ensures c.state == SentFinal && c.syncRounds + 1 == NTP_ROUNDS ==> finished && samples == 0
    ensures bag - multiset{ToMaster(tp)} == multiset{}
  {
    OneMessage(bag, ToMaster(tp), tp.tpType);
    if c.state == SentInitial {
      var final := FinalFor(c, tp, now);
      Singleton(ToClient(final));
      assert bag - multiset{ToMaster(tp)} + multiset{ToClient(final)} == multiset{ToClient(final)};
    } else if c.syncRounds + 1 < NTP_ROUNDS {
      forall clock
        ensures Link(NextRound(c), bag - multiset{ToMaster(tp)} + multiset{ToClient(Request(clock))}, samples, finished)
      {
        Singleton(ToClient(Request(clock)));
        assert bag - multiset{ToMaster(tp)} + multiset{ToClient(Request(clock))} == multiset{ToClient(Request(clock))};
      }
    }
  }

  lemma LinkRetries(c: Connection, samples: nat, finished: bool, clock: int)
    requires ConnectionInv(c) && Syncing(c) && Link(c, multiset{}, samples, finished) && c.attempts <= 2
    ensures Link(Retried(c), multiset{} + multiset{ToClient(Resend(c, clock))}, samples, finished)
  {
    Singleton(ToClient(Resend(c, clock)));
  }

  // ----- Every step keeps every link -----

  lemma LinkHolds(s: System, e: Endpoint, c: ClientState, bag: multiset<Message>, heard: seq<TPacket>, later: int)
    requires e in s.net && e in s.clients && e in s.heard && e in s.master.connections
    requires Link(s.master.connections[e], bag, |c.samples|, HeardFinal(heard))
    ensures LinkAt(ClientMoves(s, e, c, bag, heard, later), e)
  {
    hide Link, HeardFinal;
  }

  lemma LinkElsewhere(s: System, r: System, f: Endpoint)
    requires f in s.net && f in s.clients && f in s.heard && LinkAt(s, f)
    requires f in r.net && f in r.clients && f in r.heard
    requires r.master == s.master && r.net[f] == s.net[f] && r.clients[f] == s.clients[f] && r.heard[f] == s.heard[f]
    ensures LinkAt(r, f)
  {
    hide Link, HeardFinal;
  }

  lemma StillKnown(s: System, e: Endpoint, c: ClientState, bag: multiset<Message>, heard: seq<TPacket>,
                   later: int, theta: Clocks)
    requires KnownTo(s, theta) && e in theta
    ensures KnownTo(ClientMoves(s, e, c, bag, heard, later), theta)
  {
  }

  /** Only e's end of the network and its client changed, and e's link holds again. */
  lemma ClientSideKeepsLinks(s: System, e: Endpoint, c: ClientState, bag: multiset<Message>, heard: seq<TPacket>,
                             later: int, theta: Clocks)
    requires LockInv(s, theta) && e in theta && e in s.master.connections
    requires Link(s.master.connections[e], bag, |c.samples|, HeardFinal(heard))
    ensures LockInv(ClientMoves(s, e, c, bag, heard, later), theta)
  {
    hide Inv, Link, LinkAt, HeardFinal;
    var r := ClientMoves(s, e, c, bag, heard, later);
    StillKnown(s, e, c, bag, heard, later, theta);
    LinkHolds(s, e, c, bag, heard, later);
    forall f | f in theta && f != e
      ensures LinkAt(r, f)
    {
      LinkElsewhere(s, r, f);
    }
  }

  /** Only the master and e's end of the network changed, and e's link holds again; other connections are
      as before, or the barrier released them. */
  lemma MasterSideKeepsLinks(s: System, m: MasterState, e: Endpoint, bag: multiset<Message>, later: int, theta: Clocks)
    requires LockInv(s, theta) && e in theta && Inv(m)
    requires if e in m.connections then
               Link(m.connections[e], bag, |s.clients[e].samples|, HeardFinal(s.heard[e]))
             else bag == multiset{}
    requires forall f :: f != e ==>
               && (f in m.connections <==> f in s.master.connections)
               && (f in m.connections ==>
                     || m.connections[f] == s.master.connections[f]
                     || (s.master.connections[f].state == PendingAllSynced && m.connections[f].state == SendingData))
    ensures LockInv(s.(master := m, net := s.net[e := bag], now := later), theta)
  {
    hide Inv, Link, HeardFinal;
    var r := s.(master := m, net := s.net[e := bag], now := later);
    forall f | f in theta
      ensures LinkAt(r, f)
    {
      assert LinkAt(s, f);
      if f != e && f in m.connections && m.connections[f] != s.master.connections[f] {
        LinkReleased(s.master.connections[f], m.connections[f], s.net[f], |s.clients[f].samples|,
                     HeardFinal(s.heard[f]));
      }
    }
  }

  /** The barrier turns a pending connection into a streaming one. */
  lemma LinkReleased(c: Connection, d: Connection, bag: multiset<Message>, samples: nat, finished: bool)
    requires Link(c, bag, samples, finished) && c.state == PendingAllSynced && d.state == SendingData
    ensures Link(d, bag, samples, finished)
  {
  }

  lemma SamplesAfter(c: ClientState, tp: TPacket, paStart: real, systemTime: int, heard: seq<TPacket>)
    ensures |OnTimesync(c, tp, paStart, systemTime).samples| ==
            if tp.tpType == Final then 0 else if tp.tpType == Complete then |c.samples| + 1 else |c.samples|
    ensures HeardFinal(Remember(heard, tp)) <==> HeardFinal(heard) || tp.tpType == Final
  {
    var h := Remember(heard, tp);
    assert forall i :: 0 <= i < |heard| ==> h[i] == heard[i];
    if tp.tpType == Final {
      assert h[|heard|] == tp;
    }
  }

  lemma LiveConnection(s: System, e: Endpoint, msg: Message, theta: Clocks)
    requires LockInv(s, theta) && e in theta && msg in s.net[e]
    ensures e in s.master.connections && ConnectionInv(s.master.connections[e]) && Syncing(s.master.connections[e])
    ensures Link(s.master.connections[e], s.net[e], |s.clients[e].samples|, HeardFinal(s.heard[e]))
    ensures Inv(s.master) && s.master.connections.Keys <= theta.Keys
  {
    assert LinkAt(s, e);
    LiveMeansSyncing(s.master.connections[e], s.net[e], |s.clients[e].samples|, HeardFinal(s.heard[e]), msg);
  }

  lemma ClientInStep(s: System, e: Endpoint, tp: TPacket, sent: int, done: int, paStart: real, theta: Clocks)
    requires LockInv(s, theta) && CanHappen(s, ClientReceives(e, tp, sent, done, paStart), theta)
    ensures LockInv(Next(s, ClientReceives(e, tp, sent, done, paStart), theta), theta)
  {
    hide LockInv, ConnectionInv, Link, HeardFinal, OnTimesync, Remember, Echo, Syncing, ClientMoves;
    LiveConnection(s, e, ToClient(tp), theta);
    SamplesAfter(s.clients[e], tp, paStart, done + theta[e], s.heard[e]);
    EchoKeepsType(tp, s.now + theta[e], sent + theta[e]);
    var reply := Echo(tp, s.now + theta[e], sent + theta[e]);
    LinkAnswered(s.master.connections[e], s.net[e], |s.clients[e].samples|, HeardFinal(s.heard[e]), tp, reply);
    ClientSideKeepsLinks(s, e, OnTimesync(s.clients[e], tp, paStart, done + theta[e]),
                         s.net[e] - multiset{ToClient(tp)} + multiset{ToMaster(reply)}, Remember(s.heard[e], tp), done,
                         theta);
  }

  lemma EchoKeepsType(tp: TPacket, toRecvd: int, toSent: int)
    ensures Echo(tp, toRecvd, toSent).tpType == tp.tpType
  {
  }

  lemma LoseInStep(s: System, e: Endpoint, msg: Message, theta: Clocks)
    requires LockInv(s, theta) && CanHappen(s, Lose(e, msg), theta)
    ensures LockInv(Next(s, Lose(e, msg), theta), theta)
  {
    hide LockInv, Inv, Link, HeardFinal, ConnectionInv, Syncing;
    LiveConnection(s, e, msg, theta);
    LinkLoses(s.master.connections[e], s.net[e], |s.clients[e].samples|, HeardFinal(s.heard[e]), msg);
    ClientSideKeepsLinks(s, e, s.clients[e], s.net[e] - multiset{msg}, s.heard[e], s.now, theta);
    assert s.clients[e := s.clients[e]] == s.clients && s.heard[e := s.heard[e]] == s.heard;
  }

  lemma MovedInStep(s: System, e: Endpoint, c: Connection, tp: TPacket, rest: multiset<Message>, clock: int,
                    theta: Clocks)
    requires LockInv(s, theta) && e in theta && e in s.master.connections
    requires Inv(Moved(s.master, e, c, tp))
    requires Link(c, rest + multiset{ToClient(tp)}, |s.clients[e].samples|, HeardFinal(s.heard[e]))
    ensures LockInv(MasterMoves(s, Moved(s.master, e, c, tp), e, rest, clock), theta)
  {
    SentByMove(s.master, e, c, tp);
    hide Inv, Link, HeardFinal, NewlySent;
    MasterSideKeepsLinks(s, Moved(s.master, e, c, tp), e, rest + multiset{ToClient(tp)}, clock, theta);
  }

  lemma SettledOthers(m: MasterState, r: MasterState, e: Endpoint, clock: int)
    requires HasBuffer(m.stream) && e in m.connections && Settled(m, r, e, clock)
    ensures forall f :: f != e ==>
              && (f in r.connections <==> f in m.connections)
              && (f in r.connections ==>
                    || r.connections[f] == m.connections[f]
                    || (m.connections[f].state == PendingAllSynced && r.connections[f].state == SendingData))
    ensures r.connections.Keys <= m.connections.Keys && r.timeLog == m.timeLog
    ensures e in r.connections && r.connections[e].state != Naked ==>
              r.connections[e].state in {PendingAllSynced, SendingData}
  {
  }

  lemma LinkSynced(c: Connection, samples: nat, finished: bool)
    requires c.state in {PendingAllSynced, SendingData} && finished && samples == 0
    ensures Link(c, multiset{}, samples, finished)
  {
  }

  /** A connection that leaves the sync phase has settled its client, or is given up. */
  lemma SettledInStep(s: System, r: MasterState, e: Endpoint, clock: int, theta: Clocks)
    requires LockInv(s, theta) && e in theta && e in s.master.connections
    requires Inv(r) && Settled(s.master, r, e, clock)
    requires e in r.connections ==>
               r.connections[e].state != Naked && HeardFinal(s.heard[e]) && s.clients[e].samples == []
    ensures LockInv(MasterMoves(s, r, e, multiset{}, clock), theta)
  {
    hide Link, HeardFinal, NewlySent, Settled, Inv;
    LockInvMaster(s, theta);
    SettledOthers(s.master, r, e, clock);
    NothingSent(s.master, r, e);
    if e in r.connections {
      LinkSynced(r.connections[e], 0, true);
    }
    hide LockInv, ConnectionInv, Syncing;
    MasterSideKeepsLinks(s, r, e, multiset{}, clock, theta);
  }

  lemma LockInvMaster(s: System, theta: Clocks)
    requires LockInv(s, theta)
    ensures HasBuffer(s.master.stream) && s.master.connections.Keys <= theta.Keys && KnownTo(s, theta)
  {
  }

  lemma NothingSent(m: MasterState, r: MasterState, e: Endpoint)
    requires r.timeLog == m.timeLog
    ensures NewlySent(m, r, e) == multiset{} && multiset{} + NewlySent(m, r, e) == multiset{}
  {
  }

  lemma MasterReceivesInStep(s: System, e: Endpoint, tp: TPacket, clock: int, theta: Clocks)
    requires LockInv(s, theta) && CanHappen(s, MasterReceives(e, tp, clock), theta)
    ensures LockInv(Next(s, MasterReceives(e, tp, clock), theta), theta)
  {
    var m, r := s.master, Receive(s.master, e, tp, s.now, clock);
    var rest := s.net[e] - multiset{ToMaster(tp)};
    assert LinkAt(s, e);
    assert e in m.connections;
    assert ConnectionInv(m.connections[e]);
    var c, n, finished := m.connections[e], |s.clients[e].samples|, HeardFinal(s.heard[e]);
    LiveMeansSyncing(c, s.net[e], n, finished, ToMaster(tp));
    SyncingRounds(m, e);
    LinkAdvances(c, s.net[e], n, finished, tp, s.now);
    hide Inv, ConnectionInv, Link, HeardFinal, Receive, Moved, Settled, MasterMoves, Closer, NewlySent;
    if c.state == SentInitial {
      ReplyToInitial(m, e, tp, s.now, clock);
      var final := FinalFor(c, tp, s.now);
      MovedInStep(s, e, AwaitingFinal(c, final), final, rest, clock, theta);
    } else if c.syncRounds + 1 < NTP_ROUNDS {
      ReplyToFinal(m, e, tp, s.now, clock);
      MovedInStep(s, e, NextRound(c), Request(clock), rest, clock, theta);
    } else {
      ReplyToLastFinal(m, e, tp, s.now, clock);
      SettledNotNaked(m, r, e, clock);
      SettledInStep(s, r, e, clock, theta);
    }
  }

  lemma SettledNotNaked(m: MasterState, r: MasterState, e: Endpoint, clock: int)
    requires Inv(m) && Inv(r) && e in m.connections && Settled(m, r, e, clock)
    ensures e in r.connections ==> r.connections[e].state != Naked
  {
    assert e in r.connections ==> ConnectionInv(r.connections[e]);
  }

  lemma TimeoutInStep(s: System, e: Endpoint, clock: int, theta: Clocks)
    requires LockInv(s, theta) && CanHappen(s, MasterTimeout(e, clock), theta) && s.net[e] == multiset{}
    ensures LockInv(Next(s, MasterTimeout(e, clock), theta), theta)
  {
    var m, r := s.master, Timeout(s.master, e, clock);
    assert LinkAt(s, e);
    assert ConnectionInv(m.connections[e]);
    var c := m.connections[e];
    TimeoutStep(m, e, clock);
    if c.attempts > 2 {
      hide Inv, ConnectionInv, Link, HeardFinal, Timeout, Settled, MasterMoves, NewlySent;
      SettledInStep(s, r, e, clock, theta);
    } else {
      LinkRetries(c, |s.clients[e].samples|, HeardFinal(s.heard[e]), clock);
      hide Inv, ConnectionInv, Link, HeardFinal, Timeout, Moved, Settled, MasterMoves, NewlySent;
      MovedInStep(s, e, Retried(c), Resend(c, clock), multiset{}, clock, theta);
    }
  }

  lemma CompletionInStep(s: System, ok: bool, clock: int, theta: Clocks)
    requires LockInv(s, theta) && CanHappen(s, MasterCompletion(ok, clock), theta)
    ensures LockInv(Next(s, MasterCompletion(ok, clock), theta), theta)
  {
    StepSafe(s.master, SendCompleted(ok, clock));
    var r := Next(s, MasterCompletion(ok, clock), theta);
    hide Inv, Link, HeardFinal, Completion;
    forall f | f in theta
      ensures LinkAt(r, f)
    {
      assert LinkAt(s, f);
    }
  }

  lemma InStepKeeps(s: System, ev: NetEvent, theta: Clocks)
    requires LockInv(s, theta) && CanHappen(s, ev, theta) && InStep(s, ev, theta)
    ensures LockInv(Next(s, ev, theta), theta)
  {
    match ev {
      case Wait(until) =>
        forall f | f in theta
          ensures LinkAt(Next(s, ev, theta), f)
        {
          assert LinkAt(s, f);
        }
      case Lose(e, msg) => LoseInStep(s, e, msg, theta);
      case Duplicate(_, _) => assert false;
      case ClientReceives(e, tp, sent, done, paStart) => ClientInStep(s, e, tp, sent, done, paStart, theta);
      case MasterReceives(e, tp, clock) => MasterReceivesInStep(s, e, tp, clock, theta);
      case MasterTimeout(e, clock) => TimeoutInStep(s, e, clock, theta);
      case MasterCompletion(ok, clock) => CompletionInStep(s, ok, clock, theta);
    }
  }

  lemma {:induction false} LockStepInv(run: seq<System>, evs: seq<NetEvent>, setup: Setup, n: nat)
    requires IsLockStepRun(run, evs, setup) && n <= |evs|
    ensures LockInv(run[n], setup.theta)
  {
    hide LockInv, Next, Starts, InStep;
    if n == 0 {
      StartsInStep(run[0], setup);
    } else {
      assert LeadsTo(run[n - 1], evs[n - 1], setup.theta, run[n]);
      assert StaysInStep(run[n - 1], evs[n - 1], setup.theta);
      LockStepInv(run, evs, setup, n - 1);
      InStepKeeps(run[n - 1], evs[n - 1], setup.theta);
    }
  }

  lemma StartsInStep(s: System, setup: Setup)
    requires Starts(s, setup)
    ensures LockInv(s, setup.theta)
  {
    StartBounded(setup.endpoints, setup.clocks, setup.file, setup.buffer);
    StartConnections(setup.endpoints, setup.clocks, setup.file, setup.buffer);
    hide Inv, HeardFinal, Link, Start;
    NothingHeard();
    forall e | e in setup.theta
      ensures LinkAt(s, e)
    {
      if e in setup.endpoints {
        LinkAtStart(setup.clocks[e]);
      }
    }
  }

  lemma StartConnections(es: set<Endpoint>, clocks: Clocks, file: seq<int>, buffer: seq<int>)
    requires es <= clocks.Keys
    ensures var m := Start(es, clocks, file, buffer);
            m.connections.Keys == es
            && forall e :: e in es ==> m.connections[e] == Connection(1, 0, ResendInitial, SentInitial)
  {
  }

  lemma NothingHeard()
    ensures !HeardFinal([])
  {
  }

  lemma LinkAtStart(clock: int)
    ensures Link(Connection(1, 0, ResendInitial, SentInitial), multiset{ToClient(Request(clock))}, 0, false)
  {
    Singleton(ToClient(Request(clock)));
  }

  // ----- What a lock-step run guarantees -----

  /** No PANIC is reached, no link ever has more than one message on it, and a FINAL travels only in its
      connection's tenth round. */
  lemma LockStepSafe(run: seq<System>, evs: seq<NetEvent>, setup: Setup, n: nat, e: Endpoint)
    requires IsLockStepRun(run, evs, setup) && n <= |evs| && e in run[n].net
    ensures !run[n].master.panicked && |run[n].net[e]| <= 1
    ensures forall msg :: msg in run[n].net[e] ==>
              e in run[n].master.connections
              && (msg.tp.tpType == Final ==> run[n].master.connections[e].syncRounds == 9)
  {
    LockStepInv(run, evs, setup, n);
    hide LockInv, IsLockStepRun;
    LinkIsSafe(run[n], e, setup.theta);
  }

  lemma LinkIsSafe(s: System, e: Endpoint, theta: Clocks)
    requires LockInv(s, theta) && e in s.net
    ensures !s.master.panicked && |s.net[e]| <= 1
    ensures forall msg :: msg in s.net[e] ==>
              e in s.master.connections
              && (msg.tp.tpType == Final ==> s.master.connections[e].syncRounds == 9)
  {
    assert LinkAt(s, e);
  }

  /** When a client processes its first FINAL it holds between 10 and 28 samples, that packet's included. */
  lemma SamplesAtFinal(run: seq<System>, evs: seq<NetEvent>, setup: Setup, n: nat, e: Endpoint, tp: TPacket)
    requires IsLockStepRun(run, evs, setup) && n <= |evs|
    requires FirstFinal(run[n], e, tp)
    ensures 10 <= |Collect(run[n].clients[e], tp).samples| <= 28
  {
    LockStepInv(run, evs, setup, n);
    hide LockInv, IsLockStepRun;
    FinalOnLink(run[n], e, tp, setup.theta);
  }

  /** A FINAL is under way to a client that has not processed one. */
  predicate FirstFinal(s: System, e: Endpoint, tp: TPacket) {
    && e in s.clients && e in s.heard && !HeardFinal(s.heard[e])
    && UnderWay(s, e, ToClient(tp)) && tp.tpType == Final
  }

  lemma FinalOnLink(s: System, e: Endpoint, tp: TPacket, theta: Clocks)
    requires LockInv(s, theta) && FirstFinal(s, e, tp)
    ensures 10 <= |Collect(s.clients[e], tp).samples| <= 28
  {
    hide Inv, HeardFinal;
    LiveConnection(s, e, ToClient(tp), theta);
  }

  /** Every client the stream is sent to has settled: it has processed a FINAL, collected nothing since,
      and no time packet of its is under way. */
  lemma ListenersHaveSettled(run: seq<System>, evs: seq<NetEvent>, setup: Setup, n: nat, e: Endpoint)
    requires IsLockStepRun(run, evs, setup) && n <= |evs|
    requires !run[n].master.listening && e in run[n].master.connections
    ensures HasSettled(run[n], e)
  {
    LockStepInv(run, evs, setup, n);
    hide LockInv, IsLockStepRun, HasSettled;
    StreamingIsSettled(run[n], e, setup.theta);
  }

  predicate HasSettled(s: System, e: Endpoint) {
    && e in s.heard && e in s.clients && e in s.net
    && HeardFinal(s.heard[e]) && s.clients[e].samples == [] && s.net[e] == multiset{}
  }

  lemma StreamingIsSettled(s: System, e: Endpoint, theta: Clocks)
    requires LockInv(s, theta) && !s.master.listening && e in s.master.connections
    ensures HasSettled(s, e)
  {
    hide HeardFinal, ConnectionInv, OneLive, Requested, Replied;
    assert LinkAt(s, e);
    assert s.master.connections[e].state in {SendingData, Naked};
  }

  /** Before streaming a lock-step run is stuck only when every connection is pending, and then they are more
      than 16 bits can count: otherwise some message can be delivered or some timer can fire, each of which
      brings its connection closer to the end of its sync phase. */
  lemma LockStepProgress(run: seq<System>, evs: seq<NetEvent>, setup: Setup, n: nat)
    requires IsLockStepRun(run, evs, setup) && n <= |evs|
    requires run[n].master.listening && run[n].now > 0
    ensures (exists ev :: StaysInStep(run[n], ev, setup.theta) && Advances(ev)) <==>
            !AllPending(run[n].master.connections)
    ensures AllPending(run[n].master.connections) ==> |run[n].master.connections| >= 0x1_0000
  {
    LockStepInv(run, evs, setup, n);
    hide IsLockStepRun;
    if !AllPending(run[n].master.connections) {
      SomethingCanHappen(run[n], setup.theta);
    }
    forall ev | StaysInStep(run[n], ev, setup.theta) && Advances(ev)
      ensures !AllPending(run[n].master.connections)
    {
      AdvancesSyncing(run[n], ev, setup.theta);
    }
  }

  /** Deliveries and timeouts. */
  predicate Advances(ev: NetEvent) {
    ev.ClientReceives? || ev.MasterReceives? || ev.MasterTimeout?
  }

  lemma AdvancesSyncing(s: System, ev: NetEvent, theta: Clocks)
    requires LockInv(s, theta) && CanHappen(s, ev, theta) && Advances(ev)
    ensures !AllPending(s.master.connections)
  {
    hide Inv, HeardFinal;
    match ev {
      case ClientReceives(e, tp, _, _, _) => LiveConnection(s, e, ToClient(tp), theta);
      case MasterReceives(e, tp, _) => LiveConnection(s, e, ToMaster(tp), theta);
      case MasterTimeout(e, _) => TimerMeansSyncing(s.master, e);
    }
  }

  lemma SomethingCanHappen(s: System, theta: Clocks)
    requires LockInv(s, theta) && s.master.listening && s.now > 0 && !AllPending(s.master.connections)
    ensures exists ev :: StaysInStep(s, ev, theta) && Advances(ev)
  {
    var e :| e in s.master.connections && s.master.connections[e].state != PendingAllSynced;
    assert LinkAt(s, e);
    if s.net[e] == multiset{} {
      assert ConnectionInv(s.master.connections[e]);
      assert StaysInStep(s, MasterTimeout(e, s.now), theta);
    } else {
      var msg :| msg in s.net[e];
      match msg
      case ToClient(tp) =>
        var ev := ClientReceives(e, tp, s.now, s.now, 0.0);
        assert StaysInStep(s, ev, theta);
      case ToMaster(tp) =>
        var ev := MasterReceives(e, tp, s.now);
        assert StaysInStep(s, ev, theta);
    }
  }
}
