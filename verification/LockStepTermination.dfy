/** A lock-step run is short: it reaches the barrier. */
module LockStepTermination {
  import opened TimePackets
  import ClientModel
  import opened MasterModel
  import opened MasterRuns
  import opened SyncNetwork
  import opened LockStep

  function Weight(bag: multiset<Message>): nat {
    if Requested(bag) then 2 else if Replied(bag) then 1 else 0
  }

  function WorkAt(s: System, e: Endpoint): nat
    requires e in s.net
  {
    3 * RankAt(s.master.connections, e) + Weight(s.net[e])
  }

  function Work(s: System, theta: Clocks): map<Endpoint, nat>
    requires KnownTo(s, theta)
  {
    map e | e in theta :: WorkAt(s, e)
  }

  /** Everything but the passing of time and the completion of data sends. */
  predicate Busy(ev: NetEvent) {
    !ev.Wait? && !ev.MasterCompletion?
  }

  function Where(ev: NetEvent): Endpoint
    requires Busy(ev)
  {
    match ev
    case Lose(e, _) => e
    case Duplicate(e, _) => e
    case ClientReceives(e, _, _, _, _) => e
    case MasterReceives(e, _, _) => e
    case MasterTimeout(e, _) => e
  }

  lemma BagWork(bag: multiset<Message>, msg: Message)
    requires OneLive(bag, msg.tp.tpType) && msg in bag
    ensures Weight(bag - multiset{msg}) == 0
    ensures msg.ToMaster? ==> Weight(bag) == 1
    ensures msg.ToClient? ==> Weight(bag) == 2
    ensures msg.ToClient? ==> forall tp :: Weight(bag - multiset{msg} + multiset{ToMaster(tp)}) == 1
  {
    OneMessage(bag, msg, msg.tp.tpType);
    Singleton(msg);
    forall tp
      ensures Weight(bag - multiset{msg} + multiset{ToMaster(tp)}) == 1
    {
      Singleton(ToMaster(tp));
      assert bag - multiset{msg} + multiset{ToMaster(tp)} == multiset{ToMaster(tp)};
    }
  }

  lemma LiveBag(s: System, e: Endpoint, msg: Message, theta: Clocks)
    requires LockInv(s, theta) && e in theta && msg in s.net[e]
    ensures OneLive(s.net[e], msg.tp.tpType)
  {
    hide Inv, HeardFinal;
    LiveConnection(s, e, msg, theta);
    LiveMeansSyncing(s.master.connections[e], s.net[e], |s.clients[e].samples|, HeardFinal(s.heard[e]), msg);
  }

  lemma MoveWork(m: MasterState, e: Endpoint, c: Connection, tp: TPacket)
    requires e in m.connections && Closer(m.connections[e], c)
    ensures RankAt(Moved(m, e, c, tp).connections, e) < RankAt(m.connections, e)
    ensures forall f :: f != e ==> RankAt(Moved(m, e, c, tp).connections, f) == RankAt(m.connections, f)
    ensures Weight(NewlySent(m, Moved(m, e, c, tp), e)) == 2
  {
    hide Closer, RankAt;
    MovedLowersRank(m, e, c, tp);
    SentByMove(m, e, c, tp);
    Singleton(ToClient(tp));
  }

  /** A busy step leaves less work at its endpoint and no more elsewhere. */
  predicate LessWork(s: System, r: System, e: Endpoint, theta: Clocks)
    requires KnownTo(s, theta) && KnownTo(r, theta) && e in theta
  {
    WorkAt(r, e) < WorkAt(s, e) && forall f :: f in theta && f != e ==> WorkAt(r, f) <= WorkAt(s, f)
  }

  lemma LoseWork(s: System, e: Endpoint, msg: Message, theta: Clocks)
    requires LockInv(s, theta) && CanHappen(s, Lose(e, msg), theta)
    ensures LessWork(s, Next(s, Lose(e, msg), theta), e, theta)
  {
    hide LockInv, Weight, RankAt, OneLive;
    LiveBag(s, e, msg, theta);
    BagWork(s.net[e], msg);
  }

  lemma ClientWork(s: System, e: Endpoint, tp: TPacket, sent: int, done: int, paStart: real, theta: Clocks)
    requires LockInv(s, theta) && CanHappen(s, ClientReceives(e, tp, sent, done, paStart), theta)
    ensures LessWork(s, Next(s, ClientReceives(e, tp, sent, done, paStart), theta), e, theta)
  {
    hide LockInv, Weight, RankAt, ClientModel.OnTimesync, ClientModel.CarriesOffset, ClientModel.Echo, OneLive;
    LiveBag(s, e, ToClient(tp), theta);
    BagWork(s.net[e], ToClient(tp));
  }

  lemma MoverWork(s: System, e: Endpoint, c: Connection, tp: TPacket, rest: multiset<Message>, clock: int,
                  theta: Clocks)
    requires KnownTo(s, theta) && e in theta && e in s.master.connections
    requires Closer(s.master.connections[e], c) && rest == multiset{}
    ensures LessWork(s, MasterMoves(s, Moved(s.master, e, c, tp), e, rest, clock), e, theta)
  {
    hide Closer, RankAt, Weight, NewlySent, Moved;
    MoveWork(s.master, e, c, tp);
    var r := Moved(s.master, e, c, tp);
    assert rest + NewlySent(s.master, r, e) == NewlySent(s.master, r, e);
  }

  lemma SettlerWork(s: System, r: MasterState, e: Endpoint, clock: int, theta: Clocks)
    requires LockInv(s, theta) && e in theta && e in s.master.connections && Syncing(s.master.connections[e])
    requires Settled(s.master, r, e, clock)
    ensures LessWork(s, MasterMoves(s, r, e, multiset{}, clock), e, theta)
  {
    LockInvMaster(s, theta);
    SettledLowersRank(s.master, r, e, clock);
    SettledOthers(s.master, r, e, clock);
    NothingSent(s.master, r, e);
    hide LockInv, RankAt, NewlySent, Settled, HeardFinal, Syncing, ConnectionInv, Weight;
    NoWeight();
  }

  lemma NoWeight()
    ensures Weight(multiset{}) == 0
  {
  }

  lemma MasterWork(s: System, ev: NetEvent, theta: Clocks)
    requires LockInv(s, theta) && CanHappen(s, ev, theta) && InStep(s, ev, theta)
    requires ev.MasterReceives? || ev.MasterTimeout?
    ensures LessWork(s, Next(s, ev, theta), Where(ev), theta)
  {
    hide Inv, ConnectionInv, Link, HeardFinal, Receive, Timeout, Moved, Settled, MasterMoves, Closer, LessWork, LockInv;
    LockInvMaster(s, theta);
    var m, e := s.master, Where(ev);
    match ev {
      case MasterReceives(_, tp, clock) =>
        LiveConnection(s, e, ToMaster(tp), theta);
        LiveBag(s, e, ToMaster(tp), theta);
        OneMessage(s.net[e], ToMaster(tp), tp.tpType);
        SyncingRounds(m, e);
        var c, rest := m.connections[e], s.net[e] - multiset{ToMaster(tp)};
        if c.state == SentInitial {
          ReplyToInitial(m, e, tp, s.now, clock);
          MoverWork(s, e, AwaitingFinal(c, FinalFor(c, tp, s.now)), FinalFor(c, tp, s.now), rest, clock, theta);
        } else if c.syncRounds + 1 < NTP_ROUNDS {
          ReplyToFinal(m, e, tp, s.now, clock);
          MoverWork(s, e, NextRound(c), Request(clock), rest, clock, theta);
        } else {
          ReplyToLastFinal(m, e, tp, s.now, clock);
          SettlerWork(s, Receive(m, e, tp, s.now, clock), e, clock, theta);
        }
      case MasterTimeout(_, clock) =>
        ArmedMeansSyncing(s, e, theta);
        TimeoutStep(m, e, clock);
        var c := m.connections[e];
        if c.attempts > 2 {
          SettlerWork(s, Timeout(m, e, clock), e, clock, theta);
        } else {
          MoverWork(s, e, Retried(c), Resend(c, clock), s.net[e], clock, theta);
        }
      case _ =>
    }
  }

  lemma ArmedMeansSyncing(s: System, e: Endpoint, theta: Clocks)
    requires LockInv(s, theta) && e in s.master.connections && s.master.connections[e].timer != NoTimer
    ensures Syncing(s.master.connections[e]) && Inv(s.master)
  {
    assert ConnectionInv(s.master.connections[e]);
  }

  /** Time passing and data completions add no work. */
  lemma IdleWork(s: System, ev: NetEvent, theta: Clocks)
    requires LockInv(s, theta) && CanHappen(s, ev, theta) && !Busy(ev)
    ensures Work(Next(s, ev, theta), theta) == Work(s, theta)
  {
    hide LockInv, Completion, RankAt, Weight;
  }

  /** The busy events among the first n. */
  function BusySteps(evs: seq<NetEvent>, n: nat): nat
    requires n <= |evs|
  {
    if n == 0 then 0 else BusySteps(evs, n - 1) + (if Busy(evs[n - 1]) then 1 else 0)
  }

  lemma StepWork(s: System, ev: NetEvent, theta: Clocks)
    requires LockInv(s, theta) && CanHappen(s, ev, theta) && InStep(s, ev, theta)
    ensures Total(Work(Next(s, ev, theta), theta), theta.Keys) + (if Busy(ev) then 1 else 0)
            <= Total(Work(s, theta), theta.Keys)
  {
    hide LockInv, Next, WorkAt;
    var r := Next(s, ev, theta);
    if !Busy(ev) {
      IdleWork(s, ev, theta);
    } else {
      match ev {
        case Lose(e, msg) => LoseWork(s, e, msg, theta);
        case ClientReceives(e, tp, sent, done, paStart) => ClientWork(s, e, tp, sent, done, paStart, theta);
        case _ => MasterWork(s, ev, theta);
      }
      TotalDrops(Work(r, theta), Work(s, theta), theta.Keys, Where(ev));
    }
  }

  lemma LinkWork(s: System, ev: NetEvent, r: System, theta: Clocks)
    requires LockInv(s, theta) && LeadsTo(s, ev, theta, r) && StaysInStep(s, ev, theta)
    ensures KnownTo(s, theta) && KnownTo(r, theta)
    ensures Total(Work(r, theta), theta.Keys) + (if Busy(ev) then 1 else 0) <= Total(Work(s, theta), theta.Keys)
  {
    hide Next, InStep, CanHappen, Busy, Work, Total;
    StepWork(s, ev, theta);
  }

  lemma {:induction false} RunWork(run: seq<System>, evs: seq<NetEvent>, setup: Setup, n: nat)
    requires IsLockStepRun(run, evs, setup) && n <= |evs|
    ensures KnownTo(run[0], setup.theta) && KnownTo(run[n], setup.theta)
    ensures Total(Work(run[n], setup.theta), setup.theta.Keys) + BusySteps(evs, n)
            <= Total(Work(run[0], setup.theta), setup.theta.Keys)
  {
    hide LeadsTo, Starts, StaysInStep, LockInv, Busy, Work, Total;
    if n == 0 {
      StartsKnown(run[0], setup);
    } else {
      LockStepInv(run, evs, setup, n - 1);
      RunWork(run, evs, setup, n - 1);
      LinkWork(run[n - 1], evs[n - 1], run[n], setup.theta);
    }
  }

  lemma StartsKnown(s: System, setup: Setup)
    requires Starts(s, setup)
    ensures KnownTo(s, setup.theta)
  {
    hide Start;
  }

  /** A lock-step run takes at most 239 steps per client besides waiting and streaming; as it never gets
      stuck before, it reaches the barrier. */
  lemma LockStepTerminates(run: seq<System>, evs: seq<NetEvent>, setup: Setup, n: nat)
    requires IsLockStepRun(run, evs, setup) && n <= |evs|
    ensures BusySteps(evs, n) <= 239 * |setup.theta|
  {
    hide LeadsTo, Starts, StaysInStep, Work, BusySteps;
    RunWork(run, evs, setup, n);
    WorkBound(run[0], setup.theta);
  }

  lemma WorkBound(s: System, theta: Clocks)
    requires KnownTo(s, theta)
    ensures Total(Work(s, theta), theta.Keys) <= 239 * |theta|
  {
    assert |theta.Keys| == |theta|;
    TotalBound(Work(s, theta), theta.Keys, 239);
  }
}
