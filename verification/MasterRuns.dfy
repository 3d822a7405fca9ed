/** Safety of the barrier and termination of the sync phase, for the master alone
    under any sequence of packets, timeouts and completions from any endpoints. */
module MasterRuns {
  import opened TimePackets
  import opened MasterModel

  predicate Syncing(c: Connection) {
    c.state == SentInitial || c.state == SentFinal
  }

  predicate ConnectionInv(c: Connection) {
    match c.state
    case Naked => c.timer == NoTimer && c.syncRounds == 0
    case SentInitial => c.timer == ResendInitial && 1 <= c.attempts <= 3 && 0 <= c.syncRounds < NTP_ROUNDS
    case SentFinal => c.timer.ResendFinal? && 1 <= c.attempts <= 3 && 0 <= c.syncRounds < NTP_ROUNDS
    case PendingAllSynced => c.timer == NoTimer && c.syncRounds == NTP_ROUNDS
    case SendingData => c.timer == NoTimer && c.syncRounds == NTP_ROUNDS
  }

  function Pending(cs: Connections): set<Endpoint> {
    set e | e in cs && cs[e].state == PendingAllSynced
  }

  /** While the master listens, `synced` counts the pending connections (in 16 bits) and the barrier
      is closed only because some connection is not pending or there are too many to count;
      afterwards every connection streams, but for strangers that wrote late. */
  predicate Inv(m: MasterState) {
    && !m.panicked
    && HasBuffer(m.stream)
    && (forall e :: e in m.connections ==> ConnectionInv(m.connections[e]))
    && (if m.listening then
          && m.armed
          && Counted(m)
          && (!AllPending(m.connections) || |m.connections| >= 0x1_0000)
        else
          forall e :: e in m.connections ==> m.connections[e].state in {SendingData, Naked})
  }

  predicate Counted(m: MasterState) {
    && m.synced == Uint16(|Pending(m.connections)|)
    && forall e :: e in m.connections ==> m.connections[e].state != SendingData
  }

  /** A listening master about to act on connection e, which is not pending. */
  predicate ActingOn(m: MasterState, e: Endpoint) {
    && !m.panicked && m.listening && m.armed
    && HasBuffer(m.stream)
    && Counted(m)
    && e in m.connections
    && (forall f :: f in m.connections && f != e ==> ConnectionInv(m.connections[f]))
    && var c := m.connections[e];
       c.state != PendingAllSynced && 0 <= c.attempts <= 3 && 0 <= c.syncRounds < NTP_ROUNDS
  }

  lemma AllPendingIsFull(cs: Connections)
    ensures AllPending(cs) <==> |Pending(cs)| == |cs|
    ensures |Pending(cs)| <= |cs|
  {
    assert Pending(cs) <= cs.Keys;
    CardinalitySubset(Pending(cs), cs.Keys);
    assert AllPending(cs) ==> Pending(cs) == cs.Keys;
    assert Pending(cs) == cs.Keys ==> forall e :: e in cs ==> e in Pending(cs);
  }

  lemma {:induction false} CardinalitySubset<T>(a: set<T>, b: set<T>)
    requires a <= b
    ensures |a| <= |b|
    ensures |a| == |b| ==> a == b
  {
    if a != {} {
      var x :| x in a;
      CardinalitySubset(a - {x}, b - {x});
    }
  }

  /** Either the barrier stays closed and nothing changes, or every connection is pending, the count
      fits in 16 bits, all are released and the first packet is sent. */
  predicate BarrierOutcome(m: MasterState, r: MasterState, clock: int) {
    && HasBuffer(m.stream)
    && if r.listening then r == m
       else && AllPending(m.connections) && |m.connections| < 0x1_0000
            && r == m.(connections := AllSending(m.connections), listening := false,
                       stream := SendData(m.stream, m.connections.Keys, clock))
  }

  /** The barrier opens exactly when every connection is pending and the count fits in 16 bits;
      the check inside it never fails. */
  lemma BarrierSafe(m: MasterState, clock: int)
    requires !m.panicked && m.listening && HasBuffer(m.stream) && Counted(m) && m.armed
    requires forall e :: e in m.connections ==> ConnectionInv(m.connections[e])
    ensures Inv(TrySendData(m, clock))
    ensures TrySendData(m, clock).listening <==> !AllPending(m.connections) || |m.connections| >= 0x1_0000
    ensures BarrierOutcome(m, TrySendData(m, clock), clock)
  {
    hide SendData;
    AllPendingIsFull(m.connections);
  }

  lemma PendingWithout(cs: Connections, e: Endpoint)
    requires e in cs ==> cs[e].state != PendingAllSynced
    ensures Pending(cs - {e}) == Pending(cs)
  {
  }

  lemma PendingUpdate(cs: Connections, e: Endpoint, c: Connection)
    requires e in cs ==> cs[e].state != PendingAllSynced
    ensures Pending(cs[e := c]) == Pending(cs) + if c.state == PendingAllSynced then {e} else {}
    ensures e !in Pending(cs)
  {
  }

  lemma GiveUpSafe(m: MasterState, e: Endpoint, clock: int)
    requires ActingOn(m, e)
    ensures Inv(GiveUp(m, e, clock))
    ensures BarrierOutcome(m.(connections := m.connections - {e}), GiveUp(m, e, clock), clock)
  {
    hide TrySendData;
    PendingWithout(m.connections, e);
    BarrierSafe(m.(connections := m.connections - {e}), clock);
  }

  /** Connection e becomes c and is sent tp; nothing else changes. */
  function Moved(m: MasterState, e: Endpoint, c: Connection, tp: TPacket): MasterState {
    m.(connections := m.connections[e := c], timeLog := Push(m.timeLog, e, tp))
  }

  lemma SendInitialSafe(m: MasterState, e: Endpoint, clock: int)
    requires ActingOn(m, e)
    ensures Inv(SendInitial(m, e, clock))
    ensures if m.connections[e].attempts > 2 then SendInitial(m, e, clock) == GiveUp(m, e, clock)
            else SendInitial(m, e, clock) ==
                 Moved(m, e, m.connections[e].(state := SentInitial, timer := ResendInitial,
                                               attempts := m.connections[e].attempts + 1), Request(clock))
  {
    hide GiveUp;
    if m.connections[e].attempts > 2 {
      GiveUpSafe(m, e, clock);
    } else {
      var r := SendInitial(m, e, clock);
      PendingUpdate(m.connections, e, r.connections[e]);
    }
  }

  lemma SendFinalSafe(m: MasterState, e: Endpoint, tp: TPacket, clock: int)
    requires ActingOn(m, e)
    ensures Inv(SendFinal(m, e, tp, clock))
    ensures if m.connections[e].attempts > 2 then SendFinal(m, e, tp, clock) == GiveUp(m, e, clock)
            else var marked := Marked(tp, m.connections[e].syncRounds);
                 SendFinal(m, e, tp, clock) ==
                 Moved(m, e, m.connections[e].(state := SentFinal, timer := ResendFinal(marked),
                                               attempts := m.connections[e].attempts + 1), marked)
  {
    hide GiveUp;
    if m.connections[e].attempts > 2 {
      GiveUpSafe(m, e, clock);
    } else {
      var r := SendFinal(m, e, tp, clock);
      PendingUpdate(m.connections, e, r.connections[e]);
    }
  }

  // ----- One step -----

  /** Phases completed by a connection: two a round. */
  function Phase(c: Connection): int {
    2 * c.syncRounds + if c.state == SentFinal then 1 else 0
  }

  /** Steps a connection can still take in the sync phase. */
  function Rank(c: Connection): nat {
    if Syncing(c) && ConnectionInv(c) then 80 - 4 * Phase(c) - c.attempts else 0
  }

  /** Time packets a connection may have been sent so far. */
  function Allowance(c: Connection): int {
    if Syncing(c) then 3 * Phase(c) + c.attempts else 60
  }

  /** Connection e is closer to the end of its sync phase, by one more time packet. */
  predicate Closer(c: Connection, d: Connection) {
    Syncing(d) && ConnectionInv(d) && Rank(d) < Rank(c) && Allowance(c) < Allowance(d)
  }

  /** Connection e left the sync phase; the others are as before, or the barrier released all. */
  predicate Settled(m: MasterState, r: MasterState, e: Endpoint, clock: int)
    requires e in m.connections && HasBuffer(m.stream)
  {
    && r.timeLog == m.timeLog
    && m.connections.Keys - {e} <= r.connections.Keys <= m.connections.Keys
    && (e in r.connections ==> !Syncing(r.connections[e]) && r.connections[e].syncRounds == NTP_ROUNDS)
    && (forall f :: f in r.connections && f != e ==>
          || r.connections[f] == m.connections[f]
          || (m.connections[f].state == PendingAllSynced && r.connections[f].state == SendingData))
    && if r.listening then r.stream == m.stream
       else && |r.connections| < 0x1_0000
            && r.stream == SendData(m.stream, r.connections.Keys, clock)
            && forall f :: f in r.connections ==> r.connections[f].state == SendingData
  }

  /** The connection after its timer re-sent: one more attempt. */
  function Retried(c: Connection): Connection {
    var timer := if c.timer.ResendFinal? then ResendFinal(Marked(c.timer.tp, c.syncRounds)) else c.timer;
    c.(timer := timer, attempts := c.attempts + 1)
  }

  /** What the timer of a syncing connection sends. */
  function Resend(c: Connection, clock: int): TPacket {
    if c.timer.ResendFinal? then Marked(c.timer.tp, c.syncRounds) else Request(clock)
  }

  lemma RetryStep(m: MasterState, e: Endpoint, clock: int)
    requires Inv(m) && e in m.connections && m.connections[e].timer != NoTimer && m.connections[e].attempts <= 2
    ensures var r, c := Timeout(m, e, clock), m.connections[e];
            Inv(r) && r == Moved(m, e, Retried(c), Resend(c, clock))
  {
    hide SendInitial, SendFinal, GiveUp;
    assert ConnectionInv(m.connections[e]);
    match m.connections[e].timer {
      case ResendInitial => SendInitialSafe(m, e, clock);
      case ResendFinal(tp) => SendFinalSafe(m, e, tp, clock);
    }
  }

  lemma RetryIsCloser(c: Connection)
    requires ConnectionInv(c) && c.timer != NoTimer && c.attempts <= 2
    ensures Closer(c, Retried(c))
  {
  }

  lemma GiveUpSettles(m: MasterState, r: MasterState, e: Endpoint, clock: int)
    requires HasBuffer(m.stream) && e in m.connections && m.listening
    requires BarrierOutcome(m.(connections := m.connections - {e}), r, clock)
    ensures Settled(m, r, e, clock) && e !in r.connections
  {
    hide SendData;
  }

  lemma TimerActs(m: MasterState, e: Endpoint)
    requires Inv(m) && e in m.connections && m.connections[e].timer != NoTimer
    ensures HasBuffer(m.stream) && m.listening && ActingOn(m, e)
  {
    assert ConnectionInv(m.connections[e]);
  }

  lemma GiveUpStep(m: MasterState, e: Endpoint, clock: int)
    requires Inv(m) && e in m.connections && m.connections[e].timer != NoTimer && m.connections[e].attempts > 2
    ensures var r := Timeout(m, e, clock); Inv(r) && Settled(m, r, e, clock) && e !in r.connections
  {
    hide SendInitial, SendFinal, GiveUp, Settled, BarrierOutcome, ActingOn, Inv;
    TimerActs(m, e);
    match m.connections[e].timer {
      case ResendInitial => SendInitialSafe(m, e, clock);
      case ResendFinal(tp) => SendFinalSafe(m, e, tp, clock);
    }
    GiveUpSafe(m, e, clock);
    GiveUpSettles(m, GiveUp(m, e, clock), e, clock);
  }

  lemma TimeoutStep(m: MasterState, e: Endpoint, clock: int)
    requires Inv(m) && e in m.connections && m.connections[e].timer != NoTimer
    ensures var r, c := Timeout(m, e, clock), m.connections[e];
            Inv(r)
            && if c.attempts > 2 then Settled(m, r, e, clock) && e !in r.connections
               else r == Moved(m, e, Retried(c), Resend(c, clock)) && Closer(c, Retried(c))
  {
    hide Timeout, Settled, Moved, Closer, Retried, Resend;
    assert ConnectionInv(m.connections[e]);
    if m.connections[e].attempts > 2 {
      GiveUpStep(m, e, clock);
    } else {
      RetryStep(m, e, clock);
      RetryIsCloser(m.connections[e]);
    }
  }

  /** Give-up erases nothing but a connection that is still syncing, after its third attempt. */
  lemma GiveUpOnlyUnsynced(m: MasterState, e: Endpoint, clock: int)
    requires Inv(m) && e in m.connections && m.connections[e].timer != NoTimer
    ensures e !in Timeout(m, e, clock).connections <==> m.connections[e].attempts == 3
    ensures Syncing(m.connections[e])
    ensures forall f :: f in m.connections && f != e ==> f in Timeout(m, e, clock).connections
  {
    hide SendInitial, SendFinal, GiveUp;
    match m.connections[e].timer {
      case ResendInitial => SendInitialSafe(m, e, clock);
      case ResendFinal(tp) => SendFinalSafe(m, e, tp, clock);
    }
    if m.connections[e].attempts > 2 {
      GiveUpSafe(m, e, clock);
    }
  }

  /** The timer is cancelled before the state is looked at. */
  lemma DemultiplexSyncing(m: MasterState, e: Endpoint)
    requires Inv(m) && e in m.connections && Syncing(m.connections[e])
    ensures ActingOn(Demultiplex(m, e), e)
    ensures Demultiplex(m, e).connections == m.connections[e := m.connections[e].(timer := NoTimer, attempts := 0)]
  {
    PendingUpdate(m.connections, e, m.connections[e].(timer := NoTimer, attempts := 0));
  }

  /** The packet and the connection after the reply to an initial timesync. */
  function FinalFor(c: Connection, tp: TPacket, fromRecvd: int): TPacket {
    Marked(Completed(tp, fromRecvd), c.syncRounds)
  }

  function AwaitingFinal(c: Connection, tp: TPacket): Connection {
    Connection(1, c.syncRounds, ResendFinal(tp), SentFinal)
  }

  lemma ReplyToInitial(m: MasterState, e: Endpoint, tp: TPacket, fromRecvd: int, clock: int)
    requires Inv(m) && e in m.connections && m.connections[e].state == SentInitial
    ensures var c := m.connections[e]; var final := FinalFor(c, tp, fromRecvd);
            && Receive(m, e, tp, fromRecvd, clock) == Moved(m, e, AwaitingFinal(c, final), final)
            && Inv(Receive(m, e, tp, fromRecvd, clock))
            && Closer(c, AwaitingFinal(c, final))
  {
    hide SendFinal;
    var d := Demultiplex(m, e);
    DemultiplexSyncing(m, e);
    SendFinalSafe(d, e, Completed(tp, fromRecvd), clock);
    var r := Receive(m, e, tp, fromRecvd, clock);
    assert r == SendFinal(d, e, Completed(tp, fromRecvd), clock);
    assert r.connections == m.connections[e := r.connections[e]];
  }

  function NextRound(c: Connection): Connection {
    Connection(1, c.syncRounds + 1, ResendInitial, SentInitial)
  }

  /** The state in which a final reply that is not the tenth sends the next request. */
  function NextRoundBegun(m: MasterState, e: Endpoint): MasterState
    requires e in m.connections
  {
    m.(connections := m.connections[e := Connection(0, m.connections[e].syncRounds + 1, NoTimer, SentFinal)])
  }

  lemma NextRoundDispatch(m: MasterState, e: Endpoint, tp: TPacket, fromRecvd: int, clock: int)
    requires HasBuffer(m.stream) && e in m.connections && m.connections[e].state == SentFinal
    requires m.connections[e].syncRounds + 1 < NTP_ROUNDS
    ensures Dispatch(Demultiplex(m, e), e, tp, fromRecvd, clock) == SendInitial(NextRoundBegun(m, e), e, clock)
  {
    hide SendInitial, SendFinal, TrySendData;
    var d := Demultiplex(m, e);
    assert d.connections[e := NextRoundBegun(m, e).connections[e]] == NextRoundBegun(m, e).connections;
  }

  lemma NextRoundActing(m: MasterState, e: Endpoint)
    requires Inv(m) && e in m.connections && m.connections[e].state == SentFinal
    requires m.connections[e].syncRounds + 1 < NTP_ROUNDS
    ensures ActingOn(NextRoundBegun(m, e), e)
    ensures m.listening && m.armed && HasBuffer(m.stream) && Closer(m.connections[e], NextRound(m.connections[e]))
  {
    assert ConnectionInv(m.connections[e]);
    PendingUpdate(m.connections, e, NextRoundBegun(m, e).connections[e]);
  }

  lemma ReplyToFinal(m: MasterState, e: Endpoint, tp: TPacket, fromRecvd: int, clock: int)
    requires Inv(m) && e in m.connections && m.connections[e].state == SentFinal
    requires m.connections[e].syncRounds + 1 < NTP_ROUNDS
    ensures var c := m.connections[e];
            && Receive(m, e, tp, fromRecvd, clock) == Moved(m, e, NextRound(c), Request(clock))
            && Inv(Receive(m, e, tp, fromRecvd, clock))
            && Closer(c, NextRound(c))
  {
    hide SendInitial, SendFinal, TrySendData, Inv, ActingOn, Counted;
    var n := NextRoundBegun(m, e);
    NextRoundActing(m, e);
    NextRoundDispatch(m, e, tp, fromRecvd, clock);
    SendInitialSafe(n, e, clock);
    assert n.connections[e := NextRound(m.connections[e])] == m.connections[e := NextRound(m.connections[e])];
  }

  /** The state in which the tenth final reply of connection e meets the barrier. */
  function LastRoundDone(d: MasterState, e: Endpoint): MasterState
    requires e in d.connections
  {
    var synced := d.connections[e].(syncRounds := NTP_ROUNDS, state := PendingAllSynced);
    d.(connections := d.connections[e := synced], synced := Uint16(d.synced + 1))
  }

  lemma LastDispatch(d: MasterState, e: Endpoint, tp: TPacket, fromRecvd: int, clock: int)
    requires HasBuffer(d.stream) && e in d.connections
    requires d.connections[e].state == SentFinal && d.connections[e].syncRounds + 1 == NTP_ROUNDS
    ensures Dispatch(d, e, tp, fromRecvd, clock) == TrySendData(LastRoundDone(d, e), clock)
  {
    hide TrySendData;
    var counted := d.connections[e].(syncRounds := NTP_ROUNDS);
    assert d.connections[e := counted.(state := PendingAllSynced)] == LastRoundDone(d, e).connections;
  }

  lemma LastRoundInv(d: MasterState, e: Endpoint)
    requires ActingOn(d, e) && d.connections[e].timer == NoTimer
    ensures forall f :: f in d.connections ==> ConnectionInv(LastRoundDone(d, e).connections[f])
  {
    hide Counted;
  }

  lemma LastRoundCounted(d: MasterState, e: Endpoint)
    requires ActingOn(d, e) && d.connections[e].timer == NoTimer
    ensures Counted(LastRoundDone(d, e))
    ensures forall f :: f in d.connections ==> ConnectionInv(LastRoundDone(d, e).connections[f])
  {
    hide ConnectionInv;
    LastRoundInv(d, e);
    PendingUpdate(d.connections, e, LastRoundDone(d, e).connections[e]);
  }

  lemma LastReplyMeetsBarrier(m: MasterState, e: Endpoint, tp: TPacket, fromRecvd: int, clock: int)
    requires Inv(m) && e in m.connections && m.connections[e].state == SentFinal
    requires m.connections[e].syncRounds + 1 == NTP_ROUNDS
    ensures var n := LastRoundDone(Demultiplex(m, e), e); var b := TrySendData(n, clock);
            && Receive(m, e, tp, fromRecvd, clock) == b.(armed := b.listening)
            && Inv(b.(armed := b.listening))
            && n.timeLog == m.timeLog
            && n.connections == m.connections[e := Connection(0, NTP_ROUNDS, NoTimer, PendingAllSynced)]
            && BarrierOutcome(n, b, clock)
            && n.stream == m.stream
  {
    hide TrySendData, Dispatch, Counted, SendData, Inv, ConnectionInv, AllPending, AllSending;
    DemultiplexSyncing(m, e);
    LastDispatch(Demultiplex(m, e), e, tp, fromRecvd, clock);
    LastRoundCounted(Demultiplex(m, e), e);
    BarrierSafe(LastRoundDone(Demultiplex(m, e), e), clock);
    StillInv(TrySendData(LastRoundDone(Demultiplex(m, e), e), clock));
  }

  lemma ReplyToLastFinal(m: MasterState, e: Endpoint, tp: TPacket, fromRecvd: int, clock: int)
    requires Inv(m) && e in m.connections && m.connections[e].state == SentFinal
    requires m.connections[e].syncRounds + 1 == NTP_ROUNDS
    ensures var r := Receive(m, e, tp, fromRecvd, clock);
            Inv(r) && Settled(m, r, e, clock) && r.connections.Keys == m.connections.Keys
  {
    hide TrySendData, Receive, Demultiplex, LastRoundDone, ConnectionInv, SendData, Inv, Uint16;
    LastReplyMeetsBarrier(m, e, tp, fromRecvd, clock);
  }

  /** A receive is pending exactly while the master listens. */
  lemma StillInv(m: MasterState)
    requires Inv(m)
    ensures Inv(m.(armed := m.listening))
  {
  }

  /** A reply moves a syncing connection on, to its next phase or out of the sync phase. */
  lemma ReceiveSyncing(m: MasterState, e: Endpoint, tp: TPacket, fromRecvd: int, clock: int)
    requires Inv(m) && e in m.connections && Syncing(m.connections[e])
    ensures var r, c := Receive(m, e, tp, fromRecvd, clock), m.connections[e];
            Inv(r) && e in r.connections
            && if Phase(c) == 2 * NTP_ROUNDS - 1 then Settled(m, r, e, clock)
               else Closer(c, r.connections[e]) && Phase(r.connections[e]) == Phase(c) + 1
                    && exists sent :: r == Moved(m, e, r.connections[e], sent)
  {
    hide Receive;
    var c := m.connections[e];
    var r := Receive(m, e, tp, fromRecvd, clock);
    if c.state == SentInitial {
      ReplyToInitial(m, e, tp, fromRecvd, clock);
      assert r == Moved(m, e, r.connections[e], FinalFor(c, tp, fromRecvd));
    } else if c.syncRounds + 1 < NTP_ROUNDS {
      ReplyToFinal(m, e, tp, fromRecvd, clock);
      assert r == Moved(m, e, r.connections[e], Request(clock));
    } else {
      ReplyToLastFinal(m, e, tp, fromRecvd, clock);
    }
  }

  lemma ReceiveFromStranger(m: MasterState, e: Endpoint, tp: TPacket, fromRecvd: int, clock: int)
    requires Inv(m) && Lookup(m.connections, e).state == Naked
    ensures Inv(Receive(m, e, tp, fromRecvd, clock))
    ensures Receive(m, e, tp, fromRecvd, clock) ==
            m.(connections := m.connections[e := Lookup(m.connections, e).(attempts := 0)], armed := m.listening)
  {
    hide SendInitial, SendFinal, TrySendData;
    var c := Lookup(m.connections, e).(attempts := 0);
    var r := m.(connections := m.connections[e := c], armed := m.listening);
    assert Demultiplex(m, e) == r.(armed := m.armed);
    PendingUpdate(m.connections, e, c);
    assert r.connections[e].state == Naked;
  }

  lemma ReceiveOther(m: MasterState, e: Endpoint, tp: TPacket, fromRecvd: int, clock: int)
    requires Inv(m) && !(e in m.connections && Syncing(m.connections[e]))
    ensures var r := Receive(m, e, tp, fromRecvd, clock);
            if Lookup(m.connections, e).state == Naked then
              && Inv(r)
              && r == m.(connections := m.connections[e := Lookup(m.connections, e).(attempts := 0)],
                         armed := m.listening)
            else r.panicked
  {
    if Lookup(m.connections, e).state == Naked {
      hide Receive;
      ReceiveFromStranger(m, e, tp, fromRecvd, clock);
    }
  }

  /** A packet from a syncing connection moves it on; a packet from a stranger only enters it in the
      map; a packet from any other connection makes the master panic. */
  lemma ReceiveStep(m: MasterState, e: Endpoint, tp: TPacket, fromRecvd: int, clock: int)
    requires Inv(m)
    ensures var r := Receive(m, e, tp, fromRecvd, clock);
            && (r.panicked <==> e in m.connections && m.connections[e].state in {PendingAllSynced, SendingData})
            && (!r.panicked ==> Inv(r))
  {
    hide Receive;
    if e in m.connections && Syncing(m.connections[e]) {
      ReceiveSyncing(m, e, tp, fromRecvd, clock);
    } else {
      ReceiveOther(m, e, tp, fromRecvd, clock);
    }
  }

  /** The only event at which the master can panic. */
  predicate Unexpected(m: MasterState, ev: Event) {
    ev.Received? && ev.from in m.connections && m.connections[ev.from].state in {PendingAllSynced, SendingData}
  }

  lemma StepSafe(m: MasterState, ev: Event)
    requires Inv(m) && Enabled(m, ev)
    ensures Step(m, ev).panicked <==> Unexpected(m, ev)
    ensures !Step(m, ev).panicked ==> Inv(Step(m, ev))
  {
    hide Receive, Timeout, Completion;
    match ev
    case Received(e, tp, fromRecvd, clock) => ReceiveStep(m, e, tp, fromRecvd, clock);
    case TimedOut(e, clock) => TimeoutStep(m, e, clock);
    case SendCompleted(ok, clock) =>
  }

  /** A final timesync that is not answered is sent again as it was, twice. */
  lemma FinalIsRepeated(m: MasterState, e: Endpoint, tp: TPacket, fromRecvd: int, clock: int, again: int, oncemore: int)
    requires Inv(m) && e in m.connections && m.connections[e].state == SentInitial
    ensures var r1 := Receive(m, e, tp, fromRecvd, clock);
            && HasBuffer(r1.stream) && e in r1.connections && r1.connections[e].timer != NoTimer
            && var r2 := Timeout(r1, e, again);
               && HasBuffer(r2.stream) && e in r2.connections && r2.connections[e].timer != NoTimer
               && var final, r3 := FinalFor(m.connections[e], tp, fromRecvd), Timeout(r2, e, oncemore);
                  && Sent(r1.timeLog, e) == Sent(m.timeLog, e) + [final]
                  && Sent(r2.timeLog, e) == Sent(m.timeLog, e) + [final, final]
                  && Sent(r3.timeLog, e) == Sent(m.timeLog, e) + [final, final, final]
  {
    hide Receive, Timeout, Inv, Completed;
    var c := m.connections[e];
    var final := FinalFor(c, tp, fromRecvd);
    BufferOf(m);
    ReplyToInitial(m, e, tp, fromRecvd, clock);
    var r1 := Receive(m, e, tp, fromRecvd, clock);
    BufferOf(r1);
    RetryStep(r1, e, again);
    var r2 := Timeout(r1, e, again);
    BufferOf(r2);
    RetryStep(r2, e, oncemore);
  }

  // ----- Bounds on the sync phase -----

  /** The events that do something in the sync phase. */
  predicate Effective(m: MasterState, ev: Event) {
    || ev.TimedOut?
    || (ev.Received? && ev.from in m.connections && Syncing(m.connections[ev.from]))
  }

  function RankAt(cs: Connections, e: Endpoint): nat {
    if e in cs then Rank(cs[e]) else 0
  }

  ghost function Pick(es: set<Endpoint>): Endpoint
    requires es != {}
    ensures Pick(es) in es
  {
    var e :| e in es;
    e
  }

  /** The sum of the weights of `es`. */
  ghost function Total(weights: map<Endpoint, nat>, es: set<Endpoint>): nat
    requires es <= weights.Keys
  {
    if es == {} then 0 else weights[Pick(es)] + Total(weights, es - {Pick(es)})
  }

  lemma OneMoreTimes(bound: nat, n: nat)
    ensures bound * (n + 1) == bound * n + bound
  {
  }

  lemma {:induction false} TotalBound(weights: map<Endpoint, nat>, es: set<Endpoint>, bound: nat)
    requires es <= weights.Keys && forall e :: e in es ==> weights[e] <= bound
    ensures Total(weights, es) <= bound * |es|
  {
    if es != {} {
      var rest := es - {Pick(es)};
      TotalBound(weights, rest, bound);
      OneMoreTimes(bound, |rest|);
      assert |es| == |rest| + 1;
    }
  }

  lemma {:induction false} TotalDrops(a: map<Endpoint, nat>, b: map<Endpoint, nat>, es: set<Endpoint>, e: Endpoint)
    requires es <= a.Keys && es <= b.Keys && forall f :: f in es ==> a[f] <= b[f]
    ensures Total(a, es) <= Total(b, es)
    ensures e in es && a[e] < b[e] ==> Total(a, es) < Total(b, es)
  {
    if es != {} {
      TotalDrops(a, b, es - {Pick(es)}, e);
    }
  }

  function Ranks(cs: Connections, es: set<Endpoint>): map<Endpoint, nat> {
    map e | e in es :: RankAt(cs, e)
  }

  /** Effective steps the master can still take. */
  ghost function Potential(cs: Connections, es: set<Endpoint>): nat {
    Total(Ranks(cs, es), es)
  }

  lemma MovedLowersRank(m: MasterState, e: Endpoint, c: Connection, tp: TPacket)
    requires e in m.connections && Closer(m.connections[e], c)
    ensures RankAt(Moved(m, e, c, tp).connections, e) < RankAt(m.connections, e)
    ensures forall f :: f != e ==> RankAt(Moved(m, e, c, tp).connections, f) == RankAt(m.connections, f)
  {
  }

  lemma SettledLowersRank(m: MasterState, r: MasterState, e: Endpoint, clock: int)
    requires Inv(m) && e in m.connections && Syncing(m.connections[e]) && Settled(m, r, e, clock)
    ensures RankAt(r.connections, e) == 0 < RankAt(m.connections, e)
    ensures forall f :: f != e ==> RankAt(r.connections, f) <= RankAt(m.connections, f)
  {
    assert ConnectionInv(m.connections[e]);
  }

  lemma PotentialDrops(a: Connections, b: Connections, es: set<Endpoint>, e: Endpoint)
    requires forall f :: f in es ==> RankAt(a, f) <= RankAt(b, f)
    ensures Potential(a, es) <= Potential(b, es)
    ensures e in es && RankAt(a, e) < RankAt(b, e) ==> Potential(a, es) < Potential(b, es)
  {
    TotalDrops(Ranks(a, es), Ranks(b, es), es, e);
  }

  /** Only the endpoints `es` the master was started with ever sync. */
  predicate SyncingWithin(m: MasterState, es: set<Endpoint>) {
    forall e :: e in m.connections && Syncing(m.connections[e]) ==> e in es
  }

  predicate WithinAllowance(m: MasterState) {
    && (forall e :: e in m.connections ==> |Sent(m.timeLog, e)| <= Allowance(m.connections[e]))
    && (forall e :: e in m.timeLog ==> |m.timeLog[e]| <= 60)
  }

  predicate Bounded(m: MasterState, es: set<Endpoint>) {
    Inv(m) && SyncingWithin(m, es) && WithinAllowance(m)
  }

  lemma MovedWithinAllowance(m: MasterState, e: Endpoint, c: Connection, tp: TPacket)
    requires WithinAllowance(m) && e in m.connections && Closer(m.connections[e], c)
    ensures WithinAllowance(Moved(m, e, c, tp))
  {
    hide Rank, Phase;
    var r := Moved(m, e, c, tp);
    assert |Sent(m.timeLog, e)| <= Allowance(m.connections[e]);
    assert |Sent(r.timeLog, e)| == |Sent(m.timeLog, e)| + 1;
    assert forall f :: f != e ==> Sent(r.timeLog, f) == Sent(m.timeLog, f);
    AllowanceBound(c);
  }

  lemma AllowanceBound(c: Connection)
    requires Syncing(c) && ConnectionInv(c)
    ensures Allowance(c) <= 60
  {
  }

  lemma SettledWithinAllowance(m: MasterState, r: MasterState, e: Endpoint, clock: int)
    requires HasBuffer(m.stream) && WithinAllowance(m) && e in m.connections && Settled(m, r, e, clock)
    ensures WithinAllowance(r)
  {
    hide Phase;
    forall f | f in r.connections
      ensures |Sent(r.timeLog, f)| <= Allowance(r.connections[f])
    {
      assert |Sent(m.timeLog, f)| <= Allowance(m.connections[f]);
    }
  }

  /** Connection e moved to a state closer to the end, or settled. */
  ghost predicate Progress(m: MasterState, r: MasterState, e: Endpoint, clock: int)
    requires e in m.connections && HasBuffer(m.stream)
  {
    || Settled(m, r, e, clock)
    || exists c, tp :: Closer(m.connections[e], c) && r == Moved(m, e, c, tp)
  }

  lemma ProgressWithin(m: MasterState, r: MasterState, e: Endpoint, clock: int, es: set<Endpoint>)
    requires SyncingWithin(m, es) && HasBuffer(m.stream) && e in m.connections && Syncing(m.connections[e])
    requires Progress(m, r, e, clock)
    ensures SyncingWithin(r, es)
  {
    hide SendData, ConnectionInv, Rank, Allowance;
  }

  lemma ProgressRanks(m: MasterState, r: MasterState, e: Endpoint, clock: int)
    requires Inv(m) && e in m.connections && Syncing(m.connections[e]) && Progress(m, r, e, clock)
    ensures RankAt(r.connections, e) < RankAt(m.connections, e)
    ensures forall f :: RankAt(r.connections, f) <= RankAt(m.connections, f)
  {
    BufferOf(m);
    hide Inv, Settled, Closer, Moved, RankAt;
    if Settled(m, r, e, clock) {
      SettledLowersRank(m, r, e, clock);
    } else {
      var c, tp :| Closer(m.connections[e], c) && r == Moved(m, e, c, tp);
      MovedLowersRank(m, e, c, tp);
    }
  }

  lemma ProgressBounded(m: MasterState, r: MasterState, e: Endpoint, clock: int, es: set<Endpoint>)
    requires Bounded(m, es) && Inv(r) && e in m.connections && Syncing(m.connections[e])
    requires Progress(m, r, e, clock)
    ensures Bounded(r, es)
    ensures Potential(r.connections, es) < Potential(m.connections, es)
  {
    BufferOf(m);
    hide WithinAllowance, Potential, Settled, Closer, Moved, Inv, RankAt, HasBuffer;
    ProgressRanks(m, r, e, clock);
    PotentialDrops(r.connections, m.connections, es, e);
    ProgressWithin(m, r, e, clock, es);
    if Settled(m, r, e, clock) {
      SettledWithinAllowance(m, r, e, clock);
    } else {
      var c, tp :| Closer(m.connections[e], c) && r == Moved(m, e, c, tp);
      MovedWithinAllowance(m, e, c, tp);
    }
  }

  lemma BufferOf(m: MasterState)
    requires Inv(m)
    ensures HasBuffer(m.stream)
  {
  }

  /** A packet that no connection waits for. */
  lemma IgnoredBounded(m: MasterState, e: Endpoint, tp: TPacket, fromRecvd: int, clock: int, es: set<Endpoint>)
    requires Bounded(m, es) && Enabled(m, Received(e, tp, fromRecvd, clock))
    requires !Unexpected(m, Received(e, tp, fromRecvd, clock)) && !Effective(m, Received(e, tp, fromRecvd, clock))
    ensures Bounded(Receive(m, e, tp, fromRecvd, clock), es)
    ensures Potential(Receive(m, e, tp, fromRecvd, clock).connections, es) <= Potential(m.connections, es)
  {
    hide Receive, Potential;
    ReceiveOther(m, e, tp, fromRecvd, clock);
    PotentialDrops(Receive(m, e, tp, fromRecvd, clock).connections, m.connections, es, e);
    assert e in m.connections ==> |Sent(m.timeLog, e)| <= 60;
  }

  lemma StepBounded(m: MasterState, ev: Event, es: set<Endpoint>)
    requires Bounded(m, es) && Enabled(m, ev) && !Unexpected(m, ev)
    ensures Bounded(Step(m, ev), es)
    ensures Potential(Step(m, ev).connections, es) + (if Effective(m, ev) then 1 else 0)
            <= Potential(m.connections, es)
  {
    hide Receive, Timeout, Completion, Moved, Settled, Closer, Potential, ConnectionInv;
    match ev
    case Received(e, tp, fromRecvd, clock) =>
      if Effective(m, ev) {
        ReceiveSyncing(m, e, tp, fromRecvd, clock);
        ProgressBounded(m, Step(m, ev), e, clock, es);
      } else {
        IgnoredBounded(m, e, tp, fromRecvd, clock, es);
      }
    case TimedOut(e, clock) =>
      TimerMeansSyncing(m, e);
      TimeoutStep(m, e, clock);
      ProgressBounded(m, Step(m, ev), e, clock, es);
    case SendCompleted(ok, clock) =>
  }

  // ----- Whole runs -----

  lemma StepPrepended(m: MasterState, ev: Event, run: seq<MasterState>, evs: seq<Event>)
    requires Enabled(m, ev) && IsRun(run, evs) && run[0] == Step(m, ev)
    ensures IsRun([m] + run, [ev] + evs) && ([m] + run)[|evs| + 1] == run[|evs|]
  {
    hide Enabled, Step;
    var longer, all := [m] + run, [ev] + evs;
    forall i | 0 <= i < |all|
      ensures Follows(longer[i], all[i], longer[i + 1])
    {
      if i > 0 {
        assert Follows(run[i - 1], evs[i - 1], run[i]);
      }
    }
  }

  /** The events among the first n that are not ignored. */
  function EffectiveSteps(run: seq<MasterState>, evs: seq<Event>, n: nat): nat
    requires n <= |evs| <= |run|
  {
    if n == 0 then 0
    else EffectiveSteps(run, evs, n - 1) + (if Effective(run[n - 1], evs[n - 1]) then 1 else 0)
  }

  lemma {:induction false} RunBounded(run: seq<MasterState>, evs: seq<Event>, es: set<Endpoint>, n: nat)
    requires IsRun(run, evs) && Bounded(run[0], es) && n <= |evs| && !run[n].panicked
    ensures Bounded(run[n], es)
    ensures Potential(run[n].connections, es) + EffectiveSteps(run, evs, n) <= Potential(run[0].connections, es)
  {
    if n > 0 {
      assert Follows(run[n - 1], evs[n - 1], run[n]);
      hide Step, Inv, Potential, IsRun, SyncingWithin, WithinAllowance;
      RunBounded(run, evs, es, n - 1);
      StepSafe(run[n - 1], evs[n - 1]);
      StepBounded(run[n - 1], evs[n - 1], es);
    }
  }

  lemma StartBounded(es: set<Endpoint>, clocks: map<Endpoint, int>, file: seq<int>, buffer: seq<int>)
    requires es != {} && es <= clocks.Keys && |buffer| == SAMPLES_PER_PACKET
    ensures Bounded(Start(es, clocks, file, buffer), es)
    ensures Potential(Start(es, clocks, file, buffer).connections, es) <= 79 * |es|
  {
    var m := Start(es, clocks, file, buffer);
    assert Pending(m.connections) == {};
    var e :| e in es;
    assert m.connections[e].state == SentInitial;
    TotalBound(Ranks(m.connections, es), es, 79);
  }

  /** Barrier safety and termination of the sync phase, over every run of the master that has not
      panicked, whatever arrives from whatever endpoint and whichever timers fire:
      at most 79 events per endpoint do anything, no endpoint is sent more than 60 time packets,
      and the counter and the states agree as Inv says. */
  lemma SyncPhase(run: seq<MasterState>, evs: seq<Event>, es: set<Endpoint>, clocks: map<Endpoint, int>,
                  file: seq<int>, buffer: seq<int>, n: nat)
    requires es != {} && es <= clocks.Keys && |buffer| == SAMPLES_PER_PACKET
    requires IsRun(run, evs) && run[0] == Start(es, clocks, file, buffer)
    requires n <= |evs| && !run[n].panicked
    ensures Inv(run[n])
    ensures EffectiveSteps(run, evs, n) <= 79 * |es|
    ensures forall e :: |Sent(run[n].timeLog, e)| <= 60
  {
    hide IsRun, Start, Inv, EffectiveSteps;
    StartBounded(es, clocks, file, buffer);
    RunBounded(run, evs, es, n);
  }

  /** Before streaming there is always a timer to fire, unless a stranger is in the map or
      more connections are pending than the 16-bit counter can count. */
  lemma NoDeadlock(m: MasterState, clock: int)
    requires Inv(m) && m.listening && clock > 0
    requires |Pending(m.connections)| < 0x1_0000
    requires forall e :: e in m.connections ==> m.connections[e].state != Naked
    ensures exists e :: e in m.connections && Enabled(m, TimedOut(e, clock))
  {
    AllPendingIsFull(m.connections);
    var e :| e in m.connections && m.connections[e].state != PendingAllSynced;
    assert Enabled(m, TimedOut(e, clock));
  }

  /** Once streaming has begun no packet and no timer can start it again: no timer is armed,
      and a packet leaves the stream and the logs alone. */
  lemma StreamingStartsOnce(m: MasterState, ev: Event)
    requires Inv(m) && !m.listening && Enabled(m, ev)
    ensures !ev.TimedOut?
    ensures !Step(m, ev).panicked ==> !Step(m, ev).listening && Inv(Step(m, ev))
    ensures ev.Received? ==> Step(m, ev).stream == m.stream && Step(m, ev).timeLog == m.timeLog
    ensures ev.Received? ==> !Step(m, ev).armed || Step(m, ev).panicked
  {
    StepSafe(m, ev);
  }

  /** One packet from an endpoint the master does not know enters it in the map for good, and the
      barrier then stays closed in every run: streaming never starts. */
  lemma {:induction false} StrangerBlocksBarrier(run: seq<MasterState>, evs: seq<Event>, e: Endpoint, n: nat)
    requires IsRun(run, evs) && Inv(run[0]) && HasStranger(run[0], e)
    requires n <= |evs| && !run[n].panicked
    ensures HasStranger(run[n], e) && Inv(run[n])
  {
    if n > 0 {
      assert Follows(run[n - 1], evs[n - 1], run[n]);
      hide Step, Inv, IsRun;
      StrangerBlocksBarrier(run, evs, e, n - 1);
      StepSafe(run[n - 1], evs[n - 1]);
      StrangerStays(run[n - 1], e, evs[n - 1]);
    }
  }

  predicate HasStranger(m: MasterState, e: Endpoint) {
    m.listening && e in m.connections && m.connections[e].state == Naked
  }

  lemma StrangerOutlivesMove(m: MasterState, r: MasterState, e: Endpoint, f: Endpoint, clock: int)
    requires HasStranger(m, e) && f in m.connections && Syncing(m.connections[f]) && HasBuffer(m.stream)
    requires Settled(m, r, f, clock) || exists c, tp :: r == Moved(m, f, c, tp)
    ensures HasStranger(r, e)
  {
    hide SendData;
  }

  lemma StrangerStays(m: MasterState, e: Endpoint, ev: Event)
    requires Inv(m) && HasStranger(m, e)
    requires Enabled(m, ev) && !Unexpected(m, ev)
    ensures HasStranger(Step(m, ev), e)
  {
    hide Receive, Timeout, Completion, Closer, Settled, Moved, Inv;
    match ev
    case Received(f, tp, fromRecvd, clock) =>
      if Effective(m, ev) {
        ReceiveSyncing(m, f, tp, fromRecvd, clock);
        StrangerOutlivesMove(m, Step(m, ev), e, f, clock);
      } else {
        ReceiveOther(m, f, tp, fromRecvd, clock);
      }
    case TimedOut(f, clock) =>
      TimerMeansSyncing(m, f);
      TimeoutStep(m, f, clock);
      StrangerOutlivesMove(m, Step(m, ev), e, f, clock);
    case SendCompleted(ok, clock) =>
  }

  lemma TimerMeansSyncing(m: MasterState, e: Endpoint)
    requires Inv(m) && e in m.connections && m.connections[e].timer != NoTimer
    ensures Syncing(m.connections[e])
  {
    assert ConnectionInv(m.connections[e]);
  }
}
