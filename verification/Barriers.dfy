/** When the barrier can open, and what closes it for good. */
module Barriers {
  import opened TimePackets
  import opened MasterModel
  import opened MasterRuns

  /** A run from m to a state that streams. */
  predicate OpensBarrier(m: MasterState, run: seq<MasterState>, evs: seq<Event>) {
    IsRun(run, evs) && run[0] == m && !run[|evs|].panicked && !run[|evs|].listening
  }

  predicate NoStranger(m: MasterState) {
    forall e :: e in m.connections ==> m.connections[e].state != Naked
  }

  /** No stranger is in the map, and the pending connections can be counted in 16 bits. */
  predicate CanStillOpen(m: MasterState) {
    NoStranger(m) && |Pending(m.connections)| < 0x1_0000
  }

  // ----- Without packets the timers open it -----

  /** A connection that moves or settles neither lets a stranger in nor takes a connection out of the
      pending ones, unless the barrier opens, which few enough connections allow. */
  lemma ProgressKeepsPending(m: MasterState, r: MasterState, e: Endpoint, clock: int)
    requires Inv(m) && m.listening && Inv(r) && e in m.connections && Syncing(m.connections[e])
    requires Progress(m, r, e, clock)
    ensures r.listening ==> Pending(m.connections) <= Pending(r.connections) <= Pending(m.connections) + {e}
    ensures !r.listening ==> |Pending(m.connections)| < 0x1_0000
    ensures NoStranger(m) ==> NoStranger(r)
  {
    hide SendData, ConnectionInv;
    SyncedIsNotNaked(r, e);
    if Settled(m, r, e, clock) && !r.listening {
      CardinalitySubset(Pending(m.connections), r.connections.Keys);
    }
  }

  lemma SyncedIsNotNaked(m: MasterState, e: Endpoint)
    requires Inv(m)
    ensures e in m.connections && m.connections[e].syncRounds == NTP_ROUNDS ==> m.connections[e].state != Naked
  {
    assert e in m.connections ==> ConnectionInv(m.connections[e]);
  }

  /** A timer that fires brings its connection closer to the end and keeps the barrier's chance to open. */
  lemma TimeoutHelps(m: MasterState, e: Endpoint, clock: int)
    requires Inv(m) && m.listening && CanStillOpen(m) && e in m.connections && m.connections[e].timer != NoTimer
    ensures var r := Timeout(m, e, clock);
            && Inv(r) && r.connections.Keys <= m.connections.Keys && (r.listening ==> CanStillOpen(r))
            && forall es :: e in es ==> Potential(r.connections, es) < Potential(m.connections, es)
  {
    hide Timeout, Moved, Settled, Closer, Inv, RankAt, Potential;
    InvHasBuffer(m);
    var r, c := Timeout(m, e, clock), m.connections[e];
    TimerMeansSyncing(m, e);
    TimeoutStep(m, e, clock);
    if c.attempts > 2 {
      SettledLowersRank(m, r, e, clock);
      SettledShrinks(m, r, e, clock);
    } else {
      MovedLowersRank(m, e, Retried(c), Resend(c, clock));
      MovedStays(m, e, Retried(c), Resend(c, clock));
    }
    forall es | e in es
      ensures Potential(r.connections, es) < Potential(m.connections, es)
    {
      PotentialDrops(r.connections, m.connections, es, e);
    }
    ProgressKeepsPending(m, r, e, clock);
    TimedOutIsGone(m, r, e, clock);
    if r.listening {
      CardinalitySubset(Pending(r.connections), Pending(m.connections));
    }
  }

  lemma InvHasBuffer(m: MasterState)
    requires Inv(m)
    ensures HasBuffer(m.stream) && !m.panicked && (m.listening ==> m.armed)
  {
  }

  lemma SettledShrinks(m: MasterState, r: MasterState, e: Endpoint, clock: int)
    requires HasBuffer(m.stream) && e in m.connections && Settled(m, r, e, clock)
    ensures r.connections.Keys <= m.connections.Keys
  {
  }

  lemma MovedStays(m: MasterState, e: Endpoint, c: Connection, tp: TPacket)
    requires e in m.connections
    ensures Moved(m, e, c, tp).connections.Keys == m.connections.Keys
  {
  }

  /** A timer leaves its own connection syncing, or erases it. */
  lemma TimedOutIsGone(m: MasterState, r: MasterState, e: Endpoint, clock: int)
    requires Inv(m) && e in m.connections && m.connections[e].timer != NoTimer && r == Timeout(m, e, clock)
    ensures e !in Pending(r.connections)
  {
    hide Timeout, Settled;
    TimeoutStep(m, e, clock);
  }

  /** When nobody answers any more, the timers alone open the barrier, one a second from `clock` on. */
  lemma {:induction false} TimersOpenBarrier(m: MasterState, es: set<Endpoint>, clock: int)
    returns (run: seq<MasterState>, evs: seq<Event>)
    requires Inv(m) && (m.listening ==> CanStillOpen(m)) && m.connections.Keys <= es && clock > 0
    ensures OpensBarrier(m, run, evs)
    ensures forall i :: 0 <= i < |evs| ==> evs[i].TimedOut? && evs[i].clock == clock + RETRY_MS * i
    decreases Potential(m.connections, es)
  {
    hide Inv, Enabled, Step, Timeout, Potential;
    InvHasBuffer(m);
    if !m.listening {
      run, evs := [m], [];
    } else {
      NoDeadlock(m, clock);
      var e :| e in m.connections && Enabled(m, TimedOut(e, clock));
      TimerIsArmed(m, e, clock);
      TimeoutHelps(m, e, clock);
      run, evs := TimersOpenBarrier(Timeout(m, e, clock), es, clock + RETRY_MS);
      StepPrepended(m, TimedOut(e, clock), run, evs);
      run, evs := [m] + run, [TimedOut(e, clock)] + evs;
    }
  }

  lemma TimerIsArmed(m: MasterState, e: Endpoint, clock: int)
    requires Enabled(m, TimedOut(e, clock))
    ensures e in m.connections && m.connections[e].timer != NoTimer && HasBuffer(m.stream)
    ensures Step(m, TimedOut(e, clock)) == Timeout(m, e, clock)
  {
    hide Timeout;
  }

  // ----- What keeps it closed -----

  lemma StepKeepsPending(m: MasterState, ev: Event)
    requires Inv(m) && m.listening && Enabled(m, ev) && !Unexpected(m, ev)
    ensures var r := Step(m, ev);
            if r.listening then Pending(m.connections) <= Pending(r.connections)
            else |Pending(m.connections)| < 0x1_0000
  {
    hide Inv, Receive, Timeout, Completion, Moved, Settled, Closer, ConnectionInv, Lookup;
    StepSafe(m, ev);
    InvHasBuffer(m);
    match ev
    case Received(e, tp, fromRecvd, clock) =>
      if Effective(m, ev) {
        ReceiveSyncing(m, e, tp, fromRecvd, clock);
        ProgressKeepsPending(m, Step(m, ev), e, clock);
      } else {
        StrangerIsNotPending(m, e, tp, fromRecvd, clock);
      }
    case TimedOut(e, clock) =>
      TimerMeansSyncing(m, e);
      TimeoutStep(m, e, clock);
      ProgressKeepsPending(m, Step(m, ev), e, clock);
    case SendCompleted(_, _) =>
  }

  lemma StrangerIsNotPending(m: MasterState, e: Endpoint, tp: TPacket, fromRecvd: int, clock: int)
    requires Inv(m) && m.listening && Enabled(m, Received(e, tp, fromRecvd, clock))
    requires !(e in m.connections && m.connections[e].state in {PendingAllSynced, SendingData})
    requires !(e in m.connections && Syncing(m.connections[e]))
    ensures var r := Receive(m, e, tp, fromRecvd, clock);
            r.listening && Pending(r.connections) == Pending(m.connections)
            && e in r.connections && r.connections[e].state == Naked
  {
    hide Inv, Receive;
    ReceiveFromStranger(m, e, tp, fromRecvd, clock);
  }

  lemma {:induction false} PendingStay(run: seq<MasterState>, evs: seq<Event>, n: nat)
    requires IsRun(run, evs) && Inv(run[0]) && run[0].listening && n <= |evs| && !run[n].panicked
    ensures Inv(run[n])
    ensures run[n].listening ==> Pending(run[0].connections) <= Pending(run[n].connections)
    ensures !run[n].listening ==> |Pending(run[0].connections)| < 0x1_0000
  {
    if n > 0 {
      assert Follows(run[n - 1], evs[n - 1], run[n]);
      hide Inv, Step, Enabled, IsRun;
      PendingStay(run, evs, n - 1);
      StepSafe(run[n - 1], evs[n - 1]);
      if run[n - 1].listening {
        StepKeepsPending(run[n - 1], evs[n - 1]);
        CardinalitySubset(Pending(run[0].connections), Pending(run[n - 1].connections));
      } else {
        StreamingStartsOnce(run[n - 1], evs[n - 1]);
      }
    }
  }

  /** Streaming can still begin if and only if no stranger is in the map and the connections already
      pending can be counted in 16 bits: each other connection syncs or is given up. */
  lemma BarrierCanOpenIff(m: MasterState)
    requires Inv(m) && m.listening
    ensures (exists run, evs :: OpensBarrier(m, run, evs)) <==> CanStillOpen(m)
  {
    hide Inv, IsRun;
    if CanStillOpen(m) {
      var run, evs := TimersOpenBarrier(m, m.connections.Keys, 1);
      assert OpensBarrier(m, run, evs);
    }
    forall run, evs | OpensBarrier(m, run, evs)
      ensures CanStillOpen(m)
    {
      PendingStay(run, evs, |evs|);
      forall e | e in m.connections
        ensures m.connections[e].state != Naked
      {
        if m.connections[e].state == Naked {
          StrangerBlocksBarrier(run, evs, e, |evs|);
        }
      }
    }
  }

  /** A packet from an endpoint that is not in the map: from then on the master never streams. */
  lemma StrangerArrives(run: seq<MasterState>, evs: seq<Event>, n: nat)
    requires IsRun(run, evs) && Inv(run[0]) && run[0].listening
    requires 0 < n <= |evs| && !run[n].panicked
    requires evs[0].Received? && evs[0].from !in run[0].connections
    ensures HasStranger(run[n], evs[0].from) && run[n].listening
  {
    assert Follows(run[0], evs[0], run[1]);
    hide Inv, Receive;
    ReceiveFromStranger(run[0], evs[0].from, evs[0].tp, evs[0].fromRecvd, evs[0].clock);
    forall i | 0 <= i < |evs[1..]|
      ensures Follows(run[1..][i], evs[1..][i], run[1..][i + 1])
    {
      assert Follows(run[i + 1], evs[i + 1], run[i + 2]);
    }
    StrangerBlocksBarrier(run[1..], evs[1..], evs[0].from, n - 1);
  }

  /** One packet that does not panic the master takes the barrier's chance to open exactly when its sender
      is not in the map, or when it makes more connections pending than 16 bits count. */
  lemma PacketClosesBarrierIff(m: MasterState, ev: Event)
    requires Inv(m) && m.listening && NoStranger(m)
    requires ev.Received? && Enabled(m, ev) && !Unexpected(m, ev)
    ensures (exists run, evs :: OpensBarrier(Step(m, ev), run, evs)) <==>
            ev.from in m.connections && |Pending(Step(m, ev).connections)| < 0x1_0000
    ensures |Pending(m.connections)| < 0xFFFF ==> |Pending(Step(m, ev).connections)| < 0x1_0000
  {
    hide Inv, IsRun, Receive, Settled, Moved, Closer, ConnectionInv;
    var r, e := Step(m, ev), ev.from;
    StepSafe(m, ev);
    InvHasBuffer(m);
    if e in m.connections {
      ReceiveSyncing(m, e, ev.tp, ev.fromRecvd, ev.clock);
      ProgressKeepsPending(m, r, e, ev.clock);
      if r.listening {
        CardinalitySubset(Pending(r.connections), Pending(m.connections) + {e});
      } else {
        NonePending(r);
      }
    } else {
      StrangerIsNotPending(m, e, ev.tp, ev.fromRecvd, ev.clock);
    }
    if r.listening {
      BarrierCanOpenIff(r);
    } else {
      InvHasBuffer(r);
      var run, evs := TimersOpenBarrier(r, r.connections.Keys, 1);
      assert OpensBarrier(r, run, evs);
    }
  }

  lemma NonePending(m: MasterState)
    requires Inv(m) && !m.listening
    ensures Pending(m.connections) == {}
  {
  }
}
