/** A reply that arrives after its endpoint was given up. Nothing need be lost or duplicated for it: a slow
    answer is enough. */
module LateReplies {
  import opened TimePackets
  import opened ClientModel
  import opened MasterModel
  import opened MasterRuns
  import opened SyncNetwork
  import opened Timers

  lemma PanicStays(s: System, ev: NetEvent, theta: Clocks, r: System)
    requires LeadsTo(s, ev, theta, r) && s.master.panicked
    ensures r.master.panicked
  {
  }

  lemma InvOf(s: System, theta: Clocks)
    requires NetInv(s, theta) && !s.master.panicked
    ensures Inv(s.master)
  {
  }

  lemma NetStepKeepsStranger(s: System, ev: NetEvent, theta: Clocks, r: System, e: Endpoint)
    requires NetInv(s, theta) && LeadsTo(s, ev, theta, r) && HasStranger(s.master, e) && !r.master.panicked
    ensures HasStranger(r.master, e)
  {
    hide Inv, NetInv, Step, Enabled, HasStranger, Unexpected;
    if s.master.panicked {
      PanicStays(s, ev, theta, r);
    }
    InvOf(s, theta);
    match ev {
      case MasterReceives(f, tp, clock) => MasterStepKeepsStranger(s.master, Received(f, tp, s.now, clock), e);
      case MasterTimeout(f, clock) => MasterStepKeepsStranger(s.master, TimedOut(f, clock), e);
      case MasterCompletion(ok, clock) => MasterStepKeepsStranger(s.master, SendCompleted(ok, clock), e);
      case _ =>
    }
  }

  lemma MasterStepKeepsStranger(m: MasterState, ev: Event, e: Endpoint)
    requires Inv(m) && Enabled(m, ev) && HasStranger(m, e) && !Step(m, ev).panicked
    ensures HasStranger(Step(m, ev), e)
  {
    hide Inv, Enabled, Step, HasStranger, Unexpected;
    StepSafe(m, ev);
    StrangerStays(m, e, ev);
  }

  lemma {:induction false} NetStrangerStays(run: seq<System>, evs: seq<NetEvent>, setup: Setup, e: Endpoint,
                                            k: nat, n: nat)
    requires IsNetRun(run, evs, setup) && k <= n <= |evs|
    requires HasStranger(run[k].master, e) && !run[n].master.panicked
    ensures HasStranger(run[n].master, e)
  {
    hide LeadsTo, Starts, NetInv, HasStranger;
    if k < n {
      RunInv(run, evs, setup, n - 1);
      NotYetPanicked(run, evs, setup, n - 1, n);
      NetStrangerStays(run, evs, setup, e, k, n - 1);
      NetStepKeepsStranger(run[n - 1], evs[n - 1], setup.theta, run[n], e);
    }
  }

  /** The k-th event of a run is a packet from an endpoint that was given up. */
  predicate LateReply(run: seq<System>, evs: seq<NetEvent>, k: nat)
    requires k < |evs| < |run|
  {
    evs[k].MasterReceives? && run[k].master.listening && evs[k].from !in run[k].master.connections
  }

  lemma LateReplyEnters(s: System, e: Endpoint, tp: TPacket, clock: int, theta: Clocks)
    requires Inv(s.master) && s.master.listening && e !in s.master.connections
    requires CanHappen(s, MasterReceives(e, tp, clock), theta)
    ensures HasStranger(Next(s, MasterReceives(e, tp, clock), theta).master, e)
    ensures !Next(s, MasterReceives(e, tp, clock), theta).master.panicked
  {
    hide Inv, Receive;
    ReceiveFromStranger(s.master, e, tp, s.now, clock);
    StillUp(Receive(s.master, e, tp, s.now, clock));
  }

  lemma StillUp(m: MasterState)
    requires Inv(m)
    ensures !m.panicked && HasBuffer(m.stream) && (m.listening ==> m.armed)
  {
  }

  /** Once a reply arrives from an endpoint that was given up, the run never gets to streaming. */
  lemma LateReplyClosesBarrier(run: seq<System>, evs: seq<NetEvent>, setup: Setup, k: nat, n: nat)
    requires IsNetRun(run, evs, setup) && k < n <= |evs| && !run[n].master.panicked
    requires LateReply(run, evs, k)
    ensures run[n].master.listening && HasStranger(run[n].master, evs[k].from)
  {
    assert LeadsTo(run[k], evs[k], setup.theta, run[k + 1]);
    RunInv(run, evs, setup, k);
    NotYetPanicked(run, evs, setup, k, n);
    hide NetInv, Next, CanHappen, Starts;
    InvOf(run[k], setup.theta);
    LateReplyEnters(run[k], evs[k].from, evs[k].tp, evs[k].clock, setup.theta);
    NetStrangerStays(run, evs, setup, evs[k].from, k + 1, n);
  }

  lemma {:induction false} NotYetPanicked(run: seq<System>, evs: seq<NetEvent>, setup: Setup, k: nat, n: nat)
    requires IsNetRun(run, evs, setup) && k <= n <= |evs| && !run[n].master.panicked
    ensures !run[k].master.panicked
  {
    hide LeadsTo, Starts;
    if k < n {
      if run[n - 1].master.panicked {
        PanicStays(run[n - 1], evs[n - 1], setup.theta, run[n]);
      }
      NotYetPanicked(run, evs, setup, k, n - 1);
    }
  }

  // ----- A run in which it happens -----

  /** Two endpoints, the second reached a millisecond after the first, whose clocks read master time. */
  function PairSetup(a: Endpoint, b: Endpoint, clock: int, file: seq<int>, buffer: seq<int>): Setup {
    Setup({a, b}, map[a := clock, b := clock + 1], file, buffer, map[a := 0, b := 0])
  }

  function PairStart(a: Endpoint, b: Endpoint, clock: int, file: seq<int>, buffer: seq<int>): System {
    System(
      Start({a, b}, map[a := clock, b := clock + 1], file, buffer),
      map[a := ClientState(0, 0, []), b := ClientState(0, 0, [])],
      map[a := multiset{ToClient(Request(clock))}, b := multiset{ToClient(Request(clock + 1))}],
      map[a := [], b := []],
      clock + 1)
  }

  /** a has been sent x requests, b y requests, and neither has answered. */
  predicate Unanswered(m: MasterState, a: Endpoint, x: int, b: Endpoint, y: int) {
    && Inv(m) && m.listening && a != b
    && m.connections == map[a := Connection(x, 0, ResendInitial, SentInitial),
                            b := Connection(y, 0, ResendInitial, SentInitial)]
  }

  lemma PairStarts(a: Endpoint, b: Endpoint, clock: int, file: seq<int>, buffer: seq<int>)
    requires a != b && clock > 0 && |buffer| == SAMPLES_PER_PACKET
    ensures Starts(PairStart(a, b, clock, file, buffer), PairSetup(a, b, clock, file, buffer))
  {
    hide Start, KnownTo, Request;
    PairKnown(a, b, clock, file, buffer);
  }

  lemma PairUnanswered(a: Endpoint, b: Endpoint, clock: int, file: seq<int>, buffer: seq<int>)
    requires a != b && |buffer| == SAMPLES_PER_PACKET
    ensures Unanswered(Start({a, b}, map[a := clock, b := clock + 1], file, buffer), a, 1, b, 1)
  {
    StartBounded({a, b}, map[a := clock, b := clock + 1], file, buffer);
    hide Inv;
  }

  lemma RetryPair(m: MasterState, a: Endpoint, x: int, b: Endpoint, y: int, clock: int)
    requires Unanswered(m, a, x, b, y) && 1 <= x <= 2
    ensures HasBuffer(m.stream) && Unanswered(Timeout(m, a, clock), a, x + 1, b, y)
  {
    hide Inv, Timeout, Request, Push;
    StillUp(m);
    RetryStep(m, a, clock);
  }

  lemma GiveUpPair(m: MasterState, a: Endpoint, b: Endpoint, y: int, clock: int)
    requires Unanswered(m, a, 3, b, y)
    ensures HasBuffer(m.stream)
    ensures var r := Timeout(m, a, clock);
            Inv(r) && r.listening && r.connections == map[b := Connection(y, 0, ResendInitial, SentInitial)]
  {
    hide Inv, Timeout, SendData;
    StillUp(m);
    GiveUpStep(m, a, clock);
    var r := Timeout(m, a, clock);
    assert r.connections.Keys == {b};
    assert r.connections[b] == m.connections[b];
  }

  // ----- Its events -----

  lemma TimePasses(s: System, until: int, theta: Clocks)
    requires KnownTo(s, theta) && s.now <= until
    ensures LeadsTo(s, Wait(until), theta, s.(now := until))
  {
  }

  /** A timer of e fires at this moment: what the master becomes, and what stays on the network for f. */
  lemma TimerFires(s: System, e: Endpoint, f: Endpoint, theta: Clocks) returns (r: System)
    requires KnownTo(s, theta) && e in theta && f in theta && Inv(s.master) && s.now > 0
    requires e in s.master.connections && s.master.connections[e].timer != NoTimer
    ensures LeadsTo(s, MasterTimeout(e, s.now), theta, r) && KnownTo(r, theta)
    ensures HasBuffer(s.master.stream) && r.master == Timeout(s.master, e, s.now) && r.now == s.now
    ensures s.net[f] <= r.net[f]
  {
    StillUp(s.master);
    hide Inv, Timeout, NewlySent;
    r := Next(s, MasterTimeout(e, s.now), theta);
  }

  lemma AnswersLate(s: System, e: Endpoint, tp: TPacket, theta: Clocks) returns (r: System)
    requires KnownTo(s, theta) && e in theta && ToClient(tp) in s.net[e]
    ensures LeadsTo(s, ClientReceives(e, tp, s.now, s.now, 0.0), theta, r) && KnownTo(r, theta)
    ensures r.master == s.master && r.now == s.now
    ensures ToMaster(Echo(tp, s.now + theta[e], s.now + theta[e])) in r.net[e]
  {
    hide OnTimesync, Remember, Echo;
    r := Next(s, ClientReceives(e, tp, s.now, s.now, 0.0), theta);
  }

  lemma ArrivesLate(s: System, e: Endpoint, tp: TPacket, theta: Clocks) returns (r: System)
    requires KnownTo(s, theta) && e in theta && Inv(s.master) && s.master.listening && s.now > 0
    requires e !in s.master.connections && ToMaster(tp) in s.net[e]
    ensures LeadsTo(s, MasterReceives(e, tp, s.now), theta, r)
    ensures HasStranger(r.master, e) && !r.master.panicked && r.now == s.now
    ensures r.master.connections == s.master.connections[e := NEW_CONNECTION]
  {
    StillUp(s.master);
    hide Inv, Receive;
    assert CanHappen(s, MasterReceives(e, tp, s.now), theta);
    LateReplyEnters(s, e, tp, s.now, theta);
    ReceiveFromStranger(s.master, e, tp, s.now, s.now);
    r := Next(s, MasterReceives(e, tp, s.now), theta);
  }

  // ----- The run, second by second -----

  /** A timed run so far, which has led to s and in which nothing was lost or duplicated. */
  predicate HonestRun(run: seq<System>, evs: seq<NetEvent>, setup: Setup, s: System) {
    && IsTimedRun(run, evs, setup) && run[|evs|] == s
    && forall i :: 0 <= i < |evs| ==> !evs[i].Lose? && !evs[i].Duplicate?
  }

  lemma HonestRunGrows(run: seq<System>, evs: seq<NetEvent>, setup: Setup, s: System, ev: NetEvent, r: System)
    requires HonestRun(run, evs, setup, s) && LeadsTo(s, ev, setup.theta, r) && !ev.Lose? && !ev.Duplicate?
    requires ev.MasterTimeout? ==> Due(evs, ev.at, setup) <= s.now
    requires AllInTime(r, evs + [ev], setup)
    ensures HonestRun(run + [r], evs + [ev], setup, r)
  {
    hide LeadsTo, Starts, Due, AllInTime, NeverEarly, NeverLate;
    TimedRunGrows(run, evs, setup, ev, r);
  }

  /** One of two connections: what it was sent without an answer, and when its timer is due. */
  datatype Waiter = Waiter(at: Endpoint, sent: int, due: int)

  /** The two connections wait; the first request to `late` is still under way. */
  predicate BothWait(s: System, evs: seq<NetEvent>, setup: Setup, a: Waiter, b: Waiter, late: Endpoint, clock: int) {
    && KnownTo(s, setup.theta) && a.at in setup.theta && b.at in setup.theta && late in setup.theta
    && 0 < s.now <= a.due && s.now <= b.due
    && Unanswered(s.master, a.at, a.sent, b.at, b.sent)
    && Due(evs, a.at, setup) == a.due && Due(evs, b.at, setup) == b.due
    && ToClient(Request(clock)) in s.net[late]
  }

  lemma BothInTime(s: System, evs: seq<NetEvent>, setup: Setup, a: Waiter, b: Waiter, late: Endpoint, clock: int)
    requires BothWait(s, evs, setup, a, b, late, clock)
    ensures AllInTime(s, evs, setup)
  {
    hide Inv, Due, Request;
  }

  lemma BothWaitFor(s: System, evs: seq<NetEvent>, setup: Setup, a: Waiter, b: Waiter, late: Endpoint, clock: int,
                    until: int)
    requires BothWait(s, evs, setup, a, b, late, clock) && s.now <= until <= a.due && until <= b.due
    ensures LeadsTo(s, Wait(until), setup.theta, s.(now := until))
    ensures BothWait(s.(now := until), evs + [Wait(until)], setup, a, b, late, clock)
  {
    TimePasses(s, until, setup.theta);
    DueAfter(evs, Wait(until), a.at, setup);
    DueAfter(evs, Wait(until), b.at, setup);
    hide Inv, Due, Request;
  }

  lemma FirstRetries(s: System, evs: seq<NetEvent>, setup: Setup, a: Waiter, b: Waiter, late: Endpoint, clock: int)
    returns (r: System)
    requires BothWait(s, evs, setup, a, b, late, clock) && s.now == a.due && 1 <= a.sent <= 2
    ensures LeadsTo(s, MasterTimeout(a.at, a.due), setup.theta, r)
    ensures BothWait(r, evs + [MasterTimeout(a.at, a.due)], setup, Waiter(a.at, a.sent + 1, a.due + RETRY_MS), b, late,
                     clock)
  {
    RetryPair(s.master, a.at, a.sent, b.at, b.sent, a.due);
    DueAfter(evs, MasterTimeout(a.at, a.due), a.at, setup);
    DueAfter(evs, MasterTimeout(a.at, a.due), b.at, setup);
    hide Inv, Due, Timeout, LeadsTo, Request;
    r := TimerFires(s, a.at, late, setup.theta);
  }

  /** The honest runs that have come this far. */
  predicate Reached(run: seq<System>, evs: seq<NetEvent>, setup: Setup, s: System, a: Waiter, b: Waiter,
                    late: Endpoint, clock: int)
  {
    HonestRun(run, evs, setup, s) && BothWait(s, evs, setup, a, b, late, clock)
  }

  /** The timer of the first fires when it is due, for a retry. */
  lemma Retries(run: seq<System>, evs: seq<NetEvent>, setup: Setup, s: System, a: Waiter, b: Waiter, late: Endpoint,
                clock: int)
    returns (longer: seq<System>, all: seq<NetEvent>, r: System)
    requires Reached(run, evs, setup, s, a, b, late, clock) && 1 <= a.sent <= 2 && a.due <= b.due
    ensures Reached(longer, all, setup, r, Waiter(a.at, a.sent + 1, a.due + RETRY_MS), b, late, clock)
    ensures |all| == |evs| + 2
  {
    hide HonestRun, BothWait;
    var later := IsDue(run, evs, setup, s, a, b, late, clock);
    longer, all, r := RetriesNow(run + [later], evs + [Wait(a.due)], setup, later, a, b, late, clock);
  }

  lemma RetriesNow(run: seq<System>, evs: seq<NetEvent>, setup: Setup, s: System, a: Waiter, b: Waiter, late: Endpoint,
                   clock: int)
    returns (longer: seq<System>, all: seq<NetEvent>, r: System)
    requires Reached(run, evs, setup, s, a, b, late, clock) && 1 <= a.sent <= 2 && s.now == a.due
    ensures Reached(longer, all, setup, r, Waiter(a.at, a.sent + 1, a.due + RETRY_MS), b, late, clock)
    ensures |all| == |evs| + 1
  {
    hide HonestRun, BothWait, LeadsTo, AllInTime;
    var ev := MasterTimeout(a.at, a.due);
    r := FirstRetries(s, evs, setup, a, b, late, clock);
    BothInTime(r, evs + [ev], setup, Waiter(a.at, a.sent + 1, a.due + RETRY_MS), b, late, clock);
    DueOf(s, evs, setup, a, b, late, clock);
    HonestRunGrows(run, evs, setup, s, ev, r);
    longer, all := run + [r], evs + [ev];
  }

  lemma IsDue(run: seq<System>, evs: seq<NetEvent>, setup: Setup, s: System, a: Waiter, b: Waiter, late: Endpoint,
              clock: int)
    returns (r: System)
    requires Reached(run, evs, setup, s, a, b, late, clock) && a.due <= b.due
    ensures Reached(run + [r], evs + [Wait(a.due)], setup, r, a, b, late, clock) && r.now == a.due
  {
    DueOf(s, evs, setup, a, b, late, clock);
    hide HonestRun, BothWait, LeadsTo, AllInTime;
    r := s.(now := a.due);
    BothWaitFor(s, evs, setup, a, b, late, clock, a.due);
    BothInTime(r, evs + [Wait(a.due)], setup, a, b, late, clock);
    HonestRunGrows(run, evs, setup, s, Wait(a.due), r);
  }

  lemma DueOf(s: System, evs: seq<NetEvent>, setup: Setup, a: Waiter, b: Waiter, late: Endpoint, clock: int)
    requires BothWait(s, evs, setup, a, b, late, clock)
    ensures Due(evs, a.at, setup) == a.due && 0 < s.now <= a.due
  {
    hide Inv, Due, Request;
  }

  lemma EitherFirst(s: System, evs: seq<NetEvent>, setup: Setup, a: Waiter, b: Waiter, late: Endpoint, clock: int)
    requires BothWait(s, evs, setup, a, b, late, clock)
    ensures BothWait(s, evs, setup, b, a, late, clock)
  {
    hide Inv, Due, Request;
  }

  lemma PairBegins(a: Endpoint, b: Endpoint, clock: int, file: seq<int>, buffer: seq<int>)
    requires a != b && clock > 0 && |buffer| == SAMPLES_PER_PACKET
    ensures var s, setup := PairStart(a, b, clock, file, buffer), PairSetup(a, b, clock, file, buffer);
            Reached([s], [], setup, s, Waiter(a, 1, clock + RETRY_MS), Waiter(b, 1, clock + 1 + RETRY_MS), a, clock)
  {
    var s, setup := PairStart(a, b, clock, file, buffer), PairSetup(a, b, clock, file, buffer);
    PairStarts(a, b, clock, file, buffer);
    PairWaits(a, b, clock, file, buffer);
    hide BothWait, Starts, AllInTime, PairStart, PairSetup;
    BothInTime(s, [], setup, Waiter(a, 1, clock + RETRY_MS), Waiter(b, 1, clock + 1 + RETRY_MS), a, clock);
    TimedRunStarts(s, setup);
  }

  lemma PairWaits(a: Endpoint, b: Endpoint, clock: int, file: seq<int>, buffer: seq<int>)
    requires a != b && clock > 0 && |buffer| == SAMPLES_PER_PACKET
    ensures BothWait(PairStart(a, b, clock, file, buffer), [], PairSetup(a, b, clock, file, buffer),
                     Waiter(a, 1, clock + RETRY_MS), Waiter(b, 1, clock + 1 + RETRY_MS), a, clock)
  {
    PairUnanswered(a, b, clock, file, buffer);
    PairKnown(a, b, clock, file, buffer);
    hide Unanswered, Start, KnownTo;
  }

  lemma PairKnown(a: Endpoint, b: Endpoint, clock: int, file: seq<int>, buffer: seq<int>)
    ensures KnownTo(PairStart(a, b, clock, file, buffer), map[a := 0, b := 0])
  {
    hide Start;
  }

  /** e was given up, b waits, and this message of e's is still under way. */
  predicate GaveUp(s: System, evs: seq<NetEvent>, setup: Setup, e: Endpoint, b: Waiter, msg: Message) {
    && KnownTo(s, setup.theta) && e in setup.theta && e != b.at
    && 0 < s.now <= b.due && Due(evs, b.at, setup) == b.due
    && Inv(s.master) && s.master.listening
    && s.master.connections == map[b.at := Connection(b.sent, 0, ResendInitial, SentInitial)]
    && msg in s.net[e]
  }

  lemma OtherInTime(s: System, evs: seq<NetEvent>, setup: Setup, e: Endpoint, b: Waiter, msg: Message)
    requires GaveUp(s, evs, setup, e, b, msg)
    ensures AllInTime(s, evs, setup)
  {
    hide Inv, Due;
  }

  /** The third time the first is given up; the second keeps the barrier closed. */
  lemma IsGivenUp(s: System, evs: seq<NetEvent>, setup: Setup, a: Waiter, b: Waiter, clock: int) returns (r: System)
    requires BothWait(s, evs, setup, a, b, a.at, clock) && s.now == a.due && a.sent == 3
    ensures LeadsTo(s, MasterTimeout(a.at, a.due), setup.theta, r) && r.now == a.due
    ensures GaveUp(r, evs + [MasterTimeout(a.at, a.due)], setup, a.at, b, ToClient(Request(clock)))
  {
    GiveUpPair(s.master, a.at, b.at, b.sent, a.due);
    DueAfter(evs, MasterTimeout(a.at, a.due), b.at, setup);
    hide Inv, Due, Timeout, LeadsTo, Request;
    r := TimerFires(s, a.at, a.at, setup.theta);
  }

  lemma ClientAnswers(s: System, evs: seq<NetEvent>, setup: Setup, e: Endpoint, b: Waiter, tp: TPacket)
    returns (r: System, reply: TPacket)
    requires GaveUp(s, evs, setup, e, b, ToClient(tp))
    ensures var ev := ClientReceives(e, tp, s.now, s.now, 0.0);
            && LeadsTo(s, ev, setup.theta, r) && r.now == s.now
            && GaveUp(r, evs + [ev], setup, e, b, ToMaster(reply))
  {
    DueAfter(evs, ClientReceives(e, tp, s.now, s.now, 0.0), b.at, setup);
    hide Inv, Due, LeadsTo, Echo;
    reply := Echo(tp, s.now + setup.theta[e], s.now + setup.theta[e]);
    r := AnswersLate(s, e, tp, setup.theta);
  }

  lemma ReplyArrives(s: System, evs: seq<NetEvent>, setup: Setup, e: Endpoint, b: Waiter, reply: TPacket)
    returns (r: System)
    requires GaveUp(s, evs, setup, e, b, ToMaster(reply))
    ensures LeadsTo(s, MasterReceives(e, reply, s.now), setup.theta, r)
    ensures !r.master.panicked && AllInTime(r, evs + [MasterReceives(e, reply, s.now)], setup)
    ensures s.master.listening && e !in s.master.connections
  {
    DueAfter(evs, MasterReceives(e, reply, s.now), b.at, setup);
    hide Inv, Due, LeadsTo;
    r := ArrivesLate(s, e, reply, setup.theta);
  }

  lemma GiveUpNow(run: seq<System>, evs: seq<NetEvent>, setup: Setup, s: System, a: Waiter, b: Waiter, clock: int)
    returns (longer: seq<System>, all: seq<NetEvent>, r: System)
    requires Reached(run, evs, setup, s, a, b, a.at, clock) && a.sent == 3 && s.now == a.due
    ensures HonestRun(longer, all, setup, r) && |all| == |evs| + 1 && r.now == a.due
    ensures GaveUp(r, all, setup, a.at, b, ToClient(Request(clock)))
  {
    hide HonestRun, BothWait, LeadsTo, AllInTime, GaveUp, Request;
    var ev := MasterTimeout(a.at, a.due);
    r := IsGivenUp(s, evs, setup, a, b, clock);
    OtherInTime(r, evs + [ev], setup, a.at, b, ToClient(Request(clock)));
    DueOf(s, evs, setup, a, b, a.at, clock);
    HonestRunGrows(run, evs, setup, s, ev, r);
    longer, all := run + [r], evs + [ev];
  }

  lemma AnswerNow(run: seq<System>, evs: seq<NetEvent>, setup: Setup, s: System, e: Endpoint, b: Waiter, tp: TPacket)
    returns (longer: seq<System>, r: System, reply: TPacket)
    requires HonestRun(run, evs, setup, s) && GaveUp(s, evs, setup, e, b, ToClient(tp))
    ensures var all := evs + [ClientReceives(e, tp, s.now, s.now, 0.0)];
            HonestRun(longer, all, setup, r) && GaveUp(r, all, setup, e, b, ToMaster(reply)) && r.now == s.now
  {
    hide HonestRun, LeadsTo, AllInTime, GaveUp;
    var ev := ClientReceives(e, tp, s.now, s.now, 0.0);
    r, reply := ClientAnswers(s, evs, setup, e, b, tp);
    OtherInTime(r, evs + [ev], setup, e, b, ToMaster(reply));
    HonestRunGrows(run, evs, setup, s, ev, r);
    longer := run + [r];
  }

  lemma ArriveNow(run: seq<System>, evs: seq<NetEvent>, setup: Setup, s: System, e: Endpoint, b: Waiter,
                  reply: TPacket)
    returns (longer: seq<System>, r: System)
    requires HonestRun(run, evs, setup, s) && GaveUp(s, evs, setup, e, b, ToMaster(reply))
    ensures var all := evs + [MasterReceives(e, reply, s.now)];
            && HonestRun(longer, all, setup, r) && !r.master.panicked
            && |longer| == |all| + 1 && LateReply(longer, all, |evs|)
  {
    hide HonestRun, LeadsTo, AllInTime, GaveUp, LateReply;
    var ev := MasterReceives(e, reply, s.now);
    LengthOf(run, evs, setup, s);
    r := ReplyArrives(s, evs, setup, e, b, reply);
    HonestRunGrows(run, evs, setup, s, ev, r);
    longer := run + [r];
    IsLate(run, evs, r, ev);
  }

  lemma IsLate(run: seq<System>, evs: seq<NetEvent>, r: System, ev: NetEvent)
    requires |run| == |evs| + 1 && ev.MasterReceives?
    requires run[|evs|].master.listening && ev.from !in run[|evs|].master.connections
    ensures LateReply(run + [r], evs + [ev], |evs|)
  {
  }

  lemma LengthOf(run: seq<System>, evs: seq<NetEvent>, setup: Setup, s: System)
    requires HonestRun(run, evs, setup, s)
    ensures |run| == |evs| + 1 && run[|evs|] == s
  {
  }

  /** A slow answer is enough. Nothing is lost or duplicated, every timer fires a second after the send before
      it, neither earlier nor later. A master of two endpoints sends each its request and, a second and two
      seconds later, the same again; at its third timeout the first is given up; the answer it gives then, three
      seconds after the request, arrives at once. */
  lemma AnHonestLateReply(a: Endpoint, b: Endpoint, clock: int, file: seq<int>, buffer: seq<int>)
    returns (run: seq<System>, evs: seq<NetEvent>)
    requires a != b && clock > 0 && |buffer| == SAMPLES_PER_PACKET
    ensures IsTimedRun(run, evs, PairSetup(a, b, clock, file, buffer)) && |evs| == 12
    ensures forall i :: 0 <= i < |evs| ==> !evs[i].Lose? && !evs[i].Duplicate?
    ensures evs[10] == ClientReceives(a, Request(clock), clock + 3000, clock + 3000, 0.0)
    ensures LateReply(run, evs, 11) && evs[11].from == a && !run[12].master.panicked
  {
    hide HonestRun, BothWait, GaveUp, PairSetup, PairStart, Request, LateReply;
    var setup, s := PairSetup(a, b, clock, file, buffer), PairStart(a, b, clock, file, buffer);
    var wa, wb := Waiter(a, 1, clock + RETRY_MS), Waiter(b, 1, clock + 1 + RETRY_MS);
    PairBegins(a, b, clock, file, buffer);
    run, evs := [s], [];
    run, evs, s, wa, wb := BothRetry(run, evs, setup, s, wa, wb, a, clock);
    run, evs, s, wa, wb := BothRetry(run, evs, setup, s, wa, wb, a, clock);
    var due := IsDue(run, evs, setup, s, wa, wb, a, clock);
    run, evs, s := GiveUpNow(run + [due], evs + [Wait(wa.due)], setup, due, wa, wb, clock);
    var answer := ClientReceives(a, Request(clock), s.now, s.now, 0.0);
    var reply: TPacket;
    run, due, reply := AnswerNow(run, evs, setup, s, a, wb, Request(clock));
    run, s := ArriveNow(run, evs + [answer], setup, due, a, wb, reply);
    evs := evs + [answer] + [MasterReceives(a, reply, due.now)];
    HonestRunIs(run, evs, setup, s);
    LengthOf(run, evs, setup, s);
  }

  lemma HonestRunIs(run: seq<System>, evs: seq<NetEvent>, setup: Setup, s: System)
    requires HonestRun(run, evs, setup, s)
    ensures IsTimedRun(run, evs, setup) && forall i :: 0 <= i < |evs| ==> !evs[i].Lose? && !evs[i].Duplicate?
  {
  }

  /** A second in which both are sent their request again. */
  lemma BothRetry(run: seq<System>, evs: seq<NetEvent>, setup: Setup, s: System, a: Waiter, b: Waiter,
                  late: Endpoint, clock: int)
    returns (longer: seq<System>, all: seq<NetEvent>, r: System, a': Waiter, b': Waiter)
    requires Reached(run, evs, setup, s, a, b, late, clock)
    requires 1 <= a.sent <= 2 && 1 <= b.sent <= 2 && a.due <= b.due <= a.due + RETRY_MS
    ensures a' == Waiter(a.at, a.sent + 1, a.due + RETRY_MS) && b' == Waiter(b.at, b.sent + 1, b.due + RETRY_MS)
    ensures Reached(longer, all, setup, r, a', b', late, clock) && |all| == |evs| + 4
  {
    hide HonestRun, BothWait;
    longer, all, r := Retries(run, evs, setup, s, a, b, late, clock);
    a' := Waiter(a.at, a.sent + 1, a.due + RETRY_MS);
    EitherFirst(r, all, setup, a', b, late, clock);
    longer, all, r := Retries(longer, all, setup, r, b, a', late, clock);
    b' := Waiter(b.at, b.sent + 1, b.due + RETRY_MS);
    EitherFirst(r, all, setup, b', a', late, clock);
  }
}
