/** When, in true time, the clients really play a stamp. A stream's clock runs on from the reading a client
    takes of it while it processes its last FINAL. */
module PlayingInstants {
  import Arithmetic
  import opened TimePackets
  import opened ClientModel
  import MasterModel
  import opened SyncNetwork
  import opened LockStep

  predicate SetsClock(ev: NetEvent, e: Endpoint) {
    ev.ClientReceives? && ev.at == e && ev.tp.tpType == Final
  }

  /** The k-th event is the last of the first n that set the clock of e. */
  predicate LastSet(evs: seq<NetEvent>, e: Endpoint, k: nat, n: nat) {
    k < n <= |evs| && SetsClock(evs[k], e) && forall i :: k < i < n ==> !SetsClock(evs[i], e)
  }

  lemma TimesyncSets(c: ClientState, tp: TPacket, paStart: real, systemTime: int)
    ensures OnTimesync(c, tp, paStart, systemTime).paOffset ==
            if tp.tpType == Final then Truncate(paStart * 1000.0) - systemTime else c.paOffset
  {
    hide Truncate, CleanOffset;
  }

  /** The setting itself, and that no other event touches it. */
  lemma StepSets(s: System, ev: NetEvent, theta: Clocks, r: System, e: Endpoint)
    requires LeadsTo(s, ev, theta, r) && e in theta
    ensures KnownTo(s, theta) && KnownTo(r, theta)
    ensures r.clients[e].paOffset == if SetsClock(ev, e) then Truncate(ev.paStart * 1000.0) - (ev.done + theta[e])
                                     else s.clients[e].paOffset
    ensures HeardFinal(r.heard[e]) <==> HeardFinal(s.heard[e]) || SetsClock(ev, e)
  {
    hide Next, CanHappen, HeardFinal, OnTimesync, Truncate, Remember;
    KnownBefore(s, ev, theta);
    if ev.ClientReceives? {
      ReceivingSets(s, ev, theta, e);
      TimesyncSets(s.clients[e], ev.tp, ev.paStart, ev.done + theta[e]);
      SamplesAfter(s.clients[e], ev.tp, ev.paStart, ev.done + theta[e], s.heard[e]);
    } else {
      OnlyReceivingSets(s, ev, theta);
    }
  }

  lemma KnownBefore(s: System, ev: NetEvent, theta: Clocks)
    requires CanHappen(s, ev, theta)
    ensures KnownTo(s, theta)
  {
  }

  lemma {:induction false} ClockIsAsSet(run: seq<System>, evs: seq<NetEvent>, setup: Setup, n: nat, e: Endpoint, k: nat)
    requires IsNetRun(run, evs, setup) && e in setup.theta && LastSet(evs, e, k, n)
    ensures KnownTo(run[n], setup.theta)
    ensures run[n].clients[e].paOffset == Truncate(evs[k].paStart * 1000.0) - (evs[k].done + setup.theta[e])
  {
    hide LeadsTo, Starts, Truncate;
    StepSets(run[n - 1], evs[n - 1], setup.theta, run[n], e);
    if k < n - 1 {
      ClockIsAsSet(run, evs, setup, n - 1, e, k);
    }
  }

  /** A client that has processed a FINAL has a last setting of its clock. */
  lemma {:induction false} WasSet(run: seq<System>, evs: seq<NetEvent>, setup: Setup, n: nat, e: Endpoint)
    returns (k: nat)
    requires IsNetRun(run, evs, setup) && n <= |evs| && e in setup.theta
    requires e in run[n].heard && HeardFinal(run[n].heard[e])
    ensures LastSet(evs, e, k, n)
  {
    hide LeadsTo, Starts, HeardFinal;
    if n == 0 {
      NothingYet(run[0], setup, e);
    } else {
      StepSets(run[n - 1], evs[n - 1], setup.theta, run[n], e);
      if SetsClock(evs[n - 1], e) {
        k := n - 1;
      } else {
        k := WasSet(run, evs, setup, n - 1, e);
      }
    }
  }

  lemma NothingYet(s: System, setup: Setup, e: Endpoint)
    requires Starts(s, setup) && e in setup.theta
    ensures e in s.heard && !HeardFinal(s.heard[e])
  {
    NothingHeard();
    hide HeardFinal, MasterModel.Start;
  }

  /** The instant at which the stream's clock reaches a stamp's stream time: the clock read `paStart` seconds
      at the instant `read`. */
  function PlayedAt(stamp: int, c: ClientState, paStart: real, read: real): real {
    read + (GetPaTime(stamp, c.offset, c.paOffset) - paStart) * 1000.0
  }

  /** What a client's clock was set by: the event, when the stream's clock was read in it, and how good the
      offsets are that the client has heard. */
  datatype Setting = Setting(k: nat, read: real, bound: int)

  predicate IsSetting(run: seq<System>, evs: seq<NetEvent>, setup: Setup, n: nat, e: Endpoint, setting: Setting) {
    && IsNetRun(run, evs, setup) && n <= |evs| && e in setup.theta
    && HasHeard(run[n], e, setting.bound) && LastSet(evs, e, setting.k, n)
    && evs[setting.k].sent as real <= setting.read <= evs[setting.k].done as real
  }

  /** The stamp lies in the range of the client's stream clock. */
  predicate OnClock(stamp: int, c: ClientState) {
    0 <= stamp + c.offset + c.paOffset < Arithmetic.UINT64_SIZE
  }

  lemma PlayedExactly(stamp: int, c: ClientState, paStart: real, read: real, done: int, theta: int)
    requires OnClock(stamp, c) && paStart >= 0.0
    requires c.paOffset == Truncate(paStart * 1000.0) - (done + theta)
    ensures var late := (done as real - read) + (paStart * 1000.0 - Truncate(paStart * 1000.0) as real);
            PlayedAt(stamp, c, paStart, read) == stamp as real + (c.offset - theta) as real - late
    ensures 0.0 <= paStart * 1000.0 - Truncate(paStart * 1000.0) as real < 1.0
  {
    PaTimeExact(stamp, c.offset, c.paOffset);
    hide GetPaTime;
    var ms := paStart * 1000.0;
    var sum := stamp + c.offset + c.paOffset;
    assert (sum as real / 1000.0 - paStart) * 1000.0 == sum as real - ms;
    TruncationLoses(ms);
  }

  lemma TruncationLoses(x: real)
    requires x >= 0.0
    ensures 0.0 <= x - Truncate(x) as real < 1.0
  {
  }

  /** A stamp is played no later than half the worst round trip after its time, and no earlier than that, the
      delay between the readings of the two clocks, and the millisecond that truncation costs. */
  lemma PlayedInTime(run: seq<System>, evs: seq<NetEvent>, setup: Setup, n: nat, e: Endpoint, setting: Setting,
                     stamp: int)
    requires IsSetting(run, evs, setup, n, e, setting) && OnClock(stamp, run[n].clients[e])
    ensures var ev := evs[setting.k];
            var error := PlayedAt(stamp, run[n].clients[e], ev.paStart, setting.read) - stamp as real;
            && 2.0 * error <= setting.bound as real
            && -2.0 * error < setting.bound as real + 2.0 * (ev.done as real - setting.read) + 2.0
  {
    hide LeadsTo, Starts, Accuracy, PlayedAt, Truncate, OnClock, GetPaTime;
    var ev, c, theta := evs[setting.k], run[n].clients[e], setup.theta[e];
    OffsetAccuracy(run, evs, setup, n, e, setting.bound);
    ClockIsAsSet(run, evs, setup, n, e, setting.k);
    NotNegative(run, evs, setup, setting.k);
    PlayedExactly(stamp, c, ev.paStart, setting.read, ev.done, theta);
  }

  lemma NotNegative(run: seq<System>, evs: seq<NetEvent>, setup: Setup, k: nat)
    requires IsNetRun(run, evs, setup) && k < |evs| && evs[k].ClientReceives?
    ensures evs[k].paStart >= 0.0
  {
    assert LeadsTo(run[k], evs[k], setup.theta, run[k + 1]);
    hide Next, Starts, MasterModel.Enabled;
  }

  /** In every run, on any network: two clients with settled clocks really play one stamp no further apart than
      their two worst error bounds, the longer delay between the readings of their clocks, and a millisecond. */
  lemma ReallyPlayTogether(run: seq<System>, evs: seq<NetEvent>, setup: Setup, n: nat,
                           e1: Endpoint, s1: Setting, e2: Endpoint, s2: Setting, stamp: int, delay: real)
    requires IsSetting(run, evs, setup, n, e1, s1) && OnClock(stamp, run[n].clients[e1])
    requires IsSetting(run, evs, setup, n, e2, s2) && OnClock(stamp, run[n].clients[e2])
    requires evs[s1.k].done as real - s1.read <= delay && evs[s2.k].done as real - s2.read <= delay
    ensures var t1 := PlayedAt(stamp, run[n].clients[e1], evs[s1.k].paStart, s1.read);
            var t2 := PlayedAt(stamp, run[n].clients[e2], evs[s2.k].paStart, s2.read);
            -(s1.bound + s2.bound) as real - 2.0 * delay - 2.0 < 2.0 * (t1 - t2)
            < (s1.bound + s2.bound) as real + 2.0 * delay + 2.0
  {
    PlayedInTime(run, evs, setup, n, e1, s1, stamp);
    PlayedInTime(run, evs, setup, n, e2, s2, stamp);
    hide IsSetting, PlayedAt, OnClock;
  }
}
