/** When the retry timers fire: a second after the send before, neither earlier nor later. */
module Timers {
  import TimePackets
  import MasterModel
  import opened SyncNetwork

  /** The events at which the master hears from e or its timer, and answers with a send of its own. */
  predicate SendsTo(ev: NetEvent, e: TimePackets.Endpoint) {
    (ev.MasterTimeout? && ev.at == e) || (ev.MasterReceives? && ev.from == e)
  }

  /** The reading at the last of these, or at the first request. */
  function LastSend(evs: seq<NetEvent>, e: TimePackets.Endpoint, first: int): int {
    if evs == [] then first
    else
      var ev := evs[|evs| - 1];
      if SendsTo(ev, e) then ev.clock else LastSend(evs[..|evs| - 1], e, first)
  }

  /** When the timer of e is due after these events. */
  function Due(evs: seq<NetEvent>, e: TimePackets.Endpoint, setup: Setup): int {
    LastSend(evs, e, if e in setup.clocks then setup.clocks[e] else 0) + MasterModel.RETRY_MS
  }

  lemma DueAfter(evs: seq<NetEvent>, ev: NetEvent, e: TimePackets.Endpoint, setup: Setup)
    ensures Due(evs + [ev], e, setup) == if SendsTo(ev, e) then ev.clock + MasterModel.RETRY_MS else Due(evs, e, setup)
  {
    assert (evs + [ev])[..|evs|] == evs;
  }

  /** The k-th event, when it is a timeout, does not come early. */
  predicate NotEarly(run: seq<System>, evs: seq<NetEvent>, setup: Setup, k: nat)
    requires k < |evs| < |run|
  {
    evs[k].MasterTimeout? ==> Due(evs[..k], evs[k].at, setup) <= run[k].now
  }

  predicate NeverEarly(run: seq<System>, evs: seq<NetEvent>, setup: Setup)
    requires |run| == |evs| + 1
  {
    forall k :: 0 <= k < |evs| ==> NotEarly(run, evs, setup, k)
  }

  /** No timer that is armed is overdue. */
  predicate AllInTime(s: System, evs: seq<NetEvent>, setup: Setup) {
    forall e :: e in s.master.connections && s.master.connections[e].timer != MasterModel.NoTimer ==>
      s.now <= Due(evs, e, setup)
  }

  predicate NeverLate(run: seq<System>, evs: seq<NetEvent>, setup: Setup)
    requires |run| == |evs| + 1
  {
    forall k :: 0 <= k <= |evs| ==> AllInTime(run[k], evs[..k], setup)
  }

  /** A run whose timers fire when they are due. */
  predicate IsTimedRun(run: seq<System>, evs: seq<NetEvent>, setup: Setup) {
    IsNetRun(run, evs, setup) && NeverEarly(run, evs, setup) && NeverLate(run, evs, setup)
  }

  /** One more event in its time. */
  lemma TimedRunGrows(run: seq<System>, evs: seq<NetEvent>, setup: Setup, ev: NetEvent, r: System)
    requires IsTimedRun(run, evs, setup) && LeadsTo(run[|evs|], ev, setup.theta, r)
    requires ev.MasterTimeout? ==> Due(evs, ev.at, setup) <= run[|evs|].now
    requires AllInTime(r, evs + [ev], setup)
    ensures IsTimedRun(run + [r], evs + [ev], setup)
  {
    hide LeadsTo, Starts, AllInTime, Due;
    var longer, all := run + [r], evs + [ev];
    forall k | 0 <= k < |all|
      ensures LeadsTo(longer[k], all[k], setup.theta, longer[k + 1]) && NotEarly(longer, all, setup, k)
    {
      if k < |evs| {
        assert LeadsTo(run[k], evs[k], setup.theta, run[k + 1]) && NotEarly(run, evs, setup, k);
        assert all[..k] == evs[..k];
      } else {
        assert all[..k] == evs;
      }
    }
    forall k | 0 <= k <= |all|
      ensures AllInTime(longer[k], all[..k], setup)
    {
      if k <= |evs| {
        assert AllInTime(run[k], evs[..k], setup);
        assert all[..k] == evs[..k];
      } else {
        assert all[..k] == all;
      }
    }
  }

  lemma TimedRunStarts(s: System, setup: Setup)
    requires Starts(s, setup) && AllInTime(s, [], setup)
    ensures IsTimedRun([s], [], setup)
  {
    hide Starts, AllInTime;
    var none: seq<NetEvent> := [];
    assert none[..0] == none;
  }
}
