/** What becomes of the entries that reach a station: an idle one takes them, a busy one loses
    them. Nothing queues. */
module Admission {
  import opened Basics
  import opened History
  import opened Plant
  import S = Stations

  /** An entry trigger of station `n` that comes with a part. */
  predicate Offers(a: Action, n: StationId) {
    && a.Deliver? && a.delivery.event.place == AtStation(n) && a.delivery.event.barrier == StationEntry(n)
    && a.delivery.part.Some?
  }

  lemma OfferStep(cfg: Config, p: Plant, a: Action, n: StationId)
    requires Offers(a, n)
    ensures var p' := Step(cfg, p, a);
            if p.stations.At(n).state == S.Idle then
              && p'.sh.log == p.sh.log + [Entry(a.t1, StationUnit(n), a.delivery.part.value, Enter)]
              && p'.stations.At(n).part == a.delivery.part && p'.stations.At(n).state == S.Entering
            else p' == p
  {
  }

  /** An idle station logs the entry and takes the part as its current one; at any other station
      the entry leaves no trace anywhere. */
  lemma BusyStationDropsEntry(cfg: Config, actions: seq<Action>, a: Action, n: StationId)
    requires Offers(a, n)
    ensures var p, p' := Run(cfg, actions), Run(cfg, actions + [a]);
            if p.stations.At(n).state == S.Idle then
              && p'.sh.log == p.sh.log + [Entry(a.t1, StationUnit(n), a.delivery.part.value, Enter)]
              && p'.stations.At(n).part == a.delivery.part && p'.stations.At(n).state == S.Entering
            else p' == p
  {
    RunAppend(cfg, actions, a);
    OfferStep(cfg, Run(cfg, actions), a, n);
  }

  /** How many entries with a part were delivered to station `n`. */
  function Offered(actions: seq<Action>, n: StationId): nat {
    if actions == [] then 0 else Offered(Front(actions), n) + if Offers(Last(actions), n) then 1 else 0
  }

  /** How many of them found it busy. */
  function Lost(cfg: Config, actions: seq<Action>, n: StationId): nat {
    if actions == [] then 0
    else
      Lost(cfg, Front(actions), n)
      + if Offers(Last(actions), n) && Run(cfg, Front(actions)).stations.At(n).state != S.Idle then 1 else 0
  }

  /** No entry of station `n` is logged. */
  ghost predicate NoEntry(log: seq<Entry>, log': seq<Entry>, n: StationId) {
    log' == log || exists e: Entry :: log' == log + [e] && !(e.unit == StationUnit(n) && e.activity == Enter)
  }

  lemma OtherDeliveryEntersNothing(cfg: Config, p: Plant, a: Action, n: StationId)
    requires a.Deliver? && !Offers(a, n)
    ensures NoEntry(p.sh.log, Step(cfg, p, a).sh.log, n)
  {
    var log' := Step(cfg, p, a).sh.log;
    if log' != p.sh.log {
      assert log' == p.sh.log + [Last(log')];
    }
  }

  lemma FiringEntersNothing(cfg: Config, p: Plant, a: Action, n: StationId)
    requires !a.Deliver?
    ensures NoEntry(p.sh.log, Step(cfg, p, a).sh.log, n)
  {
    var log' := Step(cfg, p, a).sh.log;
    if log' != p.sh.log {
      assert log' == p.sh.log + [Last(log')];
    }
  }

  lemma CountAppend(log: seq<Entry>, e: Entry, u: Unit, a: Activity)
    ensures Count(log + [e], u, a) == Count(log, u, a) + if e.unit == u && e.activity == a then 1 else 0
  {
    AppendFront(log, e);
  }

  lemma StepEnters(cfg: Config, p: Plant, a: Action, n: StationId)
    ensures var admits := Offers(a, n) && p.stations.At(n).state == S.Idle;
            Count(Step(cfg, p, a).sh.log, StationUnit(n), Enter)
            == Count(p.sh.log, StationUnit(n), Enter) + if admits then 1 else 0
  {
    hide Step, Count;
    var log, log' := p.sh.log, Step(cfg, p, a).sh.log;
    if Offers(a, n) {
      OfferStep(cfg, p, a, n);
      if p.stations.At(n).state == S.Idle {
        CountAppend(log, Entry(a.t1, StationUnit(n), a.delivery.part.value, Enter), StationUnit(n), Enter);
      }
    } else {
      if a.Deliver? {
        OtherDeliveryEntersNothing(cfg, p, a, n);
      } else {
        FiringEntersNothing(cfg, p, a, n);
      }
      if log' != log {
        var e: Entry :| log' == log + [e] && !(e.unit == StationUnit(n) && e.activity == Enter);
        CountAppend(log, e, StationUnit(n), Enter);
      }
    }
  }

  /** In every run the entries logged and the entries lost are together the entries delivered. */
  lemma {:induction false} EntriesAreLoggedOrLost(cfg: Config, actions: seq<Action>, n: StationId)
    ensures Count(Run(cfg, actions).sh.log, StationUnit(n), Enter) + Lost(cfg, actions, n) == Offered(actions, n)
  {
    hide Step, Offers;
    if actions != [] {
      EntriesAreLoggedOrLost(cfg, Front(actions), n);
      StepEnters(cfg, Run(cfg, Front(actions)), Last(actions), n);
    }
  }

  /** Every entry delivered finds the station idle. */
  ghost predicate AlwaysIdleAtEntry(cfg: Config, actions: seq<Action>, n: StationId) {
    forall k :: 0 <= k < |actions| && Offers(actions[k], n) ==> Run(cfg, actions[..k]).stations.At(n).state == S.Idle
  }

  lemma {:induction false} NothingLostIffIdle(cfg: Config, actions: seq<Action>, n: StationId)
    ensures Lost(cfg, actions, n) == 0 <==> AlwaysIdleAtEntry(cfg, actions, n)
  {
    hide Run, Offers;
    if actions != [] {
      var front := Front(actions);
      NothingLostIffIdle(cfg, front, n);
      assert actions[..|front|] == front;
      forall k | 0 <= k < |front|
        ensures front[..k] == actions[..k] && front[k] == actions[k]
      {
      }
      if AlwaysIdleAtEntry(cfg, actions, n) {
        forall k | 0 <= k < |front| && Offers(front[k], n)
          ensures Run(cfg, front[..k]).stations.At(n).state == S.Idle
        {
          assert front[..k] == actions[..k];
        }
      }
    }
  }

  /** A run logs every entry that was delivered if and only if each of them found its station idle. */
  lemma EveryEntryLoggedIffIdle(cfg: Config, actions: seq<Action>, n: StationId)
    ensures Count(Run(cfg, actions).sh.log, StationUnit(n), Enter) == Offered(actions, n)
            <==> AlwaysIdleAtEntry(cfg, actions, n)
  {
    EntriesAreLoggedOrLost(cfg, actions, n);
    NothingLostIffIdle(cfg, actions, n);
  }
}
