/** What the incremental bookkeeping means, stated on the full event log alone. */
module History {
  import opened Basics
  import opened Metrics

  ghost predicate Ordered(log: seq<Entry>) {
    forall i, j :: 0 <= i < j < |log| ==> log[i].time <= log[j].time
  }

  /** Every entry lies in the interval from `start` to `now`. */
  ghost predicate Within(log: seq<Entry>, start: real, now: real) {
    forall i :: 0 <= i < |log| ==> start <= log[i].time <= now
  }

  // ---------------------------------------------------------------- busy time

  predicate Opens(e: Entry, u: Unit) {
    e.unit == u && e.activity == if u.StationUnit? then Enter else PushStart
  }

  predicate Closes(e: Entry, u: Unit) {
    e.unit == u && e.activity == if u.StationUnit? then Exit else PushComplete
  }

  predicate IsBusy(log: seq<Entry>, u: Unit) {
    if log == [] then false
    else if Opens(Last(log), u) then true
    else if Closes(Last(log), u) then false
    else IsBusy(Front(log), u)
  }

  /** The gaps between consecutive entries during which `u` is busy, the last gap ending at `now`. */
  function BusyOver(log: seq<Entry>, u: Unit, now: real): real {
    if log == [] then 0.0
    else BusyOver(Front(log), u, Last(log).time) + (if IsBusy(log, u) then now - Last(log).time else 0.0)
  }

  predicate Tracked(u: Unit) {
    (u.StationUnit? && 1 <= u.n <= 2) || (u.CornerUnit? && 1 <= u.c <= 4)
  }

  function BusyOf(m: Metrics, u: Unit): Busy
    requires Tracked(u)
  {
    if u.StationUnit? then m.stations.At(u.n) else m.corners.At(u.c)
  }

  lemma RecordBusy(m: Metrics, e: Entry, u: Unit)
    requires Tracked(u)
    ensures BusyOf(Record(m, e), u) ==
            if Opens(e, u) then BusyOf(m, u).Begin(e.time)
            else if Closes(e, u) then BusyOf(m, u).End(e.time)
            else BusyOf(m, u)
  {
  }

  /** The logger's open flag and accumulated time are exactly the plain busy time of the log. */
  lemma {:induction false} BusyTimeIsBusyOver(start: real, log: seq<Entry>, u: Unit, now: real)
    requires Tracked(u)
    ensures BusyOf(Replay(start, log), u).since.Some? <==> IsBusy(log, u)
    ensures BusyOf(Replay(start, log), u).Time(now) == BusyOver(log, u, now)
  {
    if log != [] {
      var e := Last(log);
      BusyTimeIsBusyOver(start, Front(log), u, e.time);
      RecordBusy(Replay(start, Front(log)), e, u);
    }
  }

  /** A unit is never busy for longer than the interval that contains its log. */
  lemma {:induction false} BusyOverBounded(log: seq<Entry>, u: Unit, start: real, now: real)
    requires Ordered(log) && Within(log, start, now) && start <= now
    ensures 0.0 <= BusyOver(log, u, now) <= now - start
  {
    if log != [] {
      BusyOverBounded(Front(log), u, start, Last(log).time);
    }
  }

  /** In no prefix of the log are both units busy. */
  ghost predicate NeverBothBusy(log: seq<Entry>, u: Unit, v: Unit) {
    forall k :: 0 <= k <= |log| ==> !(IsBusy(log[..k], u) && IsBusy(log[..k], v))
  }

  /** Two units that are never busy together share the interval between them. */
  lemma {:induction false} ExclusiveBusyTimes(log: seq<Entry>, u: Unit, v: Unit, start: real, now: real)
    requires Ordered(log) && Within(log, start, now) && start <= now
    requires NeverBothBusy(log, u, v)
    ensures BusyOver(log, u, now) + BusyOver(log, v, now) <= now - start
  {
    if log != [] {
      var front := Front(log);
      assert log[..|log|] == log;
      assert NeverBothBusy(front, u, v) by {
        forall k | 0 <= k <= |front|
          ensures !(IsBusy(front[..k], u) && IsBusy(front[..k], v))
        {
          assert front[..k] == log[..k];
        }
      }
      ExclusiveBusyTimes(front, u, v, start, Last(log).time);
    }
  }

  // ------------------------------------------------------------ windowed lists

  function Stamps(log: seq<Entry>): seq<Stamped> {
    if log == [] then []
    else Stamps(Front(log)) + [Stamped(Last(log).time, Last(log).unit, Last(log).activity)]
  }

  lemma {:induction false} NewerTwice(s: seq<Stamped>, low: real, high: real)
    requires low <= high
    ensures Newer(Newer(s, low), high) == Newer(s, high)
  {
    if s != [] {
      NewerTwice(Front(s), low, high);
      if Last(s).time > low {
        AppendFront(Newer(Front(s), low), Last(s));
      }
    }
  }

  /** With ordered times the pruned list holds exactly the entries of the last hour. */
  lemma {:induction false} RecentIsLastHour(start: real, log: seq<Entry>)
    requires Ordered(log) && log != []
    ensures Replay(start, log).recent == Newer(Stamps(log), Last(log).time - 3600.0)
  {
    var front, e := Front(log), Last(log);
    var stamped := Stamped(e.time, e.unit, e.activity);
    var old_ := Replay(start, front).recent;
    AppendFront(old_, stamped);
    AppendFront(Stamps(front), stamped);
    if front != [] {
      RecentIsLastHour(start, front);
      NewerTwice(Stamps(front), Last(front).time - RATE_WINDOW, e.time - RATE_WINDOW);
    }
  }

  /** The entries that no later one, and not itself, finds an hour old; with a clock that runs
      backwards these need not be the last ones. */
  function Surviving(log: seq<Entry>): seq<Stamped> {
    if log == [] then [] else FirstSurviving(log) + Surviving(log[1..])
  }

  function FirstSurviving(log: seq<Entry>): seq<Stamped>
    requires log != []
  {
    if forall j :: 0 <= j < |log| ==> log[0].time > log[j].time - 3600.0 then
      [Stamped(log[0].time, log[0].unit, log[0].activity)]
    else []
  }

  lemma {:induction false} NewerConcat(a: seq<Stamped>, b: seq<Stamped>, low: real)
    ensures Newer(a + b, low) == Newer(a, low) + Newer(b, low)
  {
    if b == [] {
      assert a + b == a;
    } else {
      NewerConcat(a, Front(b), low);
      assert Front(a + b) == a + Front(b) && Last(a + b) == Last(b);
    }
  }

  lemma FirstSurvivingAppend(log: seq<Entry>, e: Entry)
    requires log != []
    ensures FirstSurviving(log + [e]) == Newer(FirstSurviving(log), e.time - RATE_WINDOW)
  {
    var longer, first := log + [e], FirstSurviving(log);
    assert longer[|log|] == e && forall j | 0 <= j < |log| :: longer[j] == log[j];
    assert first != [] ==> Front(first) == [];
  }

  lemma NewerRegroups(head: seq<Stamped>, tail: seq<Stamped>, x: Stamped, low: real)
    ensures Newer(head, low) + Newer(tail + [x], low) == Newer((head + tail) + [x], low)
  {
    NewerConcat(head, tail + [x], low);
    assert head + (tail + [x]) == (head + tail) + [x];
  }

  lemma SurvivingOne(e: Entry)
    ensures Surviving([] + [e])
            == Newer(Surviving([]) + [Stamped(e.time, e.unit, e.activity)], e.time - RATE_WINDOW)
  {
    var stamped := Stamped(e.time, e.unit, e.activity);
    assert [] + [e] == [e] && [e][1..] == [] && Front([stamped]) == [];
    assert Surviving([e]) == [stamped];
    assert Surviving([]) + [stamped] == [stamped];
  }

  lemma {:induction false} SurvivingAppend(log: seq<Entry>, e: Entry)
    ensures Surviving(log + [e])
            == Newer(Surviving(log) + [Stamped(e.time, e.unit, e.activity)], e.time - RATE_WINDOW)
  {
    hide FirstSurviving, Newer, Surviving;
    if log == [] {
      SurvivingOne(e);
    } else {
      SurvivingAppend(log[1..], e);
      FirstSurvivingAppend(log, e);
      SurvivingUnfolds(log);
      SurvivingUnfolds(log + [e]);
      assert (log + [e])[1..] == log[1..] + [e];
      NewerRegroups(FirstSurviving(log), Surviving(log[1..]), Stamped(e.time, e.unit, e.activity), e.time - RATE_WINDOW);
    }
  }

  lemma SurvivingUnfolds(log: seq<Entry>)
    requires log != []
    ensures Surviving(log) == FirstSurviving(log) + Surviving(log[1..])
  {
  }

  lemma RecordRecent(m: Metrics, e: Entry)
    ensures Record(m, e).recent == Newer(m.recent + [Stamped(e.time, e.unit, e.activity)], e.time - RATE_WINDOW)
  {
  }

  /** Whatever the clock does, the pruned list holds exactly the surviving entries, in order. */
  lemma {:induction false} RecentIsSurviving(start: real, log: seq<Entry>)
    ensures Replay(start, log).recent == Surviving(log)
  {
    hide Replay, Record, Surviving, Newer;
    if log == [] {
      NothingRecent(start);
    } else {
      var front, e := Front(log), Last(log);
      RecentIsSurviving(start, front);
      assert log == front + [e];
      ReplayAppend(start, front, e);
      SurvivingAppend(front, e);
      RecordRecent(Replay(start, front), e);
    }
  }

  lemma NothingRecent(start: real)
    ensures Replay(start, []).recent == Surviving([])
  {
  }

  /** When the part of a visit last entered without having left since. */
  function LastEnter(log: seq<Entry>, key: Visit): Option<real> {
    if log == [] then None
    else
      var e := Last(log);
      if e.unit == StationUnit(key.station) && e.part == key.part && e.activity == Enter then Some(e.time)
      else if e.unit == StationUnit(key.station) && e.part == key.part && e.activity == Exit then None
      else LastEnter(Front(log), key)
  }

  /** All cycle times the log contains for one station, oldest first. */
  function AllCycles(log: seq<Entry>, n: StationId): seq<real> {
    if log == [] then []
    else
      var e, before := Last(log), AllCycles(Front(log), n);
      if e.unit == StationUnit(n) && e.activity == Exit then
        var entered := LastEnter(Front(log), Visit(e.part, n));
        if entered.Some? then before + [e.time - entered.value] else before
      else before
  }

  function LastUpTo<T>(s: seq<T>, k: nat): seq<T> {
    if |s| <= k then s else s[|s| - k..]
  }

  lemma {:induction false} EntryTimesAreOpenVisits(start: real, log: seq<Entry>, key: Visit)
    ensures key in Replay(start, log).entryTimes <==> LastEnter(log, key).Some?
    ensures key in Replay(start, log).entryTimes ==>
              Replay(start, log).entryTimes[key] == LastEnter(log, key).value
  {
    if log != [] {
      EntryTimesAreOpenVisits(start, Front(log), key);
    }
  }

  lemma PushedWindow(all: seq<real>, t: real)
    ensures Pushed(LastUpTo(all, CYCLE_WINDOW), t) == LastUpTo(all + [t], CYCLE_WINDOW)
  {
  }

  lemma CyclesStepAt(cycles: PerStation<seq<real>>, times: map<Visit, real>, e: Entry, n: StationId)
    ensures CyclesStep(cycles, times, e).At(n) ==
            if e.unit == StationUnit(n) && e.activity == Exit && Visit(e.part, n) in times
            then Pushed(cycles.At(n), e.time - times[Visit(e.part, n)])
            else cycles.At(n)
  {
  }

  lemma CyclesAfter(m: Metrics, front: seq<Entry>, e: Entry, n: StationId)
    requires m.cycles.At(n) == LastUpTo(AllCycles(front, n), CYCLE_WINDOW)
    requires var key := Visit(e.part, n);
             && (key in m.entryTimes <==> LastEnter(front, key).Some?)
             && (key in m.entryTimes ==> m.entryTimes[key] == LastEnter(front, key).value)
    ensures CyclesStep(m.cycles, m.entryTimes, e).At(n) == LastUpTo(AllCycles(front + [e], n), CYCLE_WINDOW)
  {
    AppendFront(front, e);
    CyclesStepAt(m.cycles, m.entryTimes, e, n);
    var key := Visit(e.part, n);
    if e.unit == StationUnit(n) && e.activity == Exit && key in m.entryTimes {
      PushedWindow(AllCycles(front, n), e.time - m.entryTimes[key]);
    }
  }

  /** Each cycle list holds the last min(100, n) cycle times of the whole log. */
  lemma {:induction false} CyclesAreLastHundred(start: real, log: seq<Entry>, n: StationId)
    ensures Replay(start, log).cycles.At(n) == LastUpTo(AllCycles(log, n), 100)
  {
    if log == [] {
      assert AllCycles(log, n) == [] && LastUpTo<real>([], CYCLE_WINDOW) == [] by {
        NoCycles(n);
      }
    } else {
      var front, e := Front(log), Last(log);
      CyclesAreLastHundred(start, front, n);
      EntryTimesAreOpenVisits(start, front, Visit(e.part, n));
      CyclesAfter(Replay(start, front), front, e, n);
      assert log == front + [e];
    }
  }

  lemma NoCycles(n: StationId)
    ensures AllCycles([], n) == [] && LastUpTo<real>([], CYCLE_WINDOW) == []
  {
  }

  // ------------------------------------------------------------------ counters

  /** How many entries of the log carry this unit and activity. */
  function Count(log: seq<Entry>, u: Unit, a: Activity): nat {
    if log == [] then 0
    else Count(Front(log), u, a) + if Last(log).unit == u && Last(log).activity == a then 1 else 0
  }

  lemma {:induction false} CountsAreExits(start: real, log: seq<Entry>, n: StationId)
    ensures Replay(start, log).counts.At(n) == Count(log, StationUnit(n), Exit)
  {
    if log != [] {
      CountsAreExits(start, Front(log), n);
    }
  }

  /** How many entries of the log carry this activity, whatever the unit. */
  function CountActivity(log: seq<Entry>, a: Activity): nat {
    if log == [] then 0
    else CountActivity(Front(log), a) + if Last(log).activity == a then 1 else 0
  }

  lemma {:induction false} TotalIsExits(start: real, log: seq<Entry>)
    ensures Replay(start, log).totalParts == CountActivity(log, Exit)
  {
    if log != [] {
      TotalIsExits(start, Front(log));
    }
  }

  // ------------------------------------------------------------------ work in progress

  /** Entries at both stations less exits at station 2. */
  function Tally(log: seq<Entry>): int {
    Count(log, StationUnit(1), Enter) + Count(log, StationUnit(2), Enter) - Count(log, StationUnit(2), Exit)
  }

  /** The lowest tally that the log ever came to, zero at the beginning included. */
  function LowestTally(log: seq<Entry>): int {
    if log == [] then 0
    else if Tally(log) < LowestTally(Front(log)) then Tally(log)
    else LowestTally(Front(log))
  }

  /** The tally above its lowest point: what is left when a count never falls below zero. */
  function PlainWip(log: seq<Entry>): int {
    Tally(log) - LowestTally(log)
  }

  /** `current_wip` is that count, for any log whatever it contains. */
  lemma {:induction false} WipIsPlain(start: real, log: seq<Entry>)
    ensures Replay(start, log).wip == PlainWip(log) >= 0
  {
    if log != [] {
      WipIsPlain(start, Front(log));
    }
  }

  ghost predicate WipBounded(log: seq<Entry>, bound: int) {
    forall k :: 0 <= k <= |log| ==> 0 <= PlainWip(log[..k]) <= bound
  }

  ghost predicate WipReached(log: seq<Entry>, peak: int) {
    exists k :: 0 <= k <= |log| && PlainWip(log[..k]) == peak
  }

  lemma WipPeakStep(m: Metrics, e: Entry)
    ensures Record(m, e).maxWip == if Record(m, e).wip > m.maxWip && ByStation(e, Enter) then Record(m, e).wip else m.maxWip
    ensures !ByStation(e, Enter) && m.wip >= 0 ==> Record(m, e).wip <= m.wip
  {
  }

  lemma PeakExtends(log: seq<Entry>, peak: int, peak': int)
    requires log != [] && WipBounded(Front(log), peak) && WipReached(Front(log), peak)
    requires PlainWip(log) >= 0 && peak' == if PlainWip(log) > peak then PlainWip(log) else peak
    ensures WipBounded(log, peak') && WipReached(log, peak')
  {
    hide PlainWip;
    var front := Front(log);
    assert log[..|log|] == log;
    forall k | 0 <= k <= |log|
      ensures 0 <= PlainWip(log[..k]) <= peak'
    {
      assert k < |log| ==> log[..k] == front[..k];
    }
    if peak' == peak {
      var k :| 0 <= k <= |front| && PlainWip(front[..k]) == peak;
      assert log[..k] == front[..k];
    } else {
      assert PlainWip(log[..|log|]) == peak';
    }
  }

  lemma NoWip()
    ensures WipBounded([], 0) && WipReached([], 0)
  {
    var none: seq<Entry> := [];
    assert none[..0] == [];
    assert PlainWip(none[..0]) == 0;
  }

  /** `max_wip` bounds `current_wip` at every moment of the log and was reached at one of them. */
  lemma {:induction false} MaxWipIsRunningMaximum(start: real, log: seq<Entry>)
    ensures WipBounded(log, Replay(start, log).maxWip) && WipReached(log, Replay(start, log).maxWip)
  {
    hide WipBounded, WipReached, PlainWip, Record;
    if log == [] {
      NoWip();
    } else {
      var m := Replay(start, Front(log));
      MaxWipIsRunningMaximum(start, Front(log));
      WipIsPlain(start, Front(log));
      WipIsPlain(start, log);
      LastWip(Front(log), m.maxWip);
      WipPeakStep(m, Last(log));
      PeakExtends(log, m.maxWip, Replay(start, log).maxWip);
    }
  }

  lemma LastWip(log: seq<Entry>, peak: int)
    requires WipBounded(log, peak)
    ensures PlainWip(log) <= peak
  {
    assert log[..|log|] == log;
  }

  function Sum(s: seq<real>): real {
    if s == [] then 0.0 else Sum(Front(s)) + Last(s)
  }

  lemma SumAppend(s: seq<real>, x: real)
    ensures Sum(s + [x]) == Sum(s) + x
  {
    AppendFront(s, x);
  }

  ghost predicate StationMeans(start: real, log: seq<Entry>, now: real, n: StationId) {
    var m := Replay(start, log);
    && m.counts.At(n) == Count(log, StationUnit(n), Exit)
    && m.cycles.At(n) == LastUpTo(AllCycles(log, n), 100)
    && m.stations.At(n).Time(now) == BusyOver(log, StationUnit(n), now)
  }

  /** Everything a query reads from the bookkeeping, said of the log. */
  lemma ReplayMeans(start: real, log: seq<Entry>, now: real)
    ensures var m := Replay(start, log);
            && m.totalParts == CountActivity(log, Exit)
            && (forall n: StationId :: StationMeans(start, log, now, n))
            && (forall c: CornerId :: m.corners.At(c).Time(now) == BusyOver(log, CornerUnit(c), now))
            && m.wip == PlainWip(log) && WipBounded(log, m.maxWip) && WipReached(log, m.maxWip)
            && m.recent == Surviving(log)
            && (Ordered(log) && log != [] ==> m.recent == Newer(Stamps(log), Last(log).time - 3600.0))
  {
    TotalIsExits(start, log);
    forall n: StationId
      ensures StationMeans(start, log, now, n)
    {
      CountsAreExits(start, log, n);
      CyclesAreLastHundred(start, log, n);
      BusyTimeIsBusyOver(start, log, StationUnit(n), now);
    }
    forall c: CornerId
      ensures Replay(start, log).corners.At(c).Time(now) == BusyOver(log, CornerUnit(c), now)
    {
      BusyTimeIsBusyOver(start, log, CornerUnit(c), now);
    }
    WipIsPlain(start, log);
    MaxWipIsRunningMaximum(start, log);
    RecentIsSurviving(start, log);
    if Ordered(log) && log != [] {
      RecentIsLastHour(start, log);
    }
  }

  // --------------------------------------------------------------- utilisation

  /** A share of the run time in percent. */
  function Percent(busy: real, runtime: real): real {
    if runtime > 0.0 then busy / runtime * 100.0 else 0.0
  }

  lemma PercentMeans(busy: real, runtime: real)
    ensures if runtime > 0.0 then Percent(busy, runtime) * runtime == 100.0 * busy else Percent(busy, runtime) == 0.0
  {
    if runtime > 0.0 {
      var share := busy / runtime;
      assert share * runtime == busy;
      assert share * 100.0 * runtime == 100.0 * (share * runtime);
    }
  }

  lemma PercentBounds(busy: real, runtime: real)
    requires 0.0 <= busy <= runtime
    ensures 0.0 <= Percent(busy, runtime) <= 100.0
  {
    if runtime > 0.0 {
      ShareBound(busy, runtime);
    }
  }

  lemma ShareBound(x: real, y: real)
    requires 0.0 <= x <= y && y > 0.0
    ensures 0.0 <= x / y <= 1.0
  {
    var q := x / y;
    assert q * y == x;
    assert q * y <= 1.0 * y;
  }

  /** Every tracked unit's utilisation is a percentage, for any ordered log whatever it contains. */
  lemma UtilizationIsPercentage(start: real, log: seq<Entry>, u: Unit, now: real)
    requires Tracked(u)
    requires Ordered(log) && Within(log, start, now) && start <= now
    ensures 0.0 <= Percent(BusyOf(Replay(start, log), u).Time(now), now - start) <= 100.0
  {
    BusyTimeIsBusyOver(start, log, u, now);
    BusyOverBounded(log, u, start, now);
    PercentBounds(BusyOver(log, u, now), now - start);
  }
}
