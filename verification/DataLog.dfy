/** The mutable logger of data_logger.py. Its log is a ghost: the CSV file and the
    dashboards are not part of the model. */
module DataLog {
  import opened Basics
  import opened Metrics
  import opened History

  datatype Kpis = Kpis(
    totalParts: int,
    station1Count: int,
    station2Count: int,
    throughputPerHour: real,
    avgCycleTimeS1: real,
    avgCycleTimeS2: real,
    currentWip: int,
    maxWip: int,
    stationUtilization: PerStation<real>,
    cornerUtilization: PerCorner<real>,
    eventRatePerMinute: real,
    runtimeSeconds: real)

  /** The average of a list, 0 for the empty one. */
  function Mean(s: seq<real>): real {
    if s == [] then 0.0 else Sum(s) / |s| as real
  }

  function Throughput(parts: int, runtime: real): real {
    if runtime > 60.0 then parts as real / runtime * 3600.0 else 0.0
  }

  function EventRate(events: nat, runtime: real): real {
    if runtime > 0.0 then events as real / ((if runtime < 3600.0 then runtime else 3600.0) / 60.0) else 0.0
  }

  lemma ThroughputMeans(parts: int, runtime: real)
    ensures if runtime > 60.0 then Throughput(parts, runtime) * runtime == 3600.0 * parts as real
            else Throughput(parts, runtime) == 0.0
  {
    if runtime > 60.0 {
      var rate := parts as real / runtime;
      assert rate * runtime == parts as real;
      assert rate * 3600.0 * runtime == 3600.0 * (rate * runtime);
    }
  }

  lemma EventRateMeans(events: nat, runtime: real)
    ensures var rate := EventRate(events, runtime);
            if runtime <= 0.0 then rate == 0.0
            else if runtime < 3600.0 then rate * runtime == 60.0 * events as real
            else rate * 60.0 == events as real
  {
    if 0.0 < runtime < 3600.0 {
      var minutes := runtime / 60.0;
      var rate := events as real / minutes;
      assert minutes > 0.0 && rate * minutes == events as real;
      assert rate * runtime == 60.0 * (rate * minutes);
    }
  }

  /** The average of a list: times its length it is the sum; 0 for the empty list. */
  predicate IsMeanOf(mean: real, s: seq<real>) {
    mean * |s| as real == Sum(s) && (s == [] ==> mean == 0.0)
  }

  lemma MeanMeans(s: seq<real>)
    ensures IsMeanOf(Mean(s), s)
  {
  }

  /** A percentage of the run time, 0 before any has passed. */
  predicate IsShareOf(percent: real, busy: real, runtime: real) {
    if runtime > 0.0 then percent * runtime == 100.0 * busy else percent == 0.0
  }

  lemma ShareMeans(busy: real, runtime: real)
    ensures IsShareOf(Percent(busy, runtime), busy, runtime)
  {
    PercentMeans(busy, runtime);
  }

  class DataLogger {
    const systemStartTime: real
    var totalParts: int
    var station1Count: int
    var station2Count: int
    var stationEntryTimes: map<Visit, real>
    var currentWip: int
    var maxWip: int
    var cycleTimesS1: seq<real>
    var cycleTimesS2: seq<real>
    var stationStates: map<StationId, Busy>
    var cornerStates: map<CornerId, Busy>
    var eventTimestamps: seq<Stamped>

    ghost var log: seq<Entry>

    ghost predicate Shape()
      reads this
    {
      && (forall n: StationId :: n in stationStates)
      && (forall c: CornerId :: c in cornerStates)
    }

    ghost function View(): Metrics
      requires Shape()
      reads this
    {
      Metrics(systemStartTime, totalParts, PerStation(station1Count, station2Count),
              stationEntryTimes, currentWip, maxWip, PerStation(cycleTimesS1, cycleTimesS2),
              PerStation(stationStates[1], stationStates[2]),
              PerCorner(cornerStates[1], cornerStates[2], cornerStates[3], cornerStates[4]),
              eventTimestamps)
    }

    /** The fields are what the whole log makes of them. */
    ghost predicate Valid()
      reads this
    {
      Shape() && View() == Replay(systemStartTime, log)
    }

    constructor (now: real)
      ensures Valid() && log == [] && systemStartTime == now
    {
      systemStartTime := now;
      totalParts, station1Count, station2Count := 0, 0, 0;
      stationEntryTimes := map[];
      currentWip, maxWip := 0, 0;
      cycleTimesS1, cycleTimesS2 := [], [];
      var idle := Busy(None, 0.0);
      stationStates := map[1 := idle, 2 := idle];
      cornerStates := map[1 := idle, 2 := idle, 3 := idle, 4 := idle];
      eventTimestamps := [];
      log := [];
    }

    method LogEvent(part: string, unit: Unit, activity: Activity, now: real)
      requires Valid()
      modifies this
      ensures Valid() && log == old(log) + [Entry(now, unit, part, activity)]
    {
      hide Replay, CountStep, EntryTimesStep, WipStep, MaxWipStep, CyclesStep, StationBusyStep, CornerBusyStep,
           RecentStep;
      ghost var m, e := View(), Entry(now, unit, part, activity);
      RecordCounts(m, e);
      UpdateKpis(unit, activity);
      UpdateRealtimeMetrics(part, unit, activity, now);
      log := log + [e];
      ReplayAppend(systemStartTime, old(log), e);
    }

    method UpdateKpis(unit: Unit, activity: Activity)
      modifies `totalParts, `station1Count, `station2Count
      ensures totalParts == old(totalParts) + if activity == Exit then 1 else 0
      ensures PerStation(station1Count, station2Count)
              == CountStep(old(PerStation(station1Count, station2Count)), Entry(0.0, unit, "", activity))
    {
      if activity == Exit {
        totalParts := totalParts + 1;
        if unit == StationUnit(1) {
          station1Count := station1Count + 1;
        } else if unit == StationUnit(2) {
          station2Count := station2Count + 1;
        }
      }
    }

    method UpdateRealtimeMetrics(part: string, unit: Unit, activity: Activity, now: real)
      requires Shape()
      modifies `stationEntryTimes, `currentWip, `maxWip, `cycleTimesS1, `cycleTimesS2,
               `stationStates, `cornerStates, `eventTimestamps
      ensures Shape()
      ensures var m, e := old(View()), Entry(now, unit, part, activity);
              View() == Record(m, e).(totalParts := m.totalParts, counts := m.counts)
    {
      hide Newer, Pushed;
      eventTimestamps := Newer(eventTimestamps + [Stamped(now, unit, activity)], now - RATE_WINDOW);
      match unit
      case StationUnit(n) =>
        if 1 <= n <= 2 {
          if activity == Enter {
            StationEnter(part, n, now);
          } else if activity == Exit {
            StationExit(part, n, now);
          }
        }
      case CornerUnit(c) =>
        if 1 <= c <= 4 {
          CornerActivity(part, c, activity, now);
        }
      case PlaceUnit(_) =>
    }

    method CornerActivity(part: string, c: CornerId, activity: Activity, now: real)
      requires Shape()
      modifies `cornerStates
      ensures Shape()
      ensures View().corners == CornerBusyStep(old(View().corners), Entry(now, CornerUnit(c), part, activity))
    {
      if activity == PushStart {
        if cornerStates[c].since.None? {
          cornerStates := cornerStates[c := cornerStates[c].(since := Some(now))];
        }
      } else if activity == PushComplete {
        if cornerStates[c].since.Some? {
          var duration := now - cornerStates[c].since.value;
          cornerStates := cornerStates[c := Busy(None, cornerStates[c].total + duration)];
        }
      }
    }

    method StationEnter(part: string, n: StationId, now: real)
      requires Shape()
      modifies `stationEntryTimes, `currentWip, `maxWip, `stationStates
      ensures Shape()
      ensures var m, e := old(View()), Entry(now, StationUnit(n), part, Enter);
              View() == Record(m, e).(totalParts := m.totalParts, counts := m.counts, recent := m.recent)
    {
      hide RecentStep, CountStep;
      stationEntryTimes := stationEntryTimes[Visit(part, n) := now];
      currentWip := currentWip + 1;
      if currentWip > maxWip {
        maxWip := currentWip;
      }
      if stationStates[n].since.None? {
        stationStates := stationStates[n := stationStates[n].(since := Some(now))];
      }
    }

    method KeepCycleTime(n: StationId, cycleTime: real)
      modifies `cycleTimesS1, `cycleTimesS2
      ensures PerStation(cycleTimesS1, cycleTimesS2)
              == old(PerStation(cycleTimesS1, cycleTimesS2)).With(
                   n, Pushed(old(if n == 1 then cycleTimesS1 else cycleTimesS2), cycleTime))
    {
      if n == 1 {
        cycleTimesS1 := cycleTimesS1 + [cycleTime];
        if |cycleTimesS1| > CYCLE_WINDOW {
          cycleTimesS1 := cycleTimesS1[1..];
        }
      } else {
        cycleTimesS2 := cycleTimesS2 + [cycleTime];
        if |cycleTimesS2| > CYCLE_WINDOW {
          cycleTimesS2 := cycleTimesS2[1..];
        }
      }
    }

    /** The cycle time of a visit that was logged in; other exits have none. */
    method CloseVisit(part: string, n: StationId, now: real)
      modifies `stationEntryTimes, `cycleTimesS1, `cycleTimesS2
      ensures var e := Entry(now, StationUnit(n), part, Exit);
              && stationEntryTimes == EntryTimesStep(old(stationEntryTimes), e)
              && PerStation(cycleTimesS1, cycleTimesS2)
                 == CyclesStep(old(PerStation(cycleTimesS1, cycleTimesS2)), old(stationEntryTimes), e)
    {
      hide Pushed;
      var key := Visit(part, n);
      if key in stationEntryTimes {
        var cycleTime := now - stationEntryTimes[key];
        KeepCycleTime(n, cycleTime);
        stationEntryTimes := stationEntryTimes - {key};
      }
    }

    method EndBusy(part: string, n: StationId, now: real)
      requires Shape()
      modifies `stationStates
      ensures Shape()
      ensures PerStation(stationStates[1], stationStates[2])
              == StationBusyStep(old(PerStation(stationStates[1], stationStates[2])), Entry(now, StationUnit(n), part, Exit))
    {
      if stationStates[n].since.Some? {
        var duration := now - stationStates[n].since.value;
        stationStates := stationStates[n := Busy(None, stationStates[n].total + duration)];
      }
    }

    method StationExit(part: string, n: StationId, now: real)
      requires Shape()
      modifies `stationEntryTimes, `currentWip, `cycleTimesS1, `cycleTimesS2, `stationStates
      ensures Shape()
      ensures var m, e := old(View()), Entry(now, StationUnit(n), part, Exit);
              View() == Record(m, e).(totalParts := m.totalParts, counts := m.counts, recent := m.recent)
    {
      hide CyclesStep, EntryTimesStep, RecentStep, StationBusyStep;
      CloseVisit(part, n, now);
      if n == 2 {
        currentWip := if currentWip - 1 > 0 then currentWip - 1 else 0;
      }
      EndBusy(part, n, now);
    }

    /** Every figure reported is the plain one of the event log. */
    method GetKpis(now: real) returns (k: Kpis)
      requires Valid()
      ensures k.runtimeSeconds == now - systemStartTime
      ensures k.totalParts == CountActivity(log, Exit)
      ensures k.station1Count == Count(log, StationUnit(1), Exit)
      ensures k.station2Count == Count(log, StationUnit(2), Exit)
      ensures if k.runtimeSeconds > 60.0
              then k.throughputPerHour * k.runtimeSeconds == 3600.0 * CountActivity(log, Exit) as real
              else k.throughputPerHour == 0.0
      ensures IsMeanOf(k.avgCycleTimeS1, LastUpTo(AllCycles(log, 1), 100))
      ensures IsMeanOf(k.avgCycleTimeS2, LastUpTo(AllCycles(log, 2), 100))
      ensures k.currentWip == PlainWip(log)
      ensures WipBounded(log, k.maxWip) && WipReached(log, k.maxWip)
      ensures forall n: StationId :: IsShareOf(k.stationUtilization.At(n), BusyOver(log, StationUnit(n), now), k.runtimeSeconds)
      ensures forall c: CornerId :: IsShareOf(k.cornerUtilization.At(c), BusyOver(log, CornerUnit(c), now), k.runtimeSeconds)
      ensures if k.runtimeSeconds <= 0.0 then k.eventRatePerMinute == 0.0
              else if k.runtimeSeconds < 3600.0
              then k.eventRatePerMinute * k.runtimeSeconds == 60.0 * |Surviving(log)| as real
              else k.eventRatePerMinute * 60.0 == |Surviving(log)| as real
      ensures Ordered(log) && log != [] ==> Surviving(log) == Newer(Stamps(log), Last(log).time - 3600.0)
    {
      hide PlainWip, WipBounded, WipReached, Replay, BusyOver, AllCycles, LastUpTo, Count, CountActivity;
      hide Surviving, Newer, Stamps, Ordered, Mean, Percent, EventRate, Throughput, IsMeanOf, IsShareOf;
      var runtime := now - systemStartTime;
      var s1Util := Percent(stationStates[1].Time(now), runtime);
      var s2Util := Percent(stationStates[2].Time(now), runtime);
      var c1Util := Percent(cornerStates[1].Time(now), runtime);
      var c2Util := Percent(cornerStates[2].Time(now), runtime);
      var c3Util := Percent(cornerStates[3].Time(now), runtime);
      var c4Util := Percent(cornerStates[4].Time(now), runtime);
      k := Kpis(totalParts, station1Count, station2Count, Throughput(totalParts, runtime),
                Mean(cycleTimesS1), Mean(cycleTimesS2), currentWip, maxWip,
                PerStation(s1Util, s2Util), PerCorner(c1Util, c2Util, c3Util, c4Util),
                EventRate(|eventTimestamps|, runtime), runtime);

      ThroughputMeans(totalParts, runtime);
      EventRateMeans(|eventTimestamps|, runtime);
      MeanMeans(cycleTimesS1);
      MeanMeans(cycleTimesS2);
      forall n: StationId
        ensures IsShareOf(k.stationUtilization.At(n), stationStates[n].Time(now), runtime)
      {
        ShareMeans(stationStates[n].Time(now), runtime);
      }
      forall c: CornerId
        ensures IsShareOf(k.cornerUtilization.At(c), cornerStates[c].Time(now), runtime)
      {
        ShareMeans(cornerStates[c].Time(now), runtime);
      }
      ReplayMeans(systemStartTime, log, now);
      assert StationMeans(systemStartTime, log, now, 1) && StationMeans(systemStartTime, log, now, 2);
    }
  }
}
