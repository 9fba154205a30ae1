/** The incremental bookkeeping of data_logger.py: one step per logged event. */
module Metrics {
  import opened Basics

  datatype Busy = Busy(since: Option<real>, total: real) {
    function Begin(now: real): Busy {
      if since.None? then this.(since := Some(now)) else this
    }

    function End(now: real): Busy {
      if since.Some? then Busy(None, total + (now - since.value)) else this
    }

    /** Closed intervals plus the open one, as a query at `now` counts them. */
    function Time(now: real): real {
      if since.Some? then total + (now - since.value) else total
    }
  }

  datatype Stamped = Stamped(time: real, unit: Unit, activity: Activity)
  datatype Visit = Visit(part: string, station: StationId)

  const RATE_WINDOW := 3600.0
  const CYCLE_WINDOW := 100

  datatype Metrics = Metrics(
    start: real,
    totalParts: int,
    counts: PerStation<int>,
    entryTimes: map<Visit, real>,
    wip: int,
    maxWip: int,
    cycles: PerStation<seq<real>>,
    stations: PerStation<Busy>,
    corners: PerCorner<Busy>,
    recent: seq<Stamped>)

  function Initial(start: real): Metrics {
    var idle := Busy(None, 0.0);
    Metrics(start, 0, PerStation(0, 0), map[], 0, 0, PerStation([], []),
            PerStation(idle, idle), PerCorner(idle, idle, idle, idle), [])
  }

  /** Entries newer than `cutoff`, in order. */
  function Newer(s: seq<Stamped>, cutoff: real): seq<Stamped> {
    if s == [] then []
    else if Last(s).time > cutoff then Newer(Front(s), cutoff) + [Last(s)]
    else Newer(Front(s), cutoff)
  }

  function Pushed(cycles: seq<real>, t: real): seq<real> {
    var longer := cycles + [t];
    if |longer| > CYCLE_WINDOW then longer[1..] else longer
  }

  predicate ByStation(e: Entry, a: Activity) {
    e.unit.StationUnit? && 1 <= e.unit.n <= 2 && e.activity == a
  }

  predicate ByCorner(e: Entry, a: Activity) {
    e.unit.CornerUnit? && 1 <= e.unit.c <= 4 && e.activity == a
  }

  function Key(e: Entry): Visit
    requires ByStation(e, e.activity)
  {
    Visit(e.part, e.unit.n)
  }

  function CountStep(counts: PerStation<int>, e: Entry): PerStation<int> {
    if ByStation(e, Exit) then counts.With(e.unit.n, counts.At(e.unit.n) + 1) else counts
  }

  function EntryTimesStep(times: map<Visit, real>, e: Entry): map<Visit, real> {
    if ByStation(e, Enter) then times[Key(e) := e.time]
    else if ByStation(e, Exit) then times - {Key(e)}
    else times
  }

  function WipStep(wip: int, e: Entry): int {
    if ByStation(e, Enter) then wip + 1
    else if ByStation(e, Exit) && e.unit.n == 2 then if wip - 1 > 0 then wip - 1 else 0
    else wip
  }

  function MaxWipStep(maxWip: int, wip: int, e: Entry): int {
    if ByStation(e, Enter) && wip + 1 > maxWip then wip + 1 else maxWip
  }

  function CyclesStep(cycles: PerStation<seq<real>>, times: map<Visit, real>, e: Entry): PerStation<seq<real>> {
    if ByStation(e, Exit) && Key(e) in times then
      cycles.With(e.unit.n, Pushed(cycles.At(e.unit.n), e.time - times[Key(e)]))
    else cycles
  }

  function StationBusyStep(busy: PerStation<Busy>, e: Entry): PerStation<Busy> {
    if ByStation(e, Enter) then busy.With(e.unit.n, busy.At(e.unit.n).Begin(e.time))
    else if ByStation(e, Exit) then busy.With(e.unit.n, busy.At(e.unit.n).End(e.time))
    else busy
  }

  function CornerBusyStep(busy: PerCorner<Busy>, e: Entry): PerCorner<Busy> {
    if ByCorner(e, PushStart) then busy.With(e.unit.c, busy.At(e.unit.c).Begin(e.time))
    else if ByCorner(e, PushComplete) then busy.With(e.unit.c, busy.At(e.unit.c).End(e.time))
    else busy
  }

  function RecentStep(recent: seq<Stamped>, e: Entry): seq<Stamped> {
    Newer(recent + [Stamped(e.time, e.unit, e.activity)], e.time - RATE_WINDOW)
  }

  /** All bookkeeping of one `log_event` call. */
  function Record(m: Metrics, e: Entry): Metrics {
    Metrics(
      m.start,
      m.totalParts + if e.activity == Exit then 1 else 0,
      CountStep(m.counts, e),
      EntryTimesStep(m.entryTimes, e),
      WipStep(m.wip, e),
      MaxWipStep(m.maxWip, m.wip, e),
      CyclesStep(m.cycles, m.entryTimes, e),
      StationBusyStep(m.stations, e),
      CornerBusyStep(m.corners, e),
      RecentStep(m.recent, e))
  }

  lemma RecordCounts(m: Metrics, e: Entry)
    ensures Record(m, e).totalParts == m.totalParts + if e.activity == Exit then 1 else 0
    ensures Record(m, e).counts == CountStep(m.counts, e)
    ensures CountStep(m.counts, e) == CountStep(m.counts, Entry(0.0, e.unit, "", e.activity))
  {
  }

  /** The bookkeeping after a whole event log. */
  function Replay(start: real, log: seq<Entry>): Metrics {
    if log == [] then Initial(start)
    else Record(Replay(start, Front(log)), Last(log))
  }

  lemma ReplayAppend(start: real, log: seq<Entry>, e: Entry)
    ensures Replay(start, log + [e]) == Record(Replay(start, log), e)
  {
    AppendFront(log, e);
  }
}
