/** What the consumer reports reaches the event log: every orphan and every ghost, once each, in
    order, under the unit, part and activity that the source gives it. */
module Reports {
  import opened Basics
  import opened Plant
  import opened CepRuns
  import opened System

  /** A log entry without its time. */
  datatype Told = Told(unit: Unit, part: string, error: Activity)

  function OrphansTold(es: seq<SensorEvent>): seq<Told> {
    if es == [] then []
    else OrphansTold(Front(es)) + [Told(PlaceUnit(Last(es).place), "UNKNOWN", ErrorOrphan(Last(es).barrier))]
  }

  function GhostsTold(scans: seq<NfcEvent>): seq<Told> {
    if scans == [] then []
    else GhostsTold(Front(scans)) + [Told(StationUnit(Last(scans).station), Last(scans).part, ErrorGhostNfc)]
  }

  function Told1(e: Entry): Told {
    Told(e.unit, e.part, e.activity)
  }

  /** The orphan and the ghost errors in a log. */
  function OrphansLogged(log: seq<Entry>): seq<Told> {
    if log == [] then []
    else if Last(log).activity.ErrorOrphan? then OrphansLogged(Front(log)) + [Told1(Last(log))]
    else OrphansLogged(Front(log))
  }

  function GhostsLogged(log: seq<Entry>): seq<Told> {
    if log == [] then []
    else if Last(log).activity == ErrorGhostNfc then GhostsLogged(Front(log)) + [Told1(Last(log))]
    else GhostsLogged(Front(log))
  }

  /** The orphans and the ghosts still in an outbox. */
  function OrphansInside(out: seq<Outgoing>): seq<SensorEvent> {
    if out == [] then []
    else if Last(out).OrphanReport? then OrphansInside(Front(out)) + [Last(out).event]
    else OrphansInside(Front(out))
  }

  function GhostsInside(out: seq<Outgoing>): seq<NfcEvent> {
    if out == [] then []
    else if Last(out).GhostReport? then GhostsInside(Front(out)) + [Last(out).scan]
    else GhostsInside(Front(out))
  }

  // ---------------------------------------------------------------------- the lists

  lemma {:induction false} ToldConcat(a: seq<SensorEvent>, b: seq<SensorEvent>, c: seq<NfcEvent>, d: seq<NfcEvent>)
    ensures OrphansTold(a + b) == OrphansTold(a) + OrphansTold(b)
    ensures GhostsTold(c + d) == GhostsTold(c) + GhostsTold(d)
    decreases |b| + |d|
  {
    if b != [] {
      ToldConcat(a, Front(b), c, d);
      assert Front(a + b) == a + Front(b) && Last(a + b) == Last(b);
    } else if d != [] {
      ToldConcat(a, b, c, Front(d));
      assert Front(c + d) == c + Front(d) && Last(c + d) == Last(d);
    } else {
      assert a + b == a && c + d == c;
    }
  }

  lemma {:induction false} InsideConcat(a: seq<Outgoing>, b: seq<Outgoing>)
    ensures OrphansInside(a + b) == OrphansInside(a) + OrphansInside(b)
    ensures GhostsInside(a + b) == GhostsInside(a) + GhostsInside(b)
  {
    if b == [] {
      assert a + b == a;
    } else {
      InsideConcat(a, Front(b));
      assert Front(a + b) == a + Front(b) && Last(a + b) == Last(b);
    }
  }

  lemma {:induction false} InsideHands(ds: seq<Delivery>)
    ensures OrphansInside(HandAll(ds)) == [] && GhostsInside(HandAll(ds)) == []
  {
    if ds != [] {
      InsideHands(Front(ds));
      AppendFront(HandAll(Front(ds)), Hand(Last(ds)));
    }
  }

  lemma {:induction false} InsideOrphans(es: seq<SensorEvent>)
    ensures OrphansInside(OrphanAll(es)) == es && GhostsInside(OrphanAll(es)) == []
  {
    if es != [] {
      InsideOrphans(Front(es));
      AppendFront(OrphanAll(Front(es)), OrphanReport(Last(es)));
      assert es == Front(es) + [Last(es)];
    }
  }

  lemma {:induction false} InsideGhosts(scans: seq<NfcEvent>)
    ensures OrphansInside(GhostAll(scans)) == [] && GhostsInside(GhostAll(scans)) == scans
  {
    if scans != [] {
      InsideGhosts(Front(scans));
      AppendFront(GhostAll(Front(scans)), GhostReport(Last(scans)));
      assert scans == Front(scans) + [Last(scans)];
    }
  }

  lemma SentInside(t: Trace)
    ensures OrphansInside(Sent(t)) == t.orphans && GhostsInside(Sent(t)) == t.ghosts
  {
    hide HandAll, OrphanAll, GhostAll, OrphansInside, GhostsInside;
    var hands, orphans, ghosts := HandAll(t.deliveries), OrphanAll(t.orphans), GhostAll(t.ghosts);
    InsideConcat(hands + orphans, ghosts);
    InsideConcat(hands, orphans);
    InsideHands(t.deliveries);
    InsideOrphans(t.orphans);
    InsideGhosts(t.ghosts);
  }

  lemma InsideTail(out: seq<Outgoing>)
    requires out != []
    ensures OrphansInside(out) == (if out[0].OrphanReport? then [out[0].event] else []) + OrphansInside(out[1..])
    ensures GhostsInside(out) == (if out[0].GhostReport? then [out[0].scan] else []) + GhostsInside(out[1..])
  {
    var first := [out[0]];
    assert out == first + out[1..];
    InsideConcat(first, out[1..]);
    assert Front(first) == [];
  }

  // ------------------------------------------------------------------------ the log

  lemma LoggedAppend(log: seq<Entry>, e: Entry)
    ensures OrphansLogged(log + [e]) == OrphansLogged(log) + if e.activity.ErrorOrphan? then [Told1(e)] else []
    ensures GhostsLogged(log + [e]) == GhostsLogged(log) + if e.activity == ErrorGhostNfc then [Told1(e)] else []
  {
    AppendFront(log, e);
  }

  /** The log grows by at most one entry, which is no error report. */
  ghost predicate NoReport(log: seq<Entry>, log': seq<Entry>) {
    log' == log || exists e: Entry :: log' == log + [e] && !e.activity.ErrorOrphan? && e.activity != ErrorGhostNfc
  }

  lemma MachinesReportNothing(cfg: Config, p: Plant, a: Action)
    requires !a.Report?
    ensures NoReport(p.sh.log, Step(cfg, p, a).sh.log)
  {
    var log' := Step(cfg, p, a).sh.log;
    if log' != p.sh.log {
      assert log' == p.sh.log + [Last(log')];
    }
  }

  lemma StepLogs(cfg: Config, p: Plant, a: Action)
    ensures var log' := Step(cfg, p, a).sh.log;
            && OrphansLogged(log')
               == OrphansLogged(p.sh.log)
                  + (if a.Report? && a.error.ErrorOrphan? then [Told(a.unit, a.part, a.error)] else [])
            && GhostsLogged(log')
               == GhostsLogged(p.sh.log)
                  + (if a.Report? && a.error == ErrorGhostNfc then [Told(a.unit, a.part, a.error)] else [])
  {
    hide OrphansLogged, GhostsLogged;
    var log' := Step(cfg, p, a).sh.log;
    if a.Report? {
      LoggedAppend(p.sh.log, Entry(a.t1, a.unit, a.part, a.error));
    } else {
      hide Step;
      MachinesReportNothing(cfg, p, a);
      if log' != p.sh.log {
        var e: Entry :| log' == p.sh.log + [e] && !e.activity.ErrorOrphan? && e.activity != ErrorGhostNfc;
        LoggedAppend(p.sh.log, e);
      }
    }
  }

  // ---------------------------------------------------------------------- whole runs

  /** Logged or still in the outbox. */
  ghost predicate AllReported(log: seq<Entry>, out: seq<Outgoing>, t: Trace) {
    && OrphansLogged(log) + OrphansTold(OrphansInside(out)) == OrphansTold(t.orphans)
    && GhostsLogged(log) + GhostsTold(GhostsInside(out)) == GhostsTold(t.ghosts)
  }

  lemma TurnReports(log: seq<Entry>, t: Trace, next: Trace)
    requires AllReported(log, [], t)
    ensures AllReported(log, Sent(next), t.Then(next))
  {
    hide OrphansLogged, GhostsLogged;
    SentInside(next);
    ToldConcat(t.orphans, next.orphans, t.ghosts, next.ghosts);
    assert OrphansInside([]) == [] && GhostsInside([]) == [];
    hide OrphansInside, GhostsInside, Sent;
    assert OrphansLogged(log) + [] == OrphansLogged(log) && GhostsLogged(log) + [] == GhostsLogged(log);
  }

  lemma OneTold(e: SensorEvent, r: NfcEvent)
    ensures OrphansTold([e]) == [Told(PlaceUnit(e.place), "UNKNOWN", ErrorOrphan(e.barrier))]
    ensures GhostsTold([r]) == [Told(StationUnit(r.station), r.part, ErrorGhostNfc)]
  {
    assert Front([e]) == [] && Front([r]) == [];
  }

  lemma PassReports(cfg: Config, p: Plant, out: seq<Outgoing>, t: Trace, t1: real, t2: real)
    requires out != [] && AllReported(p.sh.log, out, t)
    ensures AllReported(Step(cfg, p, ActionOf(out[0], t1, t2)).sh.log, out[1..], t)
  {
    hide Step, OrphansLogged, GhostsLogged, OrphansInside, GhostsInside, OrphansTold, GhostsTold;
    StepLogs(cfg, p, ActionOf(out[0], t1, t2));
    InsideTail(out);
    var rest := out[1..];
    match out[0]
    case Hand(_) =>
      assert [] + OrphansInside(rest) == OrphansInside(rest) && [] + GhostsInside(rest) == GhostsInside(rest);
    case OrphanReport(e) =>
      OneTold(e, NfcEvent(0.0, 0, ""));
      ToldConcat([e], OrphansInside(rest), [], []);
      assert [] + GhostsInside(rest) == GhostsInside(rest);
    case GhostReport(r) =>
      OneTold(SensorEvent(0.0, StationEntry(1), Nowhere), r);
      ToldConcat([], [], [r], GhostsInside(rest));
      assert [] + OrphansInside(rest) == OrphansInside(rest);
  }

  lemma AlarmReports(cfg: Config, p: Plant, out: seq<Outgoing>, t: Trace, id: nat, t1: real, t2: real)
    requires AllReported(p.sh.log, out, t)
    ensures AllReported(Step(cfg, p, Fire(id, t1, t2)).sh.log, out, t)
  {
    hide Step;
    StepLogs(cfg, p, Fire(id, t1, t2));
    assert OrphansLogged(p.sh.log) + [] == OrphansLogged(p.sh.log);
    assert GhostsLogged(p.sh.log) + [] == GhostsLogged(p.sh.log);
  }

  lemma NothingReported()
    ensures AllReported([], [], NO_TRACE)
  {
  }

  /** In every run of the wired system the orphan and ghost errors in the event log, followed by
      those still on their way, are in order exactly the orphans and ghosts of the consumer. */
  lemma {:induction false} SystemLogsReports(cfg: Config, w: Windows, steps: seq<SysStep>)
    ensures var s := RunSys(cfg, w, steps);
            AllReported(s.plant.sh.log, s.outbox, TraceRun(w, Inputs(cfg, w, steps)))
  {
    hide AllReported, Iterate, TraceOf, Sent, ActionOf, Step;
    SystemRunsConsumer(cfg, w, steps);
    if steps == [] {
      NothingReported();
    } else {
      var front, step := Front(steps), Last(steps);
      var s, inputs := RunSys(cfg, w, front), Inputs(cfg, w, front);
      SystemLogsReports(cfg, w, front);
      SystemRunsConsumer(cfg, w, front);
      match step
      case Turn(now) =>
        if s.outbox == [] {
          var input := Input(s.reader.queue, s.mcpQueue, s.nfcQueue, now);
          AppendFront(inputs, input);
          TurnReports(s.plant.sh.log, TraceRun(w, inputs), TraceOf(w, s.cep, input));
        }
      case Pass(t1, t2) =>
        if s.outbox != [] {
          PassReports(cfg, s.plant, s.outbox, TraceRun(w, inputs), t1, t2);
        }
      case Alarm(id, t1, t2) => AlarmReports(cfg, s.plant, s.outbox, TraceRun(w, inputs), id, t1, t2);
      case _ =>
    }
  }
}
