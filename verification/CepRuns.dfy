/** Iterations of the consumer: consume, fuse, expire. What is conserved over whole runs. */
module CepRuns {
  import opened Basics
  import opened Fusion

  datatype Windows = Windows(fusion: real, expiry: real)

  datatype Stats = Stats(fused: int, orphaned: int, ghosts: int, totalGpio: int, totalNfc: int)

  datatype Cep = Cep(gpio: seq<SensorEvent>, nfc: seq<NfcEvent>, stats: Stats)

  /** What one iteration finds in the three queues, and the time at which it expires. */
  datatype Input = Input(gpio: seq<SensorEvent>, mcp: seq<SensorEvent>, nfc: seq<NfcEvent>, now: real)

  /** Everything that leaves or enters the pending lists. */
  datatype Trace = Trace(
    sensed: seq<SensorEvent>,
    scanned: seq<NfcEvent>,
    deliveries: seq<Delivery>,
    fusedReads: seq<NfcEvent>,
    orphans: seq<SensorEvent>,
    ghosts: seq<NfcEvent>)
  {
    function Then(next: Trace): Trace {
      Trace(sensed + next.sensed, scanned + next.scanned, deliveries + next.deliveries,
            fusedReads + next.fusedReads, orphans + next.orphans, ghosts + next.ghosts)
    }
  }

  /** What the consumer hands to the rest of the system, one piece after the other. */
  datatype Outgoing = Hand(delivery: Delivery) | OrphanReport(event: SensorEvent) | GhostReport(scan: NfcEvent)

  function HandAll(ds: seq<Delivery>): (r: seq<Outgoing>)
    ensures |r| == |ds|
  {
    if ds == [] then [] else HandAll(Front(ds)) + [Hand(Last(ds))]
  }

  function OrphanAll(es: seq<SensorEvent>): (r: seq<Outgoing>)
    ensures |r| == |es|
  {
    if es == [] then [] else OrphanAll(Front(es)) + [OrphanReport(Last(es))]
  }

  function GhostAll(rs: seq<NfcEvent>): (r: seq<Outgoing>)
    ensures |r| == |rs|
  {
    if rs == [] then [] else GhostAll(Front(rs)) + [GhostReport(Last(rs))]
  }

  /** Everything one iteration sends out, in order. */
  function Sent(t: Trace): seq<Outgoing> {
    HandAll(t.deliveries) + OrphanAll(t.orphans) + GhostAll(t.ghosts)
  }

  const NO_TRACE := Trace([], [], [], [], [], [])
  const FRESH_CEP := Cep([], [], Stats(0, 0, 0, 0, 0))

  predicate Expired(stamp: real, now: real, expiry: real) {
    now - stamp > expiry
  }

  function SensedAt(e: SensorEvent): real {
    e.stamp
  }

  function ReadAt(r: NfcEvent): real {
    r.stamp
  }

  /** The elements with the given expiry verdict, in order. */
  function Aged<T>(s: seq<T>, stampOf: T -> real, now: real, expiry: real, expired: bool): (r: seq<T>)
    ensures |r| <= |s|
  {
    if s == [] then []
    else if Expired(stampOf(Last(s)), now, expiry) == expired then
      Aged(Front(s), stampOf, now, expiry, expired) + [Last(s)]
    else Aged(Front(s), stampOf, now, expiry, expired)
  }

  function ReadsAt(nfc: seq<NfcEvent>, positions: seq<nat>): seq<NfcEvent>
    requires forall i :: 0 <= i < |positions| ==> positions[i] < |nfc|
  {
    seq(|positions|, i requires 0 <= i < |positions| => nfc[positions[i]])
  }

  function Consume(c: Cep, input: Input): Cep {
    Cep(c.gpio + input.gpio + input.mcp, c.nfc + input.nfc,
        c.stats.(totalGpio := c.stats.totalGpio + |input.gpio| + |input.mcp|,
                 totalNfc := c.stats.totalNfc + |input.nfc|))
  }

  function Fuse(w: Windows, c: Cep): Cep {
    var pass := FusePass(c.gpio, c.nfc, w.fusion);
    Cep(pass.gpio, pass.nfc, c.stats.(fused := c.stats.fused + pass.fused))
  }

  function Expire(w: Windows, c: Cep, now: real): Cep {
    Cep(Aged(c.gpio, SensedAt, now, w.expiry, false), Aged(c.nfc, ReadAt, now, w.expiry, false),
        c.stats.(orphaned := c.stats.orphaned + |Aged(c.gpio, SensedAt, now, w.expiry, true)|,
                 ghosts := c.stats.ghosts + |Aged(c.nfc, ReadAt, now, w.expiry, true)|))
  }

  /** A pass that fails leaves the iteration through the exception handler: nothing expires. */
  predicate Completes(w: Windows, c: Cep, input: Input) {
    var consumed := Consume(c, input);
    FusePass(consumed.gpio, consumed.nfc, w.fusion).ok
  }

  function Iterate(w: Windows, c: Cep, input: Input): Cep {
    var fused := Fuse(w, Consume(c, input));
    if Completes(w, c, input) then Expire(w, fused, input.now) else fused
  }

  function TraceOf(w: Windows, c: Cep, input: Input): Trace {
    var consumed := Consume(c, input);
    var fused := Fuse(w, consumed);
    Trace(
      input.gpio + input.mcp,
      input.nfc,
      Deliveries(consumed.gpio, consumed.nfc, w.fusion),
      ReadsAt(consumed.nfc, Picks(consumed.gpio, consumed.nfc, w.fusion)),
      if Completes(w, c, input) then Aged(fused.gpio, SensedAt, input.now, w.expiry, true) else [],
      if Completes(w, c, input) then Aged(fused.nfc, ReadAt, input.now, w.expiry, true) else [])
  }

  lemma IterationSends(w: Windows, c: Cep, input: Input)
    ensures var consumed := Consume(c, input);
            var handed := HandAll(Deliveries(consumed.gpio, consumed.nfc, w.fusion));
            var fused := Fuse(w, consumed);
            Sent(TraceOf(w, c, input)) ==
            if Completes(w, c, input) then
              handed + OrphanAll(Aged(fused.gpio, SensedAt, input.now, w.expiry, true))
              + GhostAll(Aged(fused.nfc, ReadAt, input.now, w.expiry, true))
            else handed
  {
    assert OrphanAll([]) == [] && GhostAll([]) == [];
  }

  function RunCep(w: Windows, inputs: seq<Input>): Cep {
    if inputs == [] then FRESH_CEP else Iterate(w, RunCep(w, Front(inputs)), Last(inputs))
  }

  function TraceRun(w: Windows, inputs: seq<Input>): Trace {
    if inputs == [] then NO_TRACE
    else TraceRun(w, Front(inputs)).Then(TraceOf(w, RunCep(w, Front(inputs)), Last(inputs)))
  }

  // ------------------------------------------------------------- splitting deliveries

  /** The events handed over without and with a part, in order. */
  function Plain(ds: seq<Delivery>): seq<SensorEvent> {
    if ds == [] then []
    else if IsEntryBarrier(Last(ds).event.barrier) then Plain(Front(ds))
    else Plain(Front(ds)) + [Last(ds).event]
  }

  function Entries(ds: seq<Delivery>): seq<SensorEvent> {
    if ds == [] then []
    else if IsEntryBarrier(Last(ds).event.barrier) then Entries(Front(ds)) + [Last(ds).event]
    else Entries(Front(ds))
  }

  function NonEntry(s: seq<SensorEvent>): seq<SensorEvent> {
    if s == [] then []
    else if IsEntryBarrier(Last(s).barrier) then NonEntry(Front(s))
    else NonEntry(Front(s)) + [Last(s)]
  }

  lemma {:induction false} PlainConcat(a: seq<Delivery>, b: seq<Delivery>)
    ensures Plain(a + b) == Plain(a) + Plain(b) && Entries(a + b) == Entries(a) + Entries(b)
  {
    if b == [] {
      assert a + b == a;
    } else {
      PlainConcat(a, Front(b));
      assert Front(a + b) == a + Front(b) && Last(a + b) == Last(b);
    }
  }

  lemma {:induction false} NonEntryConcat(a: seq<SensorEvent>, b: seq<SensorEvent>)
    ensures NonEntry(a + b) == NonEntry(a) + NonEntry(b)
  {
    if b == [] {
      assert a + b == a;
    } else {
      NonEntryConcat(a, Front(b));
      assert Front(a + b) == a + Front(b) && Last(a + b) == Last(b);
    }
  }

  // -------------------------------------------------------------- one pass, sensor side

  function If<T>(b: bool, x: T): seq<T> {
    if b then [x] else []
  }

  /** Where one more trigger goes: to exactly one of the three lists. */
  lemma PassAppend(front: seq<SensorEvent>, g: SensorEvent, nfc: seq<NfcEvent>, window: real)
    ensures var before, after := Deliveries(front, nfc, window), Deliveries(front + [g], nfc, window);
            && Plain(after) == Plain(before) + If(!IsEntryBarrier(g.barrier), g)
            && Entries(after) == Entries(before) + If(Fuses(g, nfc, window), g)
            && Unhandled(front + [g], nfc, window) == Unhandled(front, nfc, window) + If(!Handled(g, nfc, window), g)
  {
    AppendFront(front, g);
    AppendFront(Deliveries(front, nfc, window), Delivery(g, PartFor(g, nfc, window)));
  }

  lemma OneOfThree<T>(m: multiset<T>, a: multiset<T>, b: multiset<T>, c: multiset<T>, x: T, toA: bool, toB: bool)
    requires m == a + b + c && !(toA && toB)
    ensures m + multiset{x} == (a + multiset(If(toA, x))) + (b + multiset(If(toB, x))) + (c + multiset(If(!toA && !toB, x)))
  {
  }

  lemma {:induction false} TriggersSplit(gpio: seq<SensorEvent>, nfc: seq<NfcEvent>, window: real)
    ensures var ds := Deliveries(gpio, nfc, window);
            multiset(gpio) == multiset(Plain(ds)) + multiset(Entries(ds)) + multiset(Unhandled(gpio, nfc, window))
  {
    if gpio != [] {
      var front, g := Front(gpio), Last(gpio);
      var ds := Deliveries(front, nfc, window);
      TriggersSplit(front, nfc, window);
      assert gpio == front + [g];
      PassAppend(front, g, nfc, window);
      OneOfThree(multiset(front), multiset(Plain(ds)), multiset(Entries(ds)), multiset(Unhandled(front, nfc, window)),
                 g, !IsEntryBarrier(g.barrier), Fuses(g, nfc, window));
    }
  }

  lemma {:induction false} PlainKeepsOrder(gpio: seq<SensorEvent>, nfc: seq<NfcEvent>, window: real)
    ensures var ds := Deliveries(gpio, nfc, window);
            && Plain(ds) == NonEntry(gpio)
            && |Entries(ds)| == |Picks(gpio, nfc, window)|
            && NonEntry(Unhandled(gpio, nfc, window)) == []
  {
    if gpio != [] {
      var front, g := Front(gpio), Last(gpio);
      PlainKeepsOrder(front, nfc, window);
      assert gpio == front + [g];
      PassAppend(front, g, nfc, window);
    }
  }

  lemma {:induction false} AgedSplit<T>(s: seq<T>, stampOf: T -> real, now: real, expiry: real)
    ensures var gone, left := Aged(s, stampOf, now, expiry, true), Aged(s, stampOf, now, expiry, false);
            multiset(s) == multiset(gone) + multiset(left) && |s| == |gone| + |left|
  {
    if s != [] {
      AgedSplit(Front(s), stampOf, now, expiry);
      assert s == Front(s) + [Last(s)];
    }
  }

  lemma {:induction false} AgedEntries(s: seq<SensorEvent>, now: real, expiry: real, expired: bool)
    requires NonEntry(s) == []
    ensures NonEntry(Aged(s, SensedAt, now, expiry, expired)) == []
  {
    if s != [] {
      AgedEntries(Front(s), now, expiry, expired);
      AppendFront(Aged(Front(s), SensedAt, now, expiry, expired), Last(s));
    }
  }

  // ------------------------------------------------------- sensor events over whole runs

  /** Every sensed event is, exactly once, delivered plain, fused, orphaned or still pending. */
  ghost predicate SensorsSplit(c: Cep, t: Trace) {
    multiset(t.sensed) == multiset(Plain(t.deliveries)) + multiset(Entries(t.deliveries))
                          + multiset(t.orphans) + multiset(c.gpio)
  }

  /** Plain events come out in the order they came in and are never orphaned; the counters are
      the cardinalities. */
  ghost predicate SensorsInOrder(c: Cep, t: Trace) {
    && Plain(t.deliveries) == NonEntry(t.sensed)
    && NonEntry(c.gpio) == [] && NonEntry(t.orphans) == []
    && c.stats.totalGpio == |t.sensed|
    && c.stats.fused == |Entries(t.deliveries)|
    && c.stats.orphaned == |t.orphans|
  }

  ghost predicate SensorBalance(c: Cep, t: Trace) {
    SensorsSplit(c, t) && SensorsInOrder(c, t)
  }

  lemma Regroup<T>(s: multiset<T>, f: multiset<T>, p: multiset<T>, e: multiset<T>, o: multiset<T>, g: multiset<T>,
                   p': multiset<T>, e': multiset<T>, u: multiset<T>)
    requires s == p + e + o + g && g + f == p' + e' + u
    ensures s + f == (p + p') + (e + e') + o + u
  {
    forall x
      ensures (s + f)[x] == ((p + p') + (e + e') + o + u)[x]
    {
      assert s[x] == (p + e + o + g)[x];
      assert (g + f)[x] == (p' + e' + u)[x];
    }
  }

  lemma SplitAfterPass(w: Windows, c: Cep, t: Trace, input: Input)
    requires SensorsSplit(c, t)
    ensures var consumed := Consume(c, input);
            var ds := t.deliveries + Deliveries(consumed.gpio, consumed.nfc, w.fusion);
            SensorsSplit(Fuse(w, consumed), t.(sensed := t.sensed + (input.gpio + input.mcp), deliveries := ds))
  {
    hide Plain, Entries, Deliveries, Unhandled, Picks;
    var consumed, arrived := Consume(c, input), input.gpio + input.mcp;
    var ds := Deliveries(consumed.gpio, consumed.nfc, w.fusion);
    TriggersSplit(consumed.gpio, consumed.nfc, w.fusion);
    PlainConcat(t.deliveries, ds);
    assert consumed.gpio == c.gpio + arrived;
    Regroup(multiset(t.sensed), multiset(arrived), multiset(Plain(t.deliveries)), multiset(Entries(t.deliveries)),
            multiset(t.orphans), multiset(c.gpio), multiset(Plain(ds)), multiset(Entries(ds)),
            multiset(Unhandled(consumed.gpio, consumed.nfc, w.fusion)));
  }

  lemma OrderAfterPass(w: Windows, c: Cep, t: Trace, input: Input)
    requires SensorsInOrder(c, t)
    ensures var consumed := Consume(c, input);
            var ds := t.deliveries + Deliveries(consumed.gpio, consumed.nfc, w.fusion);
            SensorsInOrder(Fuse(w, consumed), t.(sensed := t.sensed + (input.gpio + input.mcp), deliveries := ds))
  {
    var consumed, arrived := Consume(c, input), input.gpio + input.mcp;
    PlainKeepsOrder(consumed.gpio, consumed.nfc, w.fusion);
    PlainConcat(t.deliveries, Deliveries(consumed.gpio, consumed.nfc, w.fusion));
    assert consumed.gpio == c.gpio + arrived;
    NonEntryConcat(c.gpio, arrived);
    NonEntryConcat(t.sensed, arrived);
    assert [] + NonEntry(arrived) == NonEntry(arrived);
  }

  lemma BalanceAfterExpiry(w: Windows, c: Cep, t: Trace, now: real)
    requires SensorBalance(c, t)
    ensures SensorBalance(Expire(w, c, now), t.(orphans := t.orphans + Aged(c.gpio, SensedAt, now, w.expiry, true)))
  {
    AgedSplit(c.gpio, SensedAt, now, w.expiry);
    AgedEntries(c.gpio, now, w.expiry, true);
    AgedEntries(c.gpio, now, w.expiry, false);
    NonEntryConcat(t.orphans, Aged(c.gpio, SensedAt, now, w.expiry, true));
  }

  lemma {:induction false} SensorEventsConserved(w: Windows, inputs: seq<Input>)
    ensures SensorBalance(RunCep(w, inputs), TraceRun(w, inputs))
  {
    if inputs == [] {
      assert Plain([]) == [] && Entries([]) == [] && NonEntry([]) == [];
    } else {
      var c, t, input := RunCep(w, Front(inputs)), TraceRun(w, Front(inputs)), Last(inputs);
      SensorEventsConserved(w, Front(inputs));
      SplitAfterPass(w, c, t, input);
      OrderAfterPass(w, c, t, input);
      var consumed := Consume(c, input);
      var fused := Fuse(w, consumed);
      var t1 := t.(sensed := t.sensed + (input.gpio + input.mcp),
                   deliveries := t.deliveries + Deliveries(consumed.gpio, consumed.nfc, w.fusion));
      var t2 := TraceRun(w, inputs);
      if Completes(w, c, input) {
        BalanceAfterExpiry(w, fused, t1, input.now);
        BalanceIgnoresReads(RunCep(w, inputs), t1.(orphans := t2.orphans), t2);
      } else {
        assert t2.orphans == t.orphans;
        BalanceIgnoresReads(RunCep(w, inputs), t1, t2);
      }
    }
  }

  lemma BalanceIgnoresReads(c: Cep, t: Trace, t': Trace)
    requires SensorBalance(c, t)
    requires t'.sensed == t.sensed && t'.deliveries == t.deliveries && t'.orphans == t.orphans
    ensures SensorBalance(c, t')
  {
  }

  // ----------------------------------------------------------------- reads over whole runs

  /** No iteration of the run picks one read twice. */
  ghost predicate NeverDoubleMatch(w: Windows, inputs: seq<Input>) {
    forall k :: 0 <= k < |inputs| ==>
      var consumed := Consume(RunCep(w, inputs[..k]), inputs[k]);
      NoDoubleMatch(consumed.gpio, consumed.nfc, w.fusion)
  }

  /** Every iteration of the run finds enough reads for its triggers, and so completes. */
  ghost predicate AlwaysEnoughReads(w: Windows, inputs: seq<Input>) {
    forall k :: 0 <= k < |inputs| ==> EnoughReadsAt(w, RunCep(w, inputs[..k]), inputs[k])
  }

  ghost predicate EnoughReadsAt(w: Windows, c: Cep, input: Input) {
    EnoughReads(c.gpio + input.gpio + input.mcp, c.nfc + input.nfc, w.fusion)
  }

  lemma IterationCompletesIffEnoughReads(w: Windows, c: Cep, input: Input)
    ensures Completes(w, c, input) <==> EnoughReadsAt(w, c, input)
  {
    var consumed := Consume(c, input);
    PassCompletesIffEnoughReads(consumed.gpio, consumed.nfc, w.fusion);
  }

  /** All reads of a run, in the order in which they are consumed. */
  function ScannedIn(inputs: seq<Input>): seq<NfcEvent> {
    if inputs == [] then [] else ScannedIn(Front(inputs)) + Last(inputs).nfc
  }

  lemma {:induction false} TraceScans(w: Windows, inputs: seq<Input>)
    ensures TraceRun(w, inputs).scanned == ScannedIn(inputs)
  {
    if inputs != [] {
      TraceScans(w, Front(inputs));
    }
  }

  lemma NotYetPicked(positions: seq<nat>, x: nat)
    requires x !in positions
    ensures x !in Positions(positions)
  {
  }

  lemma {:induction false} WithoutSplits(nfc: seq<NfcEvent>, positions: seq<nat>)
    requires Distinct(positions) && forall i :: 0 <= i < |positions| ==> positions[i] < |nfc|
    ensures multiset(nfc) == multiset(ReadsAt(nfc, positions)) + multiset(Without(nfc, Positions(positions)))
  {
    if positions == [] {
      assert Positions(positions) == {};
      WithoutNothing(nfc);
    } else {
      var rest, x := Front(positions), Last(positions);
      assert positions == rest + [x];
      DistinctAppend(rest, x);
      WithoutSplits(nfc, rest);
      PositionsAppend(rest, x);
      NotYetPicked(rest, x);
      hide Distinct, Positions, Without;
      WithoutOneMore(nfc, Positions(rest), x);
      assert ReadsAt(nfc, positions) == ReadsAt(nfc, rest) + [nfc[x]];
    }
  }

  lemma {:induction false} WithoutOneMore(nfc: seq<NfcEvent>, gone: set<nat>, x: nat)
    requires x < |nfc| && x !in gone
    ensures multiset(Without(nfc, gone)) == multiset(Without(nfc, gone + {x})) + multiset{nfc[x]}
  {
    var front := Front(nfc);
    if x == |nfc| - 1 {
      WithoutAgrees(front, gone, gone + {x});
    } else {
      WithoutOneMore(front, gone, x);
    }
  }

  ghost predicate ReadBalance(c: Cep, t: Trace) {
    && multiset(t.scanned) == multiset(t.fusedReads) + multiset(t.ghosts) + multiset(c.nfc)
    && c.stats.totalNfc == |t.scanned|
    && c.stats.fused == |t.fusedReads|
    && c.stats.ghosts == |t.ghosts|
  }

  lemma NeverDoubleMatchFront(w: Windows, inputs: seq<Input>)
    requires inputs != []
    ensures var consumed := Consume(RunCep(w, Front(inputs)), Last(inputs));
            NeverDoubleMatch(w, inputs)
            <==> NeverDoubleMatch(w, Front(inputs)) && NoDoubleMatch(consumed.gpio, consumed.nfc, w.fusion)
  {
    hide NoDoubleMatch, RunCep, Consume;
    var front := Front(inputs);
    assert inputs[..|front|] == front;
    forall k | 0 <= k < |front|
      ensures front[..k] == inputs[..k] && front[k] == inputs[k]
    {
    }
    if NeverDoubleMatch(w, inputs) {
      forall k | 0 <= k < |front|
        ensures var consumed := Consume(RunCep(w, front[..k]), front[k]);
                NoDoubleMatch(consumed.gpio, consumed.nfc, w.fusion)
      {
        assert front[..k] == inputs[..k];
      }
    }
  }

  lemma ReadsAfterPass(w: Windows, c: Cep, t: Trace, input: Input)
    requires ReadBalance(c, t)
    requires var consumed := Consume(c, input); NoDoubleMatch(consumed.gpio, consumed.nfc, w.fusion)
    ensures var consumed := Consume(c, input);
            var fused := ReadsAt(consumed.nfc, Picks(consumed.gpio, consumed.nfc, w.fusion));
            && Completes(w, c, input)
            && ReadBalance(Fuse(w, consumed), t.(scanned := t.scanned + input.nfc, fusedReads := t.fusedReads + fused))
  {
    hide Picks, Deliveries, Unhandled, Without, NoDoubleMatch, Distinct;
    var consumed := Consume(c, input);
    var picks := Picks(consumed.gpio, consumed.nfc, w.fusion);
    PassExactIffNoDoubleMatch(consumed.gpio, consumed.nfc, w.fusion);
    DistinctPicks(consumed.gpio, consumed.nfc, w.fusion);
    WithoutSplits(consumed.nfc, picks);
    var left := Without(consumed.nfc, Positions(picks));
    Regroup(multiset(t.scanned), multiset(input.nfc), multiset(t.fusedReads), multiset{}, multiset(t.ghosts),
            multiset(c.nfc), multiset(ReadsAt(consumed.nfc, picks)), multiset{}, multiset(left));
  }

  lemma ReadsAfterExpiry(w: Windows, c: Cep, t: Trace, now: real)
    requires ReadBalance(c, t)
    ensures ReadBalance(Expire(w, c, now), t.(ghosts := t.ghosts + Aged(c.nfc, ReadAt, now, w.expiry, true)))
  {
    AgedSplit(c.nfc, ReadAt, now, w.expiry);
  }

  lemma ReadBalanceOnly(c: Cep, t: Trace, t': Trace)
    requires ReadBalance(c, t)
    requires t'.scanned == t.scanned && t'.fusedReads == t.fusedReads && t'.ghosts == t.ghosts
    ensures ReadBalance(c, t')
  {
  }

  /** If no read is ever picked twice, every read is, exactly once, fused, a ghost or still pending. */
  lemma {:induction false} ReadsConserved(w: Windows, inputs: seq<Input>)
    requires NeverDoubleMatch(w, inputs)
    ensures ReadBalance(RunCep(w, inputs), TraceRun(w, inputs))
  {
    if inputs != [] {
      var c, t, input := RunCep(w, Front(inputs)), TraceRun(w, Front(inputs)), Last(inputs);
      NeverDoubleMatchFront(w, inputs);
      ReadsConserved(w, Front(inputs));
      ReadsAfterPass(w, c, t, input);
      var consumed := Consume(c, input);
      var t1 := t.(scanned := t.scanned + input.nfc,
                   fusedReads := t.fusedReads + ReadsAt(consumed.nfc, Picks(consumed.gpio, consumed.nfc, w.fusion)));
      ReadsAfterExpiry(w, Fuse(w, consumed), t1, input.now);
      var ghosts := t1.ghosts + Aged(Fuse(w, consumed).nfc, ReadAt, input.now, w.expiry, true);
      ReadBalanceOnly(RunCep(w, inputs), t1.(ghosts := ghosts), TraceRun(w, inputs));
    }
  }

  ghost predicate Repeats(scans: seq<NfcEvent>) {
    exists i, j :: 0 <= i < j < |scans| && scans[i] == scans[j]
  }

  lemma RepeatsLonger(a: seq<NfcEvent>, b: seq<NfcEvent>)
    requires Repeats(a) || Repeats(b)
    ensures Repeats(a + b)
  {
    var both := a + b;
    if Repeats(a) {
      var i, j :| 0 <= i < j < |a| && a[i] == a[j];
      assert both[i] == both[j];
    } else {
      var i, j :| 0 <= i < j < |b| && b[i] == b[j];
      assert both[|a| + i] == both[|a| + j];
    }
  }

  lemma RepeatsIsTwice(scans: seq<NfcEvent>)
    requires Repeats(scans)
    ensures exists r :: multiset(scans)[r] >= 2
  {
    var i, j :| 0 <= i < j < |scans| && scans[i] == scans[j];
    var before, after := scans[..j], scans[j..];
    assert scans == before + after;
    assert before[i] in before && after[0] in after;
    assert multiset(scans)[scans[i]] == multiset(before)[scans[i]] + multiset(after)[scans[i]];
  }

  lemma {:induction false} TwiceRepeats(scans: seq<NfcEvent>, r: NfcEvent)
    requires multiset(scans)[r] >= 2
    ensures Repeats(scans)
  {
    var front := Front(scans);
    assert scans == front + [Last(scans)];
    if multiset(front)[r] >= 2 {
      TwiceRepeats(front, r);
      RepeatsLonger(front, [Last(scans)]);
    } else {
      assert Last(scans) == r && r in front;
      var i :| 0 <= i < |front| && front[i] == r;
      assert scans[i] == scans[|scans| - 1];
    }
  }

  /** A double match puts one read twice among the fused ones. */
  lemma {:induction false} DoubleMatchRepeats(w: Windows, inputs: seq<Input>)
    requires !NeverDoubleMatch(w, inputs)
    ensures Repeats(TraceRun(w, inputs).fusedReads)
  {
    hide NoDoubleMatch, NeverDoubleMatch;
    if inputs == [] {
      NothingDoubleMatched(w);
    } else {
      var front := Front(inputs);
      var consumed := Consume(RunCep(w, front), Last(inputs));
      NeverDoubleMatchFront(w, inputs);
      if NeverDoubleMatch(w, front) {
        PassRepeats(consumed.gpio, consumed.nfc, w.fusion);
      } else {
        DoubleMatchRepeats(w, front);
      }
      RepeatsLonger(TraceRun(w, front).fusedReads, ReadsAt(consumed.nfc, Picks(consumed.gpio, consumed.nfc, w.fusion)));
    }
  }

  lemma NothingDoubleMatched(w: Windows)
    ensures NeverDoubleMatch(w, [])
  {
  }

  lemma PassRepeats(gpio: seq<SensorEvent>, nfc: seq<NfcEvent>, window: real)
    requires !NoDoubleMatch(gpio, nfc, window)
    ensures Repeats(ReadsAt(nfc, Picks(gpio, nfc, window)))
  {
    hide NoDoubleMatch;
    var picks := Picks(gpio, nfc, window);
    DistinctPicks(gpio, nfc, window);
    var i, j :| 0 <= i < j < |picks| && picks[i] == picks[j];
    assert ReadsAt(nfc, picks)[i] == ReadsAt(nfc, picks)[j];
  }

  /** When no two reads are the same, that condition is exact: the reads balance if and only if
      no read was ever picked twice. */
  lemma ReadsConservedExactly(w: Windows, inputs: seq<Input>)
    requires !Repeats(TraceRun(w, inputs).scanned)
    ensures ReadBalance(RunCep(w, inputs), TraceRun(w, inputs)) <==> NeverDoubleMatch(w, inputs)
  {
    var t := TraceRun(w, inputs);
    if NeverDoubleMatch(w, inputs) {
      ReadsConserved(w, inputs);
    } else {
      DoubleMatchRepeats(w, inputs);
      RepeatsIsTwice(t.fusedReads);
      var r :| multiset(t.fusedReads)[r] >= 2;
      if ReadBalance(RunCep(w, inputs), t) {
        assert multiset(t.scanned)[r] >= 2;
        TwiceRepeats(t.scanned, r);
        assert false;
      }
    }
  }

  /** A run that does not balance: one turn finds two triggers and two reads, fuses the first read twice and loses
      the other. */
  lemma DoubleMatchUnbalances(w: Windows)
    requires w.fusion == 2.0
    ensures var input := Input([EntryTrigger(10.0), EntryTrigger(10.5)], [],
                               [NfcEvent(10.2, 1, "A"), NfcEvent(11.0, 2, "B")], 11.0);
            !ReadBalance(RunCep(w, [input]), TraceRun(w, [input]))
  {
    hide NoDoubleMatch, NeverDoubleMatch, Iterate, ReadBalance, Repeats;
    var gpio, nfc := [EntryTrigger(10.0), EntryTrigger(10.5)], [NfcEvent(10.2, 1, "A"), NfcEvent(11.0, 2, "B")];
    var input := Input(gpio, [], nfc, 11.0);
    assert Front([input]) == [] && Last([input]) == input;
    var consumed := Consume(RunCep(w, Front([input])), input);
    assert consumed.gpio == gpio && consumed.nfc == nfc;
    TwoTriggersDoubleMatch(gpio[0], gpio[1], nfc, 2.0);
    NeverDoubleMatchFront(w, [input]);
    TraceScans(w, [input]);
    assert ScannedIn([input]) == nfc;
    DifferentReads(nfc);
    ReadsConservedExactly(w, [input]);
  }

  lemma DifferentReads(scans: seq<NfcEvent>)
    requires |scans| == 2 && scans[0] != scans[1]
    ensures !Repeats(scans)
  {
  }

  lemma AlwaysEnoughReadsFront(w: Windows, inputs: seq<Input>)
    requires inputs != []
    ensures AlwaysEnoughReads(w, inputs)
            <==> AlwaysEnoughReads(w, Front(inputs)) && EnoughReadsAt(w, RunCep(w, Front(inputs)), Last(inputs))
  {
    hide EnoughReadsAt, RunCep;
    var front := Front(inputs);
    assert inputs[..|front|] == front;
    if AlwaysEnoughReads(w, inputs) {
      forall k | 0 <= k < |front|
        ensures EnoughReadsAt(w, RunCep(w, front[..k]), front[k])
      {
        assert front[..k] == inputs[..k] && front[k] == inputs[k];
      }
    }
    if AlwaysEnoughReads(w, front) && EnoughReadsAt(w, RunCep(w, front), Last(inputs)) {
      forall k | 0 <= k < |inputs|
        ensures EnoughReadsAt(w, RunCep(w, inputs[..k]), inputs[k])
      {
        assert k < |front| ==> front[..k] == inputs[..k] && front[k] == inputs[k];
      }
    }
  }

  /** How far fused, ghosts and pending exceed the reads that came in. */
  function Surplus(c: Cep): int {
    c.stats.fused + c.stats.ghosts + |c.nfc| - c.stats.totalNfc
  }

  lemma IterationSurplus(w: Windows, c: Cep, input: Input)
    ensures Surplus(Iterate(w, c, input)) >= Surplus(c)
    ensures Surplus(Iterate(w, c, input)) == Surplus(c) <==> Completes(w, c, input)
  {
    var consumed := Consume(c, input);
    var picks := Picks(consumed.gpio, consumed.nfc, w.fusion);
    DeleteEachLength(consumed.nfc, SortDescending(picks));
    SortDescends(picks);
    SameElements(SortDescending(picks), picks);
    AgedSplit(Fuse(w, consumed).nfc, ReadAt, input.now, w.expiry);
  }

  /** The read counters never fall short, even when reads are lost to double matches; they balance
      if and only if no iteration was ever abandoned. */
  lemma {:induction false} ReadCountersBalance(w: Windows, inputs: seq<Input>)
    ensures var c := RunCep(w, inputs);
            && c.stats.totalNfc <= c.stats.fused + c.stats.ghosts + |c.nfc|
            && (c.stats.totalNfc == c.stats.fused + c.stats.ghosts + |c.nfc| <==> AlwaysEnoughReads(w, inputs))
  {
    if inputs != [] {
      hide Iterate, Completes, EnoughReadsAt, AlwaysEnoughReads;
      var c, input := RunCep(w, Front(inputs)), Last(inputs);
      AlwaysEnoughReadsFront(w, inputs);
      ReadCountersBalance(w, Front(inputs));
      IterationCompletesIffEnoughReads(w, c, input);
      IterationSurplus(w, c, input);
    }
  }

  // --------------------------------------------------------------- spaced triggers

  /** All sensor events of a run, in the order in which they are consumed. */
  function SensedIn(inputs: seq<Input>): seq<SensorEvent> {
    if inputs == [] then [] else SensedIn(Front(inputs)) + (Last(inputs).gpio + Last(inputs).mcp)
  }

  lemma {:induction false} TraceSenses(w: Windows, inputs: seq<Input>)
    ensures TraceRun(w, inputs).sensed == SensedIn(inputs)
  {
    if inputs != [] {
      TraceSenses(w, Front(inputs));
    }
  }

  /** If the entry triggers that ever come in at one place are more than two windows apart, then no
      iteration of the run picks a read twice. */
  lemma {:induction false} SpacedRunNeverDoubleMatches(w: Windows, inputs: seq<Input>)
    requires SpacedTriggers(SensedIn(inputs), w.fusion)
    ensures NeverDoubleMatch(w, inputs)
  {
    hide SpacedTriggers, NeverDoubleMatch, NoDoubleMatch, RunCep, TraceRun;
    if inputs == [] {
      NothingDoubleMatched(w);
    } else {
      var front, input := Front(inputs), Last(inputs);
      var consumed := Consume(RunCep(w, front), input);
      SpacedSubset(SensedIn(inputs), SensedIn(front), w.fusion);
      SpacedRunNeverDoubleMatches(w, front);
      ConsumedWasSensed(w, front, input);
      SpacedSubset(SensedIn(inputs), consumed.gpio, w.fusion);
      SpacingExcludesDoubleMatch(consumed.gpio, consumed.nfc, w.fusion);
      NeverDoubleMatchFront(w, inputs);
    }
  }

  lemma ConsumedWasSensed(w: Windows, front: seq<Input>, input: Input)
    ensures multiset(Consume(RunCep(w, front), input).gpio) <= multiset(SensedIn(front) + (input.gpio + input.mcp))
  {
    hide RunCep, TraceRun, SensedIn, SensorsInOrder;
    var c, arrived := RunCep(w, front), input.gpio + input.mcp;
    SensorEventsConserved(w, front);
    TraceSenses(w, front);
    assert Consume(c, input).gpio == c.gpio + arrived;
  }

  // --------------------------------------------------------------- settled pending lists

  /** Only unmatched, unexpired entry triggers and unexpired reads are pending. */
  ghost predicate Settled(w: Windows, c: Cep, now: real) {
    && (forall i :: 0 <= i < |c.gpio| ==>
          (c.gpio[i].barrier == StationEntry(1) || c.gpio[i].barrier == StationEntry(2))
          && now - c.gpio[i].stamp <= w.expiry)
    && (forall j :: 0 <= j < |c.nfc| ==> now - c.nfc[j].stamp <= w.expiry)
    && (forall i, j :: 0 <= i < |c.gpio| && 0 <= j < |c.nfc| && c.gpio[i].place == AtStation(c.nfc[j].station) ==>
          Abs(c.gpio[i].stamp - c.nfc[j].stamp) > w.fusion)
  }

  lemma {:induction false} UnhandledMembers(gpio: seq<SensorEvent>, nfc: seq<NfcEvent>, window: real)
    ensures forall g :: g in Unhandled(gpio, nfc, window) <==> g in gpio && !Handled(g, nfc, window)
  {
    if gpio != [] {
      UnhandledMembers(Front(gpio), nfc, window);
      assert gpio == Front(gpio) + [Last(gpio)];
    }
  }

  lemma {:induction false} AgedMembers<T>(s: seq<T>, stampOf: T -> real, now: real, expiry: real, expired: bool)
    ensures forall x :: x in Aged(s, stampOf, now, expiry, expired)
                        <==> x in s && Expired(stampOf(x), now, expiry) == expired
  {
    if s != [] {
      AgedMembers(Front(s), stampOf, now, expiry, expired);
      assert s == Front(s) + [Last(s)];
    }
  }

  /** Every iteration, abandoned or not, leaves only entry triggers that match no pending read. */
  lemma IterationLeavesUnmatched(w: Windows, c: Cep, input: Input)
    ensures var c' := Iterate(w, c, input);
            && (forall g :: g in c'.gpio ==> g.barrier == StationEntry(1) || g.barrier == StationEntry(2))
            && (forall g, r :: g in c'.gpio && r in c'.nfc && g.place == AtStation(r.station) ==>
                  Abs(g.stamp - r.stamp) > w.fusion)
  {
    var consumed := Consume(c, input);
    var fused := Fuse(w, consumed);
    UnhandledMembers(consumed.gpio, consumed.nfc, w.fusion);
    AgedMembers(fused.gpio, SensedAt, input.now, w.expiry, false);
    AgedMembers(fused.nfc, ReadAt, input.now, w.expiry, false);
    DeleteEachMembers(consumed.nfc, SortDescending(Picks(consumed.gpio, consumed.nfc, w.fusion)));
    forall g, r | g in Iterate(w, c, input).gpio && r in Iterate(w, c, input).nfc && g.place == AtStation(r.station)
      ensures Abs(g.stamp - r.stamp) > w.fusion
    {
      assert !Handled(g, consumed.nfc, w.fusion) && r in consumed.nfc;
    }
  }

  /** Every iteration with enough reads for its triggers settles the pending lists, double match or
      not; without enough of them it is abandoned before anything expires. */
  lemma CompletedIterationSettles(w: Windows, c: Cep, input: Input)
    requires EnoughReadsAt(w, c, input)
    ensures Settled(w, Iterate(w, c, input), input.now)
  {
    var fused, c' := Fuse(w, Consume(c, input)), Iterate(w, c, input);
    IterationCompletesIffEnoughReads(w, c, input);
    IterationLeavesUnmatched(w, c, input);
    AgedMembers(fused.gpio, SensedAt, input.now, w.expiry, false);
    AgedMembers(fused.nfc, ReadAt, input.now, w.expiry, false);
    forall i | 0 <= i < |c'.gpio|
      ensures IsEntryBarrier(c'.gpio[i].barrier) && input.now - c'.gpio[i].stamp <= w.expiry
    {
      assert c'.gpio[i] in c'.gpio;
    }
    forall j | 0 <= j < |c'.nfc|
      ensures input.now - c'.nfc[j].stamp <= w.expiry
    {
      assert c'.nfc[j] in c'.nfc;
    }
  }

  lemma {:induction false} HandledIsDelivered(gpio: seq<SensorEvent>, nfc: seq<NfcEvent>, window: real, g: SensorEvent)
    requires g in gpio && Handled(g, nfc, window)
    ensures Delivery(g, PartFor(g, nfc, window)) in Deliveries(gpio, nfc, window)
  {
    assert gpio == Front(gpio) + [Last(gpio)];
    if g != Last(gpio) {
      HandledIsDelivered(Front(gpio), nfc, window, g);
    }
  }

  /** A pending or new entry trigger is fused in the very iteration in which a matching read is
      at hand, with the part of the first such read. */
  lemma MatchFusesAtOnce(w: Windows, c: Cep, input: Input, g: SensorEvent, r: NfcEvent)
    requires g in c.gpio + input.gpio + input.mcp && r in c.nfc + input.nfc
    requires g.barrier == StationEntry(1) || g.barrier == StationEntry(2)
    requires g.place == AtStation(r.station) && -w.fusion <= g.stamp - r.stamp <= w.fusion
    ensures var nfc := c.nfc + input.nfc;
            var k := FirstMatch(g, nfc, w.fusion);
            && k < |nfc| && g.place == AtStation(nfc[k].station) && -w.fusion <= g.stamp - nfc[k].stamp <= w.fusion
            && (forall j :: 0 <= j < k && g.place == AtStation(nfc[j].station) ==>
                  !(-w.fusion <= g.stamp - nfc[j].stamp <= w.fusion))
            && Delivery(g, Some(nfc[k].part)) in TraceOf(w, c, input).deliveries
  {
    HandledIsDelivered(Consume(c, input).gpio, Consume(c, input).nfc, w.fusion, g);
  }

  // -------------------------------------------------------- entries always carry a part

  lemma {:induction false} DeliveriesCarryParts(gpio: seq<SensorEvent>, nfc: seq<NfcEvent>, window: real)
    ensures forall d :: d in Deliveries(gpio, nfc, window) ==>
              d.event in gpio
              && (d.event.barrier == StationEntry(1) || d.event.barrier == StationEntry(2) <==> d.part.Some?)
              && (d.part.Some? ==>
                    exists r ::
                      && r in nfc && r.part == d.part.value && d.event.place == AtStation(r.station)
                      && -window <= d.event.stamp - r.stamp <= window)
  {
    if gpio != [] {
      DeliveriesCarryParts(Front(gpio), nfc, window);
      assert gpio == Front(gpio) + [Last(gpio)];
      var g := Last(gpio);
      if Fuses(g, nfc, window) {
        assert nfc[FirstMatch(g, nfc, window)] in nfc;
      }
    }
  }

  /** An entry trigger is fused if and only if a read of its station is within the window. */
  lemma EntryFusesIffReadNear(w: Windows, c: Cep, input: Input, g: SensorEvent)
    requires g in c.gpio + input.gpio + input.mcp
    requires g.barrier == StationEntry(1) || g.barrier == StationEntry(2)
    ensures (exists part :: Delivery(g, Some(part)) in TraceOf(w, c, input).deliveries)
            <==> (exists r ::
                    r in c.nfc + input.nfc && g.place == AtStation(r.station) && -w.fusion <= g.stamp - r.stamp <= w.fusion)
  {
    var gpio, nfc := c.gpio + input.gpio + input.mcp, c.nfc + input.nfc;
    DeliveriesCarryParts(gpio, nfc, w.fusion);
    if part :| Delivery(g, Some(part)) in TraceOf(w, c, input).deliveries {
      assert Delivery(g, Some(part)) in Deliveries(gpio, nfc, w.fusion);
    }
    if r :| r in nfc && g.place == AtStation(r.station) && -w.fusion <= g.stamp - r.stamp <= w.fusion {
      MatchFusesAtOnce(w, c, input, g, r);
    }
  }

  // ------------------------------------------------------------------ what expires

  /** When an iteration reaches its expiry, what it reports was older than the expiry timeout, and of
      what the pass left over exactly the rest stays pending. */
  lemma ExpiryIsExact(w: Windows, c: Cep, input: Input)
    requires EnoughReadsAt(w, c, input)
    ensures var gpio, nfc := c.gpio + input.gpio + input.mcp, c.nfc + input.nfc;
            var t, c', pass := TraceOf(w, c, input), Iterate(w, c, input), FusePass(gpio, nfc, w.fusion);
            && (forall e :: e in t.orphans <==> e in pass.gpio && input.now - e.stamp > w.expiry)
            && (forall e :: e in c'.gpio <==> e in pass.gpio && input.now - e.stamp <= w.expiry)
            && (forall r :: r in t.ghosts <==> r in pass.nfc && input.now - r.stamp > w.expiry)
            && (forall r :: r in c'.nfc <==> r in pass.nfc && input.now - r.stamp <= w.expiry)
  {
    IterationCompletesIffEnoughReads(w, c, input);
    var fused := Fuse(w, Consume(c, input));
    AgedMembers(fused.gpio, SensedAt, input.now, w.expiry, true);
    AgedMembers(fused.gpio, SensedAt, input.now, w.expiry, false);
    AgedMembers(fused.nfc, ReadAt, input.now, w.expiry, true);
    AgedMembers(fused.nfc, ReadAt, input.now, w.expiry, false);
  }

  /** What the pass leaves over of the triggers: entries without a read of their station in the window. */
  lemma PassLeavesUnmatched(gpio: seq<SensorEvent>, nfc: seq<NfcEvent>, window: real, g: SensorEvent)
    ensures g in FusePass(gpio, nfc, window).gpio <==>
            && g in gpio && (g.barrier == StationEntry(1) || g.barrier == StationEntry(2))
            && forall r :: r in nfc && g.place == AtStation(r.station) ==> !(-window <= g.stamp - r.stamp <= window)
  {
    UnhandledMembers(gpio, nfc, window);
    var k := FirstMatch(g, nfc, window);
    if k < |nfc| {
      assert nfc[k] in nfc;
    }
  }

  /** In every run an orphan or a ghost was older than the expiry timeout in the turn that reported it. */
  lemma {:induction false} ReportedWereOld(w: Windows, inputs: seq<Input>)
    ensures forall e :: e in TraceRun(w, inputs).orphans ==>
              exists k :: 0 <= k < |inputs| && inputs[k].now - e.stamp > w.expiry
    ensures forall r :: r in TraceRun(w, inputs).ghosts ==>
              exists k :: 0 <= k < |inputs| && inputs[k].now - r.stamp > w.expiry
  {
    if inputs != [] {
      var front, input := Front(inputs), Last(inputs);
      var c, t := RunCep(w, front), TraceRun(w, front);
      ReportedWereOld(w, front);
      TurnReportsOld(w, c, input);
      forall e | e in TraceRun(w, inputs).orphans
        ensures exists k :: 0 <= k < |inputs| && inputs[k].now - e.stamp > w.expiry
      {
        if e in t.orphans {
          var k :| 0 <= k < |front| && front[k].now - e.stamp > w.expiry;
          assert inputs[k].now - e.stamp > w.expiry;
        } else {
          assert inputs[|inputs| - 1].now - e.stamp > w.expiry;
        }
      }
      forall r | r in TraceRun(w, inputs).ghosts
        ensures exists k :: 0 <= k < |inputs| && inputs[k].now - r.stamp > w.expiry
      {
        if r in t.ghosts {
          var k :| 0 <= k < |front| && front[k].now - r.stamp > w.expiry;
          assert inputs[k].now - r.stamp > w.expiry;
        } else {
          assert inputs[|inputs| - 1].now - r.stamp > w.expiry;
        }
      }
    }
  }

  lemma TurnReportsOld(w: Windows, c: Cep, input: Input)
    ensures forall e :: e in TraceOf(w, c, input).orphans ==> input.now - e.stamp > w.expiry
    ensures forall r :: r in TraceOf(w, c, input).ghosts ==> input.now - r.stamp > w.expiry
  {
    var fused := Fuse(w, Consume(c, input));
    AgedMembers(fused.gpio, SensedAt, input.now, w.expiry, true);
    AgedMembers(fused.nfc, ReadAt, input.now, w.expiry, true);
  }
}
