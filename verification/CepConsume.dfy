/** The mutable consumer of cep_consumer.py: nested loops, index lists and deletion in place. */
module CepConsume {
  import opened Basics
  import opened Fusion
  import opened CepRuns
  import opened Queues

  /** `for idx in positions: del s[idx]`, stopping at the first index out of range. */
  method DeletePositions<T>(s: seq<T>, positions: seq<nat>) returns (list: seq<T>, ok: bool)
    ensures Deleted(list, ok) == DeleteEach(s, positions)
  {
    list, ok := s, true;
    var k := 0;
    while k < |positions|
      invariant k <= |positions| && ok
      invariant DeleteEach(list, positions[k..]) == DeleteEach(s, positions)
    {
      var idx := positions[k];
      assert positions[k..][1..] == positions[k + 1..];
      if idx >= |list| {
        return list, false;
      }
      list := list[..idx] + list[idx + 1..];
      k := k + 1;
    }
  }

  lemma {:induction false} UnmarkedIsUnhandled(gpio: seq<SensorEvent>, nfc: seq<NfcEvent>, window: real, marks: seq<bool>)
    requires |marks| == |gpio| && forall k :: 0 <= k < |gpio| ==> marks[k] == Handled(gpio[k], nfc, window)
    ensures Unmarked(gpio, marks) == Unhandled(gpio, nfc, window)
  {
    if gpio != [] {
      UnmarkedIsUnhandled(Front(gpio), nfc, window, Front(marks));
    }
  }

  lemma {:induction false} UnmarkedIsYoung<T>(s: seq<T>, stampOf: T -> real, now: real, expiry: real, marks: seq<bool>)
    requires |marks| == |s| && forall k :: 0 <= k < |s| ==> marks[k] == Expired(stampOf(s[k]), now, expiry)
    ensures Unmarked(s, marks) == Aged(s, stampOf, now, expiry, false)
  {
    if s != [] {
      UnmarkedIsYoung(Front(s), stampOf, now, expiry, Front(marks));
    }
  }

  lemma DeleteAged<T>(s: seq<T>, stampOf: T -> real, now: real, expiry: real, marks: seq<bool>)
    requires |marks| == |s| && forall k :: 0 <= k < |s| ==> marks[k] == Expired(stampOf(s[k]), now, expiry)
    ensures DeleteEach(s, SortDescending(MarkedAt(marks))) == Deleted(Aged(s, stampOf, now, expiry, false), true)
  {
    DeleteMarked(s, marks);
    UnmarkedIsYoung(s, stampOf, now, expiry, marks);
  }

  /** One more element in the expiry loop. */
  lemma OneMoreAged<T>(s: seq<T>, i: nat, stampOf: T -> real, now: real, expiry: real)
    requires i < |s|
    ensures var more, before := Aged(s[..i + 1], stampOf, now, expiry, true), Aged(s[..i], stampOf, now, expiry, true);
            more == if Expired(stampOf(s[i]), now, expiry) then before + [s[i]] else before
  {
    assert Front(s[..i + 1]) == s[..i] && Last(s[..i + 1]) == s[i];
  }

  lemma OrphanAppend(es: seq<SensorEvent>, e: SensorEvent)
    ensures OrphanAll(es + [e]) == OrphanAll(es) + [OrphanReport(e)]
  {
    AppendFront(es, e);
  }

  lemma GhostAppend(scans: seq<NfcEvent>, r: NfcEvent)
    ensures GhostAll(scans + [r]) == GhostAll(scans) + [GhostReport(r)]
  {
    AppendFront(scans, r);
  }

  lemma OneMoreTrigger(gpio: seq<SensorEvent>, i: nat, nfc: seq<NfcEvent>, window: real)
    requires i < |gpio|
    ensures Picks(gpio[..i + 1], nfc, window) == Picks(gpio[..i], nfc, window)
              + if Fuses(gpio[i], nfc, window) then [FirstMatch(gpio[i], nfc, window)] else []
    ensures HandAll(Deliveries(gpio[..i + 1], nfc, window)) == HandAll(Deliveries(gpio[..i], nfc, window))
              + if Handled(gpio[i], nfc, window) then [Hand(Delivery(gpio[i], PartFor(gpio[i], nfc, window)))] else []
  {
    assert Front(gpio[..i + 1]) == gpio[..i] && Last(gpio[..i + 1]) == gpio[i];
    AppendFront(Deliveries(gpio[..i], nfc, window), Delivery(gpio[i], PartFor(gpio[i], nfc, window)));
  }

  class CEPConsumer {
    const windows: Windows
    const gpioQueue: EventQueue<SensorEvent>
    const mcpQueue: EventQueue<SensorEvent>
    const nfcQueue: EventQueue<NfcEvent>
    var pendingGpio: seq<SensorEvent>
    var pendingNfc: seq<NfcEvent>
    var fusedEvents: int
    var orphanedGpio: int
    var ghostNfc: int
    var totalGpio: int
    var totalNfc: int
    var outbox: seq<Outgoing>

    ghost function View(): Cep
      reads this
    {
      Cep(pendingGpio, pendingNfc, Stats(fusedEvents, orphanedGpio, ghostNfc, totalGpio, totalNfc))
    }

    ghost predicate Valid() {
      gpioQueue != mcpQueue
    }

    constructor (gpioQueue: EventQueue<SensorEvent>, mcpQueue: EventQueue<SensorEvent>, nfcQueue: EventQueue<NfcEvent>,
                 windows: Windows)
      requires gpioQueue != mcpQueue
      ensures Valid() && View() == FRESH_CEP && outbox == []
      ensures this.gpioQueue == gpioQueue && this.mcpQueue == mcpQueue && this.nfcQueue == nfcQueue
      ensures this.windows == windows
    {
      this.gpioQueue, this.mcpQueue, this.nfcQueue, this.windows := gpioQueue, mcpQueue, nfcQueue, windows;
      pendingGpio, pendingNfc, outbox := [], [], [];
      fusedEvents, orphanedGpio, ghostNfc, totalGpio, totalNfc := 0, 0, 0, 0, 0;
    }

    /** One turn of the consumer loop; a failed pass skips the expiry. */
    method RunOnce(now: real)
      requires Valid()
      modifies this, gpioQueue, mcpQueue, nfcQueue
      ensures var input := Input(old(gpioQueue.items), old(mcpQueue.items), old(nfcQueue.items), now);
              && View() == Iterate(windows, old(View()), input)
              && outbox == old(outbox) + Sent(TraceOf(windows, old(View()), input))
      ensures gpioQueue.items == [] && mcpQueue.items == [] && nfcQueue.items == []
    {
      hide FusePass, Deliveries, Picks, Aged, HandAll, OrphanAll, GhostAll;
      ghost var c := View();
      ghost var input := Input(gpioQueue.items, mcpQueue.items, nfcQueue.items, now);
      ConsumeEvents(now);
      var ok := FuseEvents();
      IterationSends(windows, c, input);
      if ok {
        ExpireEvents(now);
      }
    }

    method ConsumeEvents(ghost now: real)
      requires Valid()
      modifies this, gpioQueue, mcpQueue, nfcQueue
      ensures View() == Consume(old(View()), Input(old(gpioQueue.items), old(mcpQueue.items), old(nfcQueue.items), now))
      ensures gpioQueue.items == [] && mcpQueue.items == [] && nfcQueue.items == []
      ensures outbox == old(outbox)
    {
      ConsumeSensors(gpioQueue);
      ConsumeSensors(mcpQueue);
      var scan := nfcQueue.GetNowait();
      while scan.Some?
        invariant outbox == old(outbox) && gpioQueue.items == [] && mcpQueue.items == []
        invariant pendingGpio == old(pendingGpio + gpioQueue.items + mcpQueue.items)
        invariant totalGpio == old(totalGpio + |gpioQueue.items| + |mcpQueue.items|)
        invariant fusedEvents == old(fusedEvents) && orphanedGpio == old(orphanedGpio) && ghostNfc == old(ghostNfc)
        invariant pendingNfc + (if scan.Some? then [scan.value] else []) + nfcQueue.items
                  == old(pendingNfc + nfcQueue.items)
        invariant scan.None? ==> nfcQueue.items == []
        invariant totalNfc - |pendingNfc| == old(totalNfc - |pendingNfc|)
        decreases |nfcQueue.items| + if scan.Some? then 1 else 0
      {
        pendingNfc := pendingNfc + [scan.value];
        totalNfc := totalNfc + 1;
        scan := nfcQueue.GetNowait();
      }
    }

    method ConsumeSensors(queue: EventQueue<SensorEvent>)
      modifies `pendingGpio, `totalGpio, queue
      ensures pendingGpio == old(pendingGpio + queue.items) && queue.items == []
      ensures totalGpio == old(totalGpio + |queue.items|)
    {
      var event := queue.GetNowait();
      while event.Some?
        invariant pendingGpio + (if event.Some? then [event.value] else []) + queue.items
                  == old(pendingGpio + queue.items)
        invariant event.None? ==> queue.items == []
        invariant totalGpio - |pendingGpio| == old(totalGpio - |pendingGpio|)
        decreases |queue.items| + if event.Some? then 1 else 0
      {
        pendingGpio := pendingGpio + [event.value];
        totalGpio := totalGpio + 1;
        event := queue.GetNowait();
      }
    }

    /** The inner loop: the first read that matches, or the number of reads. */
    method FindMatch(g: SensorEvent) returns (k: nat)
      ensures k == FirstMatch(g, pendingNfc, windows.fusion)
    {
      k := 0;
      while k < |pendingNfc| && !EventsMatch(g, pendingNfc[k], windows.fusion)
        invariant k <= |pendingNfc|
        invariant forall j :: 0 <= j < k ==> !EventsMatch(g, pendingNfc[j], windows.fusion)
      {
        k := k + 1;
      }
    }

    method DeliverEvent(event: SensorEvent, part: Option<string>)
      modifies `outbox
      ensures outbox == old(outbox) + [Hand(Delivery(event, part))]
    {
      outbox := outbox + [Hand(Delivery(event, part))];
    }

    method FuseEvents() returns (ok: bool)
      modifies this
      ensures View() == Fuse(windows, old(View()))
      ensures ok == FusePass(old(pendingGpio), old(pendingNfc), windows.fusion).ok
      ensures outbox == old(outbox) + HandAll(Deliveries(old(pendingGpio), old(pendingNfc), windows.fusion))
    {
      var gpioToRemove, nfcToRemove, marks := MatchEvents();
      ok := RemoveFused(gpioToRemove, nfcToRemove, marks);
    }

    /** The nested loops: deliver what is handled and list the positions to remove. */
    method MatchEvents() returns (gpioToRemove: seq<nat>, nfcToRemove: seq<nat>, ghost marks: seq<bool>)
      modifies `outbox, `fusedEvents
      ensures |marks| == |pendingGpio| && gpioToRemove == MarkedAt(marks)
      ensures forall k :: 0 <= k < |marks| ==> marks[k] == Handled(pendingGpio[k], pendingNfc, windows.fusion)
      ensures nfcToRemove == Picks(pendingGpio, pendingNfc, windows.fusion)
      ensures outbox == old(outbox) + HandAll(Deliveries(pendingGpio, pendingNfc, windows.fusion))
      ensures fusedEvents == old(fusedEvents) + |nfcToRemove|
    {
      hide HandAll, FirstMatch, MarkedAt;
      gpioToRemove, nfcToRemove, marks := [], [], [];
      ghost var gpio, nfc, window := pendingGpio, pendingNfc, windows.fusion;
      for i := 0 to |pendingGpio|
        invariant |marks| == i && (forall k :: 0 <= k < i ==> marks[k] == Handled(gpio[k], nfc, window))
        invariant gpioToRemove == MarkedAt(marks)
        invariant nfcToRemove == Picks(gpio[..i], nfc, window)
        invariant outbox == old(outbox) + HandAll(Deliveries(gpio[..i], nfc, window))
        invariant fusedEvents == old(fusedEvents) + |nfcToRemove|
      {
        var g := pendingGpio[i];
        OneMoreTrigger(gpio, i, nfc, window);
        MarkedAppend(marks, Handled(g, nfc, window));
        marks := marks + [Handled(g, nfc, window)];
        if !IsEntryBarrier(g.barrier) {
          DeliverEvent(g, None);
          gpioToRemove := gpioToRemove + [i];
        } else {
          var k := FindMatch(g);
          if k < |pendingNfc| {
            DeliverEvent(g, Some(pendingNfc[k].part));
            gpioToRemove := gpioToRemove + [i];
            nfcToRemove := nfcToRemove + [k];
            fusedEvents := fusedEvents + 1;
          }
        }
      }
      assert gpio[..|gpio|] == gpio;
    }

    /** Delete the handled triggers, then the picked reads, both from the back. */
    method RemoveFused(gpioToRemove: seq<nat>, nfcToRemove: seq<nat>, ghost marks: seq<bool>) returns (ok: bool)
      requires |marks| == |pendingGpio| && gpioToRemove == MarkedAt(marks)
      requires forall k :: 0 <= k < |marks| ==> marks[k] == Handled(pendingGpio[k], pendingNfc, windows.fusion)
      modifies `pendingGpio, `pendingNfc
      ensures pendingGpio == Unhandled(old(pendingGpio), old(pendingNfc), windows.fusion)
      ensures Deleted(pendingNfc, ok) == DeleteEach(old(pendingNfc), SortDescending(nfcToRemove))
    {
      DeleteMarked(pendingGpio, marks);
      UnmarkedIsUnhandled(pendingGpio, pendingNfc, windows.fusion, marks);
      pendingGpio, ok := DeletePositions(pendingGpio, SortDescending(gpioToRemove));
      pendingNfc, ok := DeletePositions(pendingNfc, SortDescending(nfcToRemove));
    }

    method ExpireEvents(now: real)
      modifies this
      ensures View() == Expire(windows, old(View()), now)
      ensures outbox == old(outbox) + OrphanAll(Aged(old(pendingGpio), SensedAt, now, windows.expiry, true))
                        + GhostAll(Aged(old(pendingNfc), ReadAt, now, windows.expiry, true))
    {
      ExpireGpio(now);
      ExpireNfc(now);
    }

    method ExpireGpio(now: real)
      modifies `pendingGpio, `orphanedGpio, `outbox
      ensures pendingGpio == Aged(old(pendingGpio), SensedAt, now, windows.expiry, false)
      ensures orphanedGpio == old(orphanedGpio) + |Aged(old(pendingGpio), SensedAt, now, windows.expiry, true)|
      ensures outbox == old(outbox) + OrphanAll(Aged(old(pendingGpio), SensedAt, now, windows.expiry, true))
    {
      hide Aged, SortDescending, DeleteEach, OrphanAll, GhostAll, MarkedAt;
      var toRemove: seq<nat> := [];
      ghost var marks: seq<bool>, s, expiry := [], pendingGpio, windows.expiry;
      for i := 0 to |pendingGpio|
        invariant pendingGpio == s
        invariant |marks| == i && (forall k :: 0 <= k < i ==> marks[k] == Expired(s[k].stamp, now, expiry))
        invariant toRemove == MarkedAt(marks)
        invariant orphanedGpio == old(orphanedGpio) + |Aged(s[..i], SensedAt, now, expiry, true)|
        invariant outbox == old(outbox) + OrphanAll(Aged(s[..i], SensedAt, now, expiry, true))
      {
        var event := pendingGpio[i];
        OneMoreAged(s, i, SensedAt, now, expiry);
        OrphanAppend(Aged(s[..i], SensedAt, now, expiry, true), event);
        MarkedAppend(marks, Expired(event.stamp, now, expiry));
        marks := marks + [Expired(event.stamp, now, expiry)];
        var age := now - event.stamp;
        if age > windows.expiry {
          orphanedGpio := orphanedGpio + 1;
          outbox := outbox + [OrphanReport(event)];
          toRemove := toRemove + [i];
        }
      }
      assert s[..|s|] == s;
      DeleteAged(s, SensedAt, now, expiry, marks);
      var ok;
      pendingGpio, ok := DeletePositions(pendingGpio, SortDescending(toRemove));
    }

    method ExpireNfc(now: real)
      modifies `pendingNfc, `ghostNfc, `outbox
      ensures pendingNfc == Aged(old(pendingNfc), ReadAt, now, windows.expiry, false)
      ensures ghostNfc == old(ghostNfc) + |Aged(old(pendingNfc), ReadAt, now, windows.expiry, true)|
      ensures outbox == old(outbox) + GhostAll(Aged(old(pendingNfc), ReadAt, now, windows.expiry, true))
    {
      hide Aged, SortDescending, DeleteEach, OrphanAll, GhostAll, MarkedAt;
      var toRemove: seq<nat> := [];
      ghost var marks: seq<bool>, s, expiry := [], pendingNfc, windows.expiry;
      for i := 0 to |pendingNfc|
        invariant pendingNfc == s
        invariant |marks| == i && (forall k :: 0 <= k < i ==> marks[k] == Expired(s[k].stamp, now, expiry))
        invariant toRemove == MarkedAt(marks)
        invariant ghostNfc == old(ghostNfc) + |Aged(s[..i], ReadAt, now, expiry, true)|
        invariant outbox == old(outbox) + GhostAll(Aged(s[..i], ReadAt, now, expiry, true))
      {
        var scan := pendingNfc[i];
        OneMoreAged(s, i, ReadAt, now, expiry);
        GhostAppend(Aged(s[..i], ReadAt, now, expiry, true), scan);
        MarkedAppend(marks, Expired(scan.stamp, now, expiry));
        marks := marks + [Expired(scan.stamp, now, expiry)];
        var age := now - scan.stamp;
        if age > windows.expiry {
          ghostNfc := ghostNfc + 1;
          outbox := outbox + [GhostReport(scan)];
          toRemove := toRemove + [i];
        }
      }
      assert s[..|s|] == s;
      DeleteAged(s, ReadAt, now, expiry, marks);
      var ok;
      pendingNfc, ok := DeletePositions(pendingNfc, SortDescending(toRemove));
    }
  }
}
