/** One fusing pass of cep_consumer.py as functions of the two pending lists, and what it means:
    a greedy first-fit matching, as long as no read is picked twice. */
module Fusion {
  import opened Basics

  predicate IsEntryBarrier(barrier: Barrier) {
    barrier == StationEntry(1) || barrier == StationEntry(2)
  }

  predicate EventsMatch(g: SensorEvent, r: NfcEvent, window: real) {
    g.place.AtStation? && g.place.id == r.station && Abs(g.stamp - r.stamp) <= window
  }

  /** Read at the station of the trigger, and no further from it in time than the window. */
  lemma MatchIsNear(g: SensorEvent, r: NfcEvent, window: real)
    ensures EventsMatch(g, r, window) <==> g.place == AtStation(r.station) && -window <= g.stamp - r.stamp <= window
  {
  }

  /** The position of the first matching read, or the length of the list. */
  function FirstMatch(g: SensorEvent, nfc: seq<NfcEvent>, window: real): (k: nat)
    ensures k <= |nfc|
    ensures k < |nfc| ==> EventsMatch(g, nfc[k], window)
    ensures forall j :: 0 <= j < k ==> !EventsMatch(g, nfc[j], window)
  {
    if nfc == [] then 0
    else
      var k := FirstMatch(g, Front(nfc), window);
      if k < |nfc| - 1 then k else if EventsMatch(g, Last(nfc), window) then |nfc| - 1 else |nfc|
  }

  /** The trigger is an entry barrier with a matching read. */
  predicate Fuses(g: SensorEvent, nfc: seq<NfcEvent>, window: real) {
    IsEntryBarrier(g.barrier) && FirstMatch(g, nfc, window) < |nfc|
  }

  predicate Handled(g: SensorEvent, nfc: seq<NfcEvent>, window: real) {
    !IsEntryBarrier(g.barrier) || Fuses(g, nfc, window)
  }

  function PartFor(g: SensorEvent, nfc: seq<NfcEvent>, window: real): Option<string> {
    if Fuses(g, nfc, window) then Some(nfc[FirstMatch(g, nfc, window)].part) else None
  }

  function Deliveries(gpio: seq<SensorEvent>, nfc: seq<NfcEvent>, window: real): seq<Delivery> {
    if gpio == [] then []
    else if Handled(Last(gpio), nfc, window) then
      Deliveries(Front(gpio), nfc, window) + [Delivery(Last(gpio), PartFor(Last(gpio), nfc, window))]
    else Deliveries(Front(gpio), nfc, window)
  }

  function Unhandled(gpio: seq<SensorEvent>, nfc: seq<NfcEvent>, window: real): seq<SensorEvent> {
    if gpio == [] then []
    else if Handled(Last(gpio), nfc, window) then Unhandled(Front(gpio), nfc, window)
    else Unhandled(Front(gpio), nfc, window) + [Last(gpio)]
  }

  /** Positions of the picked reads, in the order of the triggers; one read may occur twice. */
  function Picks(gpio: seq<SensorEvent>, nfc: seq<NfcEvent>, window: real): (r: seq<nat>)
    ensures forall i :: 0 <= i < |r| ==> r[i] < |nfc|
  {
    if gpio == [] then []
    else if Fuses(Last(gpio), nfc, window) then
      Picks(Front(gpio), nfc, window) + [FirstMatch(Last(gpio), nfc, window)]
    else Picks(Front(gpio), nfc, window)
  }

  // -------------------------------------------------------------- deletion by position

  predicate Descending(s: seq<nat>) {
    forall i, j :: 0 <= i < j < |s| ==> s[i] >= s[j]
  }

  predicate Distinct(s: seq<nat>) {
    forall i, j :: 0 <= i < j < |s| ==> s[i] != s[j]
  }

  function InsertDescending(x: nat, s: seq<nat>): seq<nat> {
    if s == [] || x >= s[0] then [x] + s else [s[0]] + InsertDescending(x, s[1..])
  }

  /** `sorted(..., reverse=True)`. */
  function SortDescending(s: seq<nat>): seq<nat> {
    if s == [] then [] else InsertDescending(Last(s), SortDescending(Front(s)))
  }

  lemma {:induction false} InsertMembers(x: nat, s: seq<nat>)
    ensures multiset(InsertDescending(x, s)) == multiset(s) + multiset{x}
  {
    if s != [] && x < s[0] {
      InsertMembers(x, s[1..]);
      assert s == [s[0]] + s[1..];
    }
  }

  lemma {:induction false} InsertDescends(x: nat, s: seq<nat>)
    requires Descending(s)
    ensures Descending(InsertDescending(x, s))
  {
    if s != [] && x < s[0] {
      InsertDescends(x, s[1..]);
      InsertMembers(x, s[1..]);
      var rest := InsertDescending(x, s[1..]);
      forall i | 0 <= i < |rest|
        ensures s[0] >= rest[i]
      {
        assert rest[i] in multiset(rest);
        assert rest[i] == x || rest[i] in s[1..];
      }
    }
  }

  lemma NothingDescends()
    ensures Descending([])
  {
  }

  /** The sorted list is a descending rearrangement. */
  lemma {:induction false} SortDescends(s: seq<nat>)
    ensures Descending(SortDescending(s)) && multiset(SortDescending(s)) == multiset(s)
  {
    hide Descending, InsertDescending;
    if s == [] {
      NothingDescends();
    } else {
      SortDescends(Front(s));
      InsertDescends(Last(s), SortDescending(Front(s)));
      InsertMembers(Last(s), SortDescending(Front(s)));
      assert s == Front(s) + [Last(s)];
    }
  }

  function DeleteAt<T>(s: seq<T>, i: nat): seq<T>
    requires i < |s|
  {
    s[..i] + s[i + 1..]
  }

  /** What is left of a list, and whether every deletion found its position. */
  datatype Deleted<T> = Deleted(list: seq<T>, ok: bool)

  /** Delete position after position; the first one out of range stops the pass. */
  function DeleteEach<T>(s: seq<T>, positions: seq<nat>): Deleted<T>
    decreases |positions|
  {
    if positions == [] then Deleted(s, true)
    else if positions[0] < |s| then DeleteEach(DeleteAt(s, positions[0]), positions[1..])
    else Deleted(s, false)
  }

  /** The list without the positions in `gone`, in order. */
  function Without<T>(s: seq<T>, gone: set<nat>): seq<T> {
    if s == [] then []
    else if |s| - 1 in gone then Without(Front(s), gone)
    else Without(Front(s), gone) + [Last(s)]
  }

  function Positions(s: seq<nat>): set<nat> {
    set i | 0 <= i < |s| :: s[i]
  }

  lemma {:induction false} WithoutAgrees<T>(s: seq<T>, a: set<nat>, b: set<nat>)
    requires forall i: nat :: i < |s| ==> (i in a <==> i in b)
    ensures Without(s, a) == Without(s, b)
  {
    if s != [] {
      WithoutAgrees(Front(s), a, b);
    }
  }

  /** Beyond the last deleted position nothing changes. */
  lemma {:induction false} WithoutTail<T>(s: seq<T>, gone: set<nat>, n: nat)
    requires n <= |s| && forall i :: i in gone ==> i < n
    ensures Without(s, gone) == Without(s[..n], gone) + s[n..]
  {
    if |s| == n {
      assert s[..n] == s;
    } else {
      WithoutTail(Front(s), gone, n);
      assert Front(s)[..n] == s[..n];
      assert s[n..] == Front(s)[n..] + [Last(s)];
    }
  }

  lemma DeleteLargest<T>(s: seq<T>, gone: set<nat>, i: nat)
    requires i < |s| && i !in gone && forall j :: j in gone ==> j < i
    ensures Without(DeleteAt(s, i), gone) == Without(s, gone + {i})
  {
    var shorter := DeleteAt(s, i);
    WithoutTail(shorter, gone, i);
    assert shorter[..i] == s[..i] && shorter[i..] == s[i + 1..];
    WithoutTail(s, gone + {i}, i + 1);
    assert Front(s[..i + 1]) == s[..i];
    WithoutAgrees(s[..i], gone, gone + {i});
  }

  /** Deleting distinct positions from the back filters the list. */
  lemma {:induction false} DeleteEachFilters<T>(s: seq<T>, positions: seq<nat>)
    requires Descending(positions) && Distinct(positions)
    requires forall i :: 0 <= i < |positions| ==> positions[i] < |s|
    ensures DeleteEach(s, positions) == Deleted(Without(s, Positions(positions)), true)
    decreases |positions|
  {
    if positions == [] {
      WithoutNothing(s);
      assert Positions(positions) == {};
    } else {
      var i, rest := positions[0], positions[1..];
      DeleteEachFilters(DeleteAt(s, i), rest);
      DeleteLargest(s, Positions(rest), i);
      assert Positions(positions) == Positions(rest) + {i} by {
        assert positions == [i] + rest;
        forall x | x in Positions(positions)
          ensures x in Positions(rest) + {i}
        {
          var k: nat :| k < |positions| && positions[k] == x;
          assert k > 0 ==> rest[k - 1] == x;
        }
        forall x | x in Positions(rest)
          ensures x in Positions(positions)
        {
          var k: nat :| k < |rest| && rest[k] == x;
          assert positions[k + 1] == x;
        }
      }
    }
  }

  lemma {:induction false} WithoutNothing<T>(s: seq<T>)
    ensures Without(s, {}) == s
  {
    if s != [] {
      WithoutNothing(Front(s));
      assert s == Front(s) + [Last(s)];
    }
  }

  /** An abandoned deletion leaves more than it should have. */
  lemma {:induction false} DeleteEachLength<T>(s: seq<T>, positions: seq<nat>)
    ensures |DeleteEach(s, positions).list| >= |s| - |positions|
    ensures |DeleteEach(s, positions).list| == |s| - |positions| <==> DeleteEach(s, positions).ok
    decreases |positions|
  {
    if positions != [] && positions[0] < |s| {
      DeleteEachLength(DeleteAt(s, positions[0]), positions[1..]);
    }
  }

  /** Every position is still inside the list when its turn comes. */
  predicate StaysInRange(positions: seq<nat>, n: nat) {
    forall k :: 0 <= k < |positions| ==> positions[k] < n - k
  }

  lemma {:induction false} DeleteEachCompletes<T>(s: seq<T>, positions: seq<nat>)
    ensures DeleteEach(s, positions).ok <==> StaysInRange(positions, |s|)
    decreases |positions|
  {
    if positions != [] && positions[0] < |s| {
      var rest := positions[1..];
      DeleteEachCompletes(DeleteAt(s, positions[0]), rest);
      assert forall k | 0 <= k < |rest| :: rest[k] == positions[k + 1];
      assert forall k | 1 <= k < |positions| :: positions[k] == rest[k - 1];
    }
  }

  lemma {:induction false} DeleteEachMembers<T>(s: seq<T>, positions: seq<nat>)
    ensures forall x :: x in DeleteEach(s, positions).list ==> x in s
    decreases |positions|
  {
    if positions != [] && positions[0] < |s| {
      DeleteEachMembers(DeleteAt(s, positions[0]), positions[1..]);
    }
  }

  lemma {:induction false} WithoutLength<T>(s: seq<T>, gone: set<nat>)
    requires forall i :: i in gone ==> i < |s|
    ensures |Without(s, gone)| == |s| - |gone|
  {
    if s == [] {
      assert gone == {};
    } else {
      var inner := gone - {|s| - 1};
      WithoutLength(Front(s), inner);
      WithoutAgrees(Front(s), gone, inner);
    }
  }

  lemma {:induction false} PositionsCount(s: seq<nat>)
    ensures |Positions(s)| <= |s|
    ensures |Positions(s)| == |s| <==> Distinct(s)
  {
    if s != [] {
      var front, x := Front(s), Last(s);
      PositionsCount(front);
      assert Positions(s) == Positions(front) + {x} by {
        assert forall i :: 0 <= i < |front| ==> front[i] == s[i];
        assert s[|s| - 1] == x;
      }
      if x in Positions(front) {
        var k: nat :| k < |front| && front[k] == x;
        assert s[k] == s[|s| - 1];
        assert Positions(s) == Positions(front);
      } else {
        assert forall i :: 0 <= i < |front| ==> s[i] in Positions(front);
      }
    }
  }

  lemma SameElements(a: seq<nat>, b: seq<nat>)
    requires multiset(a) == multiset(b)
    ensures |a| == |b| && Positions(a) == Positions(b) && (Distinct(a) <==> Distinct(b))
  {
    assert |multiset(a)| == |multiset(b)|;
    forall x
      ensures x in Positions(a) <==> x in Positions(b)
    {
      assert x in Positions(a) <==> x in multiset(a);
      assert x in Positions(b) <==> x in multiset(b);
    }
    PositionsCount(a);
    PositionsCount(b);
  }

  // ------------------------------------------------------------ deleting marked positions

  /** The marked positions, ascending. */
  function MarkedAt(marks: seq<bool>): (r: seq<nat>)
    ensures |r| <= |marks|
  {
    if marks == [] then []
    else if Last(marks) then MarkedAt(Front(marks)) + [|marks| - 1]
    else MarkedAt(Front(marks))
  }

  lemma MarkedAppend(marks: seq<bool>, mark: bool)
    ensures MarkedAt(marks + [mark]) == if mark then MarkedAt(marks) + [|marks|] else MarkedAt(marks)
  {
    AppendFront(marks, mark);
  }

  function Unmarked<T>(s: seq<T>, marks: seq<bool>): seq<T>
    requires |s| == |marks|
  {
    if s == [] then []
    else if Last(marks) then Unmarked(Front(s), Front(marks))
    else Unmarked(Front(s), Front(marks)) + [Last(s)]
  }

  lemma {:induction false} MarkedInRange(marks: seq<bool>)
    ensures Distinct(MarkedAt(marks))
    ensures forall i :: 0 <= i < |MarkedAt(marks)| ==> MarkedAt(marks)[i] < |marks|
  {
    if marks != [] {
      MarkedInRange(Front(marks));
    }
  }

  lemma {:induction false} WithoutMarked<T>(s: seq<T>, marks: seq<bool>)
    requires |s| == |marks|
    ensures Without(s, Positions(MarkedAt(marks))) == Unmarked(s, marks)
  {
    if s != [] {
      var front := MarkedAt(Front(marks));
      WithoutMarked(Front(s), Front(marks));
      MarkedInRange(Front(marks));
      if Last(marks) {
        PositionsAppend(front, |marks| - 1);
        WithoutAgrees(Front(s), Positions(front), Positions(MarkedAt(marks)));
      } else {
        assert |s| - 1 !in Positions(front);
      }
    }
  }

  /** Deleting the marked positions from the back leaves the unmarked elements, in order. */
  lemma DeleteMarked<T>(s: seq<T>, marks: seq<bool>)
    requires |s| == |marks|
    ensures DeleteEach(s, SortDescending(MarkedAt(marks))) == Deleted(Unmarked(s, marks), true)
  {
    var at := MarkedAt(marks);
    MarkedInRange(marks);
    SortDescends(at);
    SameElements(SortDescending(at), at);
    InRange(at, SortDescending(at), |s|);
    DeleteEachFilters(s, SortDescending(at));
    WithoutMarked(s, marks);
  }

  // ------------------------------------------------------------------ the whole pass

  /** What a pass leaves pending, hands over and counts; `ok` is false when deleting reads
      ran past the end of the list, which abandons the rest of the iteration. */
  datatype Pass = Pass(
    gpio: seq<SensorEvent>,
    nfc: seq<NfcEvent>,
    deliveries: seq<Delivery>,
    fused: nat,
    ok: bool)

  function FusePass(gpio: seq<SensorEvent>, nfc: seq<NfcEvent>, window: real): Pass {
    var picks := Picks(gpio, nfc, window);
    var left := DeleteEach(nfc, SortDescending(picks));
    Pass(Unhandled(gpio, nfc, window), left.list, Deliveries(gpio, nfc, window), |picks|, left.ok)
  }

  // -------------------------------------------------- the condition for an exact pass

  /** No two entry triggers have the same first matching read. */
  ghost predicate NoDoubleMatch(gpio: seq<SensorEvent>, nfc: seq<NfcEvent>, window: real) {
    forall i, j | 0 <= i < j < |gpio| ::
      Fuses(gpio[i], nfc, window) && Fuses(gpio[j], nfc, window)
      ==> FirstMatch(gpio[i], nfc, window) != FirstMatch(gpio[j], nfc, window)
  }

  lemma {:induction false} PickFrom(gpio: seq<SensorEvent>, nfc: seq<NfcEvent>, window: real)
    ensures forall x :: x in Picks(gpio, nfc, window)
                        <==> exists i :: 0 <= i < |gpio| && Fuses(gpio[i], nfc, window)
                                         && FirstMatch(gpio[i], nfc, window) == x
  {
    if gpio != [] {
      PickFrom(Front(gpio), nfc, window);
      forall x
        ensures x in Picks(gpio, nfc, window)
                <==> exists i :: 0 <= i < |gpio| && Fuses(gpio[i], nfc, window)
                                 && FirstMatch(gpio[i], nfc, window) == x
      {
        if x in Picks(Front(gpio), nfc, window) {
          var i :| 0 <= i < |Front(gpio)| && Fuses(Front(gpio)[i], nfc, window)
                   && FirstMatch(Front(gpio)[i], nfc, window) == x;
          assert gpio[i] == Front(gpio)[i];
        }
        if i :| 0 <= i < |gpio| && Fuses(gpio[i], nfc, window) && FirstMatch(gpio[i], nfc, window) == x {
          assert i < |gpio| - 1 ==> gpio[i] == Front(gpio)[i];
        }
      }
    }
  }

  lemma {:induction false} DistinctPicks(gpio: seq<SensorEvent>, nfc: seq<NfcEvent>, window: real)
    ensures Distinct(Picks(gpio, nfc, window)) <==> NoDoubleMatch(gpio, nfc, window)
  {
    if gpio != [] {
      var front, g := Front(gpio), Last(gpio);
      DistinctPicks(front, nfc, window);
      PickFrom(front, nfc, window);
      var before, x := Picks(front, nfc, window), FirstMatch(g, nfc, window);
      assert forall i :: 0 <= i < |front| ==> front[i] == gpio[i];
      if Fuses(g, nfc, window) {
        assert Picks(gpio, nfc, window) == before + [x];
        assert Distinct(before + [x]) <==> Distinct(before) && x !in before by {
          DistinctAppend(before, x);
        }
      }
    }
  }

  lemma DistinctAppend(s: seq<nat>, x: nat)
    ensures Distinct(s + [x]) <==> Distinct(s) && x !in s
  {
    var longer := s + [x];
    assert longer[|s|] == x && forall i | 0 <= i < |s| :: longer[i] == s[i];
    if x in s {
      var i :| 0 <= i < |s| && s[i] == x;
      assert !Distinct(longer);
    }
  }

  /** A pass completes and leaves exactly the unpicked reads if and only if no read is picked twice. */
  lemma PassExactIffNoDoubleMatch(gpio: seq<SensorEvent>, nfc: seq<NfcEvent>, window: real)
    ensures var pass := FusePass(gpio, nfc, window);
            pass.ok && pass.nfc == Without(nfc, Positions(Picks(gpio, nfc, window)))
            <==> NoDoubleMatch(gpio, nfc, window)
  {
    var picks := Picks(gpio, nfc, window);
    var sorted := SortDescending(picks);
    var pass := FusePass(gpio, nfc, window);
    DistinctPicks(gpio, nfc, window);
    SortDescends(picks);
    SameElements(sorted, picks);
    InRange(picks, sorted, |nfc|);
    if Distinct(picks) {
      DeleteEachFilters(nfc, sorted);
    }
    if pass.ok && pass.nfc == Without(nfc, Positions(picks)) {
      DeleteEachLength(nfc, sorted);
      WithoutLength(nfc, Positions(picks));
      PositionsCount(picks);
    }
  }

  lemma InRange(a: seq<nat>, b: seq<nat>, n: nat)
    requires multiset(a) == multiset(b) && forall i :: 0 <= i < |a| ==> a[i] < n
    ensures forall i :: 0 <= i < |b| ==> b[i] < n
  {
    forall i | 0 <= i < |b|
      ensures b[i] < n
    {
      assert b[i] in multiset(b);
      assert b[i] in a;
    }
  }

  // --------------------------------------------------------------- when a pass completes

  /** How many elements are at least `i`. */
  function CountFrom(s: seq<nat>, i: nat): nat {
    if s == [] then 0 else CountFrom(Front(s), i) + if Last(s) >= i then 1 else 0
  }

  lemma {:induction false} CountFromConcat(a: seq<nat>, b: seq<nat>, i: nat)
    ensures CountFrom(a + b, i) == CountFrom(a, i) + CountFrom(b, i)
  {
    if b == [] {
      assert a + b == a;
    } else {
      CountFromConcat(a, Front(b), i);
      assert Front(a + b) == a + Front(b) && Last(a + b) == Last(b);
    }
  }

  lemma {:induction false} CountFromInsert(x: nat, s: seq<nat>, i: nat)
    ensures CountFrom(InsertDescending(x, s), i) == CountFrom(s, i) + CountFrom([x], i)
  {
    if s == [] || x >= s[0] {
      CountFromConcat([x], s, i);
    } else {
      CountFromInsert(x, s[1..], i);
      CountFromConcat([s[0]], InsertDescending(x, s[1..]), i);
      CountFromConcat([s[0]], s[1..], i);
      assert s == [s[0]] + s[1..];
    }
  }

  lemma {:induction false} CountFromSort(s: seq<nat>, i: nat)
    ensures CountFrom(SortDescending(s), i) == CountFrom(s, i)
  {
    if s != [] {
      CountFromSort(Front(s), i);
      CountFromInsert(Last(s), SortDescending(Front(s)), i);
      CountFromConcat(Front(s), [Last(s)], i);
      assert s == Front(s) + [Last(s)];
    }
  }

  /** In a descending list the elements that are at least `i` come first. */
  lemma {:induction false} CountFromDescending(s: seq<nat>, i: nat, k: nat)
    requires Descending(s) && k < |s|
    ensures s[k] >= i <==> CountFrom(s, i) > k
    ensures CountFrom(s, i) <= |s|
  {
    var front := Front(s);
    if |s| > 1 {
      CountFromDescending(front, i, if k < |front| then k else |front| - 1);
      assert front[|front| - 1] >= Last(s) && (k < |front| ==> front[k] >= Last(s));
    }
  }

  /** Of any last stretch of the list no more is picked than it holds. */
  ghost predicate Fits(picks: seq<nat>, n: nat) {
    forall i: nat :: i <= n ==> CountFrom(picks, i) <= n - i
  }

  lemma FitsIsStaysInRange(picks: seq<nat>, n: nat)
    requires forall k :: 0 <= k < |picks| ==> picks[k] < n
    ensures Fits(picks, n) <==> StaysInRange(SortDescending(picks), n)
  {
    var sorted := SortDescending(picks);
    SortDescends(picks);
    SameElements(sorted, picks);
    InRange(picks, sorted, n);
    if Fits(picks, n) {
      forall k | 0 <= k < |sorted|
        ensures sorted[k] < n - k
      {
        CountFromSort(picks, sorted[k]);
        CountFromDescending(sorted, sorted[k], k);
      }
    }
    if StaysInRange(sorted, n) {
      forall i: nat | i <= n
        ensures CountFrom(picks, i) <= n - i
      {
        var count := CountFrom(sorted, i);
        CountFromSort(picks, i);
        if count > 0 {
          CountFromBounded(sorted, i);
          CountFromDescending(sorted, i, count - 1);
        }
      }
    }
  }

  lemma {:induction false} CountFromBounded(s: seq<nat>, i: nat)
    ensures CountFrom(s, i) <= |s|
  {
    if s != [] {
      CountFromBounded(Front(s), i);
    }
  }

  /** How many triggers fuse with a first match at position `i` or later. */
  function FusingFrom(gpio: seq<SensorEvent>, nfc: seq<NfcEvent>, window: real, i: nat): nat {
    if gpio == [] then 0
    else
      FusingFrom(Front(gpio), nfc, window, i)
      + if Fuses(Last(gpio), nfc, window) && FirstMatch(Last(gpio), nfc, window) >= i then 1 else 0
  }

  lemma {:induction false} PicksFusingFrom(gpio: seq<SensorEvent>, nfc: seq<NfcEvent>, window: real, i: nat)
    ensures CountFrom(Picks(gpio, nfc, window), i) == FusingFrom(gpio, nfc, window, i)
  {
    if gpio != [] {
      PicksFusingFrom(Front(gpio), nfc, window, i);
      CountFromConcat(Picks(Front(gpio), nfc, window), [FirstMatch(Last(gpio), nfc, window)], i);
    }
  }

  /** From every position on there are at least as many reads as triggers that pick there. */
  ghost predicate EnoughReads(gpio: seq<SensorEvent>, nfc: seq<NfcEvent>, window: real) {
    forall i: nat :: i <= |nfc| ==> FusingFrom(gpio, nfc, window, i) <= |nfc| - i
  }

  /** A pass completes if and only if no last stretch of the pending reads is picked more often
      than it has reads; otherwise the deletion runs out of range and the iteration is abandoned. */
  lemma PassCompletesIffEnoughReads(gpio: seq<SensorEvent>, nfc: seq<NfcEvent>, window: real)
    ensures FusePass(gpio, nfc, window).ok <==> EnoughReads(gpio, nfc, window)
  {
    var picks := Picks(gpio, nfc, window);
    DeleteEachCompletes(nfc, SortDescending(picks));
    FitsIsStaysInRange(picks, |nfc|);
    forall i: nat
      ensures CountFrom(picks, i) == FusingFrom(gpio, nfc, window, i)
    {
      PicksFusingFrom(gpio, nfc, window, i);
    }
  }

  // ------------------------------------------------------------ greedy first-fit matching

  /** The reference matching: each entry trigger takes the first matching read not taken before. */
  datatype Greedy = Greedy(deliveries: seq<Delivery>, unmatched: seq<SensorEvent>, taken: set<nat>)

  function FirstFree(g: SensorEvent, nfc: seq<NfcEvent>, taken: set<nat>, window: real): (k: nat)
    ensures k <= |nfc|
    ensures k < |nfc| ==> k !in taken && EventsMatch(g, nfc[k], window)
    ensures forall j :: 0 <= j < k ==> j in taken || !EventsMatch(g, nfc[j], window)
  {
    if nfc == [] then 0
    else
      var k := FirstFree(g, Front(nfc), taken, window);
      if k < |nfc| - 1 then k
      else if |nfc| - 1 !in taken && EventsMatch(g, Last(nfc), window) then |nfc| - 1
      else |nfc|
  }

  function GreedyMatch(gpio: seq<SensorEvent>, nfc: seq<NfcEvent>, window: real): Greedy {
    if gpio == [] then Greedy([], [], {})
    else
      var before, g := GreedyMatch(Front(gpio), nfc, window), Last(gpio);
      var k := FirstFree(g, nfc, before.taken, window);
      if !IsEntryBarrier(g.barrier) then before.(deliveries := before.deliveries + [Delivery(g, None)])
      else if k < |nfc| then
        Greedy(before.deliveries + [Delivery(g, Some(nfc[k].part))], before.unmatched, before.taken + {k})
      else before.(unmatched := before.unmatched + [g])
  }

  lemma FirstFreeIsFirst(g: SensorEvent, nfc: seq<NfcEvent>, taken: set<nat>, window: real)
    requires FirstMatch(g, nfc, window) !in taken
    ensures FirstFree(g, nfc, taken, window) == FirstMatch(g, nfc, window)
  {
    var k, f := FirstMatch(g, nfc, window), FirstFree(g, nfc, taken, window);
    assert k < |nfc| ==> EventsMatch(g, nfc[k], window);
    assert f < |nfc| ==> EventsMatch(g, nfc[f], window);
  }

  lemma {:induction false} PicksAreGreedy(gpio: seq<SensorEvent>, nfc: seq<NfcEvent>, window: real)
    requires Distinct(Picks(gpio, nfc, window))
    ensures GreedyMatch(gpio, nfc, window)
            == Greedy(Deliveries(gpio, nfc, window), Unhandled(gpio, nfc, window), Positions(Picks(gpio, nfc, window)))
  {
    if gpio == [] {
      assert Positions([]) == {};
    } else {
      var front, g := Front(gpio), Last(gpio);
      var before, k := Picks(front, nfc, window), FirstMatch(g, nfc, window);
      if Fuses(g, nfc, window) {
        DistinctAppend(before, k);
        PositionsAppend(before, k);
      }
      PicksAreGreedy(front, nfc, window);
      if IsEntryBarrier(g.barrier) {
        if k < |nfc| {
          assert k !in Positions(before);
        } else {
          assert forall i :: 0 <= i < |before| ==> before[i] < |nfc|;
        }
        FirstFreeIsFirst(g, nfc, Positions(before), window);
      }
    }
  }

  lemma PositionsAppend(s: seq<nat>, x: nat)
    ensures Positions(s + [x]) == Positions(s) + {x}
  {
    var longer := s + [x];
    forall y
      ensures y in Positions(longer) <==> y in Positions(s) + {x}
    {
      if y in Positions(s) {
        var i: nat :| i < |s| && s[i] == y;
        assert longer[i] == y;
      }
      assert longer[|s|] == x;
    }
  }

  /** Without a double match one pass of nested loops and reverse deletion is the greedy first-fit
      matching: same deliveries and parts, same unmatched triggers, same surviving reads, in order. */
  lemma PassIsGreedy(gpio: seq<SensorEvent>, nfc: seq<NfcEvent>, window: real)
    requires NoDoubleMatch(gpio, nfc, window)
    ensures var pass, greedy := FusePass(gpio, nfc, window), GreedyMatch(gpio, nfc, window);
            && pass.ok
            && pass.deliveries == greedy.deliveries
            && pass.gpio == greedy.unmatched
            && pass.nfc == Without(nfc, greedy.taken)
            && pass.fused == |greedy.taken|
  {
    PassExactIffNoDoubleMatch(gpio, nfc, window);
    DistinctPicks(gpio, nfc, window);
    PicksAreGreedy(gpio, nfc, window);
    PositionsCount(Picks(gpio, nfc, window));
  }

  /** Entry triggers of one place are more than two windows apart. */
  ghost predicate SpacedTriggers(gpio: seq<SensorEvent>, window: real) {
    forall i, j | 0 <= i < j < |gpio| ::
      IsEntryBarrier(gpio[i].barrier) && IsEntryBarrier(gpio[j].barrier) && gpio[i].place == gpio[j].place
      ==> Abs(gpio[i].stamp - gpio[j].stamp) > 2.0 * window
  }

  /** Spaced triggers never pick the same read. */
  lemma SpacingExcludesDoubleMatch(gpio: seq<SensorEvent>, nfc: seq<NfcEvent>, window: real)
    requires SpacedTriggers(gpio, window)
    ensures NoDoubleMatch(gpio, nfc, window)
  {
    forall i, j | 0 <= i < j < |gpio| && Fuses(gpio[i], nfc, window) && Fuses(gpio[j], nfc, window)
      ensures FirstMatch(gpio[i], nfc, window) != FirstMatch(gpio[j], nfc, window)
    {
      var k, l := FirstMatch(gpio[i], nfc, window), FirstMatch(gpio[j], nfc, window);
      assert EventsMatch(gpio[i], nfc[k], window) && EventsMatch(gpio[j], nfc[l], window);
    }
  }

  lemma TwoPositions(s: seq<SensorEvent>, x: SensorEvent, y: SensorEvent)
    requires multiset{x, y} <= multiset(s)
    ensures exists p, q :: 0 <= p < |s| && 0 <= q < |s| && p != q && s[p] == x && s[q] == y
  {
    assert x in multiset(s) && multiset{x, y}[y] <= multiset(s)[y];
    var p :| 0 <= p < |s| && s[p] == x;
    var rest := s[..p] + s[p + 1..];
    assert s == s[..p] + [x] + s[p + 1..];
    assert multiset(s) == multiset(rest) + multiset{x};
    assert multiset(rest)[y] >= 1;
    assert y in multiset(rest);
    var q :| 0 <= q < |rest| && rest[q] == y;
    assert s[if q < p then q else q + 1] == y;
  }

  lemma PairInside(t: seq<SensorEvent>, i: nat, j: nat)
    requires i < j < |t|
    ensures multiset{t[i], t[j]} <= multiset(t)
  {
    var before, after := t[..j], t[j..];
    assert t == before + after && before[i] == t[i] && after[0] == t[j];
    assert before[i] in multiset(before) && after[0] in multiset(after);
  }

  lemma PairIsSpaced(s: seq<SensorEvent>, x: SensorEvent, y: SensorEvent, window: real)
    requires SpacedTriggers(s, window) && multiset{x, y} <= multiset(s)
    requires IsEntryBarrier(x.barrier) && IsEntryBarrier(y.barrier) && x.place == y.place
    ensures Abs(x.stamp - y.stamp) > 2.0 * window
  {
    TwoPositions(s, x, y);
    var p, q :| 0 <= p < |s| && 0 <= q < |s| && p != q && s[p] == x && s[q] == y;
    if p < q {
      assert Abs(s[p].stamp - s[q].stamp) > 2.0 * window;
    } else {
      assert Abs(s[q].stamp - s[p].stamp) > 2.0 * window;
    }
  }

  /** Fewer triggers are no closer together. */
  lemma SpacedSubset(s: seq<SensorEvent>, t: seq<SensorEvent>, window: real)
    requires SpacedTriggers(s, window)
    requires forall x: SensorEvent :: IsEntryBarrier(x.barrier) ==> multiset(t)[x] <= multiset(s)[x]
    ensures SpacedTriggers(t, window)
  {
    forall i, j | 0 <= i < j < |t| && IsEntryBarrier(t[i].barrier) && IsEntryBarrier(t[j].barrier) && t[i].place == t[j].place
      ensures Abs(t[i].stamp - t[j].stamp) > 2.0 * window
    {
      hide SpacedTriggers;
      PairInside(t, i, j);
      assert multiset(t)[t[i]] <= multiset(s)[t[i]] && multiset(t)[t[j]] <= multiset(s)[t[j]];
      PairIsSpaced(s, t[i], t[j], window);
    }
  }

  // ------------------------------------------------------------ what a double match does

  function EntryTrigger(stamp: real): SensorEvent {
    SensorEvent(stamp, StationEntry(1), AtStation(1))
  }

  lemma TwoPicksOfFirst(first: SensorEvent, second: SensorEvent, nfc: seq<NfcEvent>, window: real)
    requires nfc != [] && IsEntryBarrier(first.barrier) && IsEntryBarrier(second.barrier)
    requires EventsMatch(first, nfc[0], window) && EventsMatch(second, nfc[0], window)
    ensures Picks([first, second], nfc, window) == [0, 0]
    ensures Deliveries([first, second], nfc, window)
            == [Delivery(first, Some(nfc[0].part)), Delivery(second, Some(nfc[0].part))]
  {
    assert Front([first, second]) == [first] && Front([first]) == [];
    assert FirstMatch(first, nfc, window) == 0 && FirstMatch(second, nfc, window) == 0;
    var d1, d2 := Delivery(first, Some(nfc[0].part)), Delivery(second, Some(nfc[0].part));
    assert Picks([first], nfc, window) == [0] && Deliveries([first], nfc, window) == [d1] by {
      assert Picks([], nfc, window) == [] && Deliveries([], nfc, window) == [];
    }
    assert Picks([first, second], nfc, window) == [0] + [0];
    assert Deliveries([first, second], nfc, window) == [d1] + [d2];
  }

  lemma TwoTriggersDoubleMatch(first: SensorEvent, second: SensorEvent, nfc: seq<NfcEvent>, window: real)
    requires nfc != [] && IsEntryBarrier(first.barrier) && IsEntryBarrier(second.barrier)
    requires EventsMatch(first, nfc[0], window) && EventsMatch(second, nfc[0], window)
    ensures !NoDoubleMatch([first, second], nfc, window)
  {
    hide NoDoubleMatch, Picks, Deliveries;
    TwoPicksOfFirst(first, second, nfc, window);
    DistinctPicks([first, second], nfc, window);
    var picks := Picks([first, second], nfc, window);
    assert picks[0] == picks[1];
  }

  lemma SortTwoZeros()
    ensures SortDescending([0, 0]) == [0, 0]
  {
    var one: seq<nat>, two: seq<nat> := [0], [0, 0];
    assert Front(two) == one && Front(one) == [];
    assert SortDescending(one) == one;
  }

  /** Two triggers half a second apart use one read twice, and the pass deletes the unrelated
      read of the other station with it. */
  lemma DoubleMatchLosesRead()
    ensures var a, b := NfcEvent(10.2, 1, "A"), NfcEvent(11.0, 2, "B");
            var pass := FusePass([EntryTrigger(10.0), EntryTrigger(10.5)], [a, b], 2.0);
            && pass.ok && pass.nfc == []
            && pass.deliveries == [Delivery(EntryTrigger(10.0), Some("A")), Delivery(EntryTrigger(10.5), Some("A"))]
  {
    var nfc := [NfcEvent(10.2, 1, "A"), NfcEvent(11.0, 2, "B")];
    TwoPicksOfFirst(EntryTrigger(10.0), EntryTrigger(10.5), nfc, 2.0);
    hide Picks, Deliveries, FirstMatch, DeleteEach, SortDescending;
    SortTwoZeros();
    DeleteFirstTwice(nfc);
  }

  lemma DeleteFirstTwice(nfc: seq<NfcEvent>)
    requires |nfc| == 2
    ensures DeleteEach(nfc, [0, 0]) == Deleted([], true)
  {
    assert DeleteAt(nfc, 0) == [nfc[1]] && DeleteAt([nfc[1]], 0) == [];
    assert [0, 0][1..] == [0] && [0][1..] == [];
  }

  /** With no other read pending the second deletion is out of range and the pass is abandoned. */
  lemma DoubleMatchAbandonsPass()
    ensures !FusePass([EntryTrigger(10.0), EntryTrigger(10.5)], [NfcEvent(10.2, 1, "A")], 2.0).ok
  {
    var nfc := [NfcEvent(10.2, 1, "A")];
    TwoPicksOfFirst(EntryTrigger(10.0), EntryTrigger(10.5), nfc, 2.0);
    hide Picks, Deliveries, FirstMatch, DeleteEach, SortDescending;
    SortTwoZeros();
    DeleteEachCompletes(nfc, [0, 0]);
    assert !StaysInRange([0, 0], 1) by {
      var zeros: seq<nat> := [0, 0];
      assert zeros[1] == 0;
    }
  }
}
