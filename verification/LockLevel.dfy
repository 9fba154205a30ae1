/** The reservation table at the granularity of its own lock: any interleaving of requests,
    releases and handshake flags by any callers, not only by the corner state machines. */
module LockLevel {
  import opened Basics
  import opened Collision
  import opened PlantInvariant
  import opened Timing

  datatype Op =
    | Request(c: CornerId, now: real)
    | Free(c: CornerId, now: real)
    | Flag(c: CornerId, on: bool, now: real)

  function Apply(m: Manager, op: Op): Manager {
    match op
    case Request(c, now) => if MayGrant(m, c, now) then Reserve(m, c) else m
    case Free(c, now) => Release(m, c, now)
    case Flag(c, on, _) => SetWait(m, c, on)
  }

  function RunOps(ops: seq<Op>): Manager {
    if ops == [] then NO_RESERVATIONS else Apply(RunOps(Front(ops)), Last(ops))
  }

  /** When corner `c` was granted. */
  function GrantTimes(ops: seq<Op>, c: CornerId): seq<real> {
    if ops == [] then []
    else
      var before, op := GrantTimes(Front(ops), c), Last(ops);
      if op.Request? && op.c == c && MayGrant(RunOps(Front(ops)), c, op.now) then before + [op.now] else before
  }

  /** No interleaving reserves two adjacent corners together. */
  lemma {:induction false} LockExcludes(ops: seq<Op>)
    ensures NoAdjacent(RunOps(ops))
  {
    if ops != [] {
      var m, op := RunOps(Front(ops)), Last(ops);
      LockExcludes(Front(ops));
      if op.Request? && MayGrant(m, op.c, op.now) {
        ReserveExcludes(m, op.c, op.now);
      } else {
        ReleaseExcludes(m, Apply(m, op));
      }
    }
  }

  ghost predicate InOrder(ops: seq<Op>) {
    forall i, j :: 0 <= i < j < |ops| ==> ops[i].now <= ops[j].now
  }

  ghost predicate GrantsSpaced(ops: seq<Op>, c: CornerId, m: Manager) {
    var ts := GrantTimes(ops, c);
    && Spaced(ts, 2.0)
    && (ops != [] ==> forall i :: 0 <= i < |ts| ==> ts[i] <= Last(ops).now)
    && (!m.occupied.At(c) ==> forall i :: 0 <= i < |ts| ==> ts[i] <= m.lastUsed.At(c))
  }

  lemma SpacedGrows(ts: seq<real>, now: real)
    requires Spaced(ts, 2.0) && forall i :: 0 <= i < |ts| ==> now - ts[i] >= 2.0
    ensures Spaced(ts + [now], 2.0)
  {
  }

  lemma {:induction false} GrantsAreSpaced(ops: seq<Op>, c: CornerId)
    requires InOrder(ops)
    ensures GrantsSpaced(ops, c, RunOps(ops))
  {
    if ops != [] {
      InOrderFront(ops);
      GrantsAreSpaced(Front(ops), c);
      OneMoreOp(Front(ops), Last(ops), c);
      assert ops == Front(ops) + [Last(ops)];
    }
  }

  lemma InOrderFront(ops: seq<Op>)
    requires ops != [] && InOrder(ops)
    ensures InOrder(Front(ops)) && (Front(ops) != [] ==> Last(Front(ops)).now <= Last(ops).now)
  {
  }

  lemma OpAppends(front: seq<Op>, op: Op, c: CornerId)
    ensures RunOps(front + [op]) == Apply(RunOps(front), op)
    ensures GrantTimes(front + [op], c)
            == GrantTimes(front, c)
               + if op.Request? && op.c == c && MayGrant(RunOps(front), c, op.now) then [op.now] else []
  {
    AppendFront(front, op);
  }

  /** What one operation does to the use of corner `c`. */
  lemma OpUses(m: Manager, op: Op, c: CornerId)
    ensures var m' := Apply(m, op);
            if op.Request? && op.c == c && MayGrant(m, c, op.now) then m'.occupied.At(c)
            else if op.Free? && op.c == c then m'.lastUsed.At(c) == op.now
            else m'.occupied.At(c) == m.occupied.At(c) && m'.lastUsed.At(c) == m.lastUsed.At(c)
  {
  }

  lemma OneMoreOp(front: seq<Op>, op: Op, c: CornerId)
    requires GrantsSpaced(front, c, RunOps(front)) && (front != [] ==> Last(front).now <= op.now)
    ensures GrantsSpaced(front + [op], c, RunOps(front + [op]))
  {
    var ts, m := GrantTimes(front, c), RunOps(front);
    assert front == [] ==> ts == [];
    hide RunOps, GrantTimes, Apply;
    OpAppends(front, op, c);
    OpUses(m, op, c);
    AppendFront(front, op);
    if op.Request? && op.c == c && MayGrant(m, c, op.now) {
      SpacedGrows(ts, op.now);
    }
  }

  /** A request is granted exactly when the corner is free and was for two seconds, and both its
      neighbours are free; nothing else reserves a corner, and only freeing it ends that. */
  lemma LockGrantsExactly(ops: seq<Op>, op: Op, c: CornerId)
    ensures var m, m' := RunOps(ops), RunOps(ops + [op]);
            && (!m.occupied.At(c) ==>
                  (m'.occupied.At(c) <==>
                     && op.Request? && op.c == c && op.now - m.lastUsed.At(c) >= 2.0
                     && (c == 1 || c == 3 ==> !m.occupied.c2 && !m.occupied.c4)
                     && (c == 2 || c == 4 ==> !m.occupied.c1 && !m.occupied.c3)))
            && (m.occupied.At(c) ==> (!m'.occupied.At(c) <==> op.Free? && op.c == c))
  {
    AppendFront(ops, op);
  }

  /** A window of length T holds at most 1 + floor(T / 2) grants of one corner, whoever asks and frees. */
  lemma LockGrantsInWindow(ops: seq<Op>, c: CornerId, low: real, length: real)
    requires InOrder(ops) && length >= 0.0
    ensures |InWindow(GrantTimes(ops, c), low, low + length)| <= 1 + (length / 2.0).Floor
  {
    GrantsAreSpaced(ops, c);
    SpacedCount(GrantTimes(ops, c), low, length);
  }
}
