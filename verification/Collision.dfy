/** The reservation table of collision_manager.py. */
module Collision {
  import opened Basics

  const MIN_INTERVAL := 2.0

  datatype Manager = Manager(occupied: PerCorner<bool>, lastUsed: PerCorner<real>, waiting: PerCorner<bool>)

  const NO_RESERVATIONS: Manager := Manager(
    PerCorner(false, false, false, false),
    PerCorner(0.0, 0.0, 0.0, 0.0),
    PerCorner(false, false, false, false))

  function Neighbours(c: CornerId): (r: seq<CornerId>) {
    if c == 1 || c == 3 then [2, 4] else [1, 3]
  }

  predicate Adjacent(c: CornerId, d: CornerId) {
    d in Neighbours(c)
  }

  /** Both neighbours of `c` are free. */
  predicate FreeAround(m: Manager, c: CornerId) {
    if c == 1 || c == 3 then !m.occupied.c2 && !m.occupied.c4 else !m.occupied.c1 && !m.occupied.c3
  }

  lemma FreeAroundMeansAdjacentFree(m: Manager, c: CornerId)
    ensures FreeAround(m, c) <==> forall d: CornerId :: Adjacent(c, d) ==> !m.occupied.At(d)
  {
    if c == 1 || c == 3 {
      assert Adjacent(c, 2) && Adjacent(c, 4);
    } else {
      assert Adjacent(c, 1) && Adjacent(c, 3);
    }
  }

  /** When a request for corner `c` at time `now` succeeds. */
  predicate MayGrant(m: Manager, c: CornerId, now: real) {
    !m.occupied.At(c) && now - m.lastUsed.At(c) >= MIN_INTERVAL && FreeAround(m, c)
  }

  function Reserve(m: Manager, c: CornerId): Manager {
    m.(occupied := m.occupied.With(c, true))
  }

  function Release(m: Manager, c: CornerId, now: real): Manager {
    m.(occupied := m.occupied.With(c, false), lastUsed := m.lastUsed.With(c, now))
  }

  function SetWait(m: Manager, c: CornerId, flag: bool): Manager {
    m.(waiting := m.waiting.With(c, flag))
  }

  /** M1 must keep running while corner 2 waits for its part, M2 while corner 4 does. */
  predicate SafeToStop(m: Manager, motor: int) {
    (motor == 1 ==> !m.waiting.At(2)) && (motor == 2 ==> !m.waiting.At(4))
  }

  class CollisionManager {
    var occupied: map<CornerId, bool>
    var lastUsed: map<CornerId, real>
    var waiting: map<CornerId, bool>

    ghost predicate Valid()
      reads this
    {
      forall c: CornerId :: c in occupied && c in lastUsed && c in waiting
    }

    ghost function View(): Manager
      requires Valid()
      reads this
    {
      Manager(PerCorner(occupied[1], occupied[2], occupied[3], occupied[4]),
              PerCorner(lastUsed[1], lastUsed[2], lastUsed[3], lastUsed[4]),
              PerCorner(waiting[1], waiting[2], waiting[3], waiting[4]))
    }

    constructor ()
      ensures Valid() && View() == NO_RESERVATIONS
    {
      occupied := map[1 := false, 2 := false, 3 := false, 4 := false];
      lastUsed := map[1 := 0.0, 2 := 0.0, 3 := 0.0, 4 := 0.0];
      waiting := map[1 := false, 2 := false, 3 := false, 4 := false];
    }

    method RequestCorner(c: CornerId, now: real) returns (granted: bool)
      requires Valid()
      modifies this
      ensures Valid()
      ensures granted <==> MayGrant(old(View()), c, now)
      ensures granted <==>
              && !old(View()).occupied.At(c) && now - old(View()).lastUsed.At(c) >= 2.0
              && (c == 1 || c == 3 ==> !old(View()).occupied.c2 && !old(View()).occupied.c4)
              && (c == 2 || c == 4 ==> !old(View()).occupied.c1 && !old(View()).occupied.c3)
      ensures View() == if granted then Reserve(old(View()), c) else old(View())
    {
      if occupied[c] {
        return false;
      }
      if now - lastUsed[c] < MIN_INTERVAL {
        return false;
      }
      var adjacent := Neighbours(c);
      for i := 0 to |adjacent|
        invariant Valid() && View() == old(View())
        invariant forall k :: 0 <= k < i ==> !occupied[adjacent[k]]
      {
        if occupied[adjacent[i]] {
          assert Adjacent(c, adjacent[i]);
          FreeAroundMeansAdjacentFree(View(), c);
          return false;
        }
      }
      FreeAroundMeansAdjacentFree(View(), c);
      occupied := occupied[c := true];
      granted := true;
    }

    method ReleaseCorner(c: CornerId, now: real)
      requires Valid()
      modifies this
      ensures Valid() && View() == Release(old(View()), c, now)
      ensures View().occupied == old(View()).occupied.With(c, false) && View().waiting == old(View()).waiting
      ensures View().lastUsed == old(View()).lastUsed.With(c, now)
    {
      occupied := occupied[c := false];
      lastUsed := lastUsed[c := now];
    }

    method SetHandshakeWait(c: CornerId)
      requires Valid()
      modifies this
      ensures Valid() && View() == SetWait(old(View()), c, true)
    {
      waiting := waiting[c := true];
    }

    method ClearHandshakeWait(c: CornerId)
      requires Valid()
      modifies this
      ensures Valid() && View() == SetWait(old(View()), c, false)
    {
      waiting := waiting[c := false];
    }

    method IsConveyorSafeToStop(motor: int) returns (safe: bool)
      requires Valid()
      ensures safe <==> SafeToStop(View(), motor)
      ensures safe <==> (motor == 1 ==> !View().waiting.c2) && (motor == 2 ==> !View().waiting.c4)
    {
      if motor == 1 {
        if waiting[2] {
          return false;
        }
      } else if motor == 2 {
        if waiting[4] {
          return false;
        }
      }
      safe := true;
    }
  }
}
