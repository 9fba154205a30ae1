/** The mutable sensor reader: interrupt callback and polling loop body. */
module SensorRead {
  import opened Basics
  import opened Queues
  import opened Sensors

  function LevelOf(prev: Option<Poll>, i: nat): Option<bool>
    requires i < 10
  {
    if prev.None? then None else Some(prev.value[i].level)
  }

  /** The first `k` levels are those of this poll, the others those of the previous one. */
  ghost predicate HalfPolled(state: map<int, Option<bool>>, prev: Option<Poll>, poll: Poll, k: nat) {
    forall i: nat :: i < 10 ==> i in state && state[i] == if i < k then Some(poll[i].level) else LevelOf(prev, i)
  }

  lemma OneMorePolled(state: map<int, Option<bool>>, prev: Option<Poll>, poll: Poll, k: nat)
    requires k < 10 && HalfPolled(state, prev, poll, k)
    ensures k in state && (state[k] == Some(false) <==> WasLow(prev, k))
    ensures HalfPolled(state[k := Some(poll[k].level)], prev, poll, k + 1)
  {
  }

  lemma PollBegins(state: map<int, Option<bool>>, prev: Option<Poll>, poll: Poll)
    requires forall i: nat :: i < 10 ==> i in state && state[i] == LevelOf(prev, i)
    ensures HalfPolled(state, prev, poll, 0)
  {
  }

  lemma PollEnds(state: map<int, Option<bool>>, prev: Option<Poll>, poll: Poll)
    requires HalfPolled(state, prev, poll, 10)
    ensures forall i: nat :: i < 10 ==> i in state && state[i] == LevelOf(Some(poll), i)
  {
  }

  class SensorReader {
    const gpioQueue: EventQueue<SensorEvent>
    const mcpQueue: EventQueue<SensorEvent>
    var lastTriggerTime: map<int, real>
    /** Keyed by the polling position of the input, which stands for its name. */
    var mcpPrevState: map<int, Option<bool>>

    /** The dictionary of previous levels holds either no level yet or the last poll. */
    ghost predicate Remembers(prev: Option<Poll>)
      reads this
    {
      forall i: nat :: i < 10 ==> i in mcpPrevState && mcpPrevState[i] == LevelOf(prev, i)
    }

    constructor (gpioQueue: EventQueue<SensorEvent>, mcpQueue: EventQueue<SensorEvent>)
      ensures this.gpioQueue == gpioQueue && this.mcpQueue == mcpQueue
      ensures lastTriggerTime == map[] && Remembers(None)
    {
      this.gpioQueue, this.mcpQueue := gpioQueue, mcpQueue;
      lastTriggerTime := map[];
      mcpPrevState := map[0 := None, 1 := None, 2 := None, 3 := None, 4 := None,
                          5 := None, 6 := None, 7 := None, 8 := None, 9 := None];
    }

    method GpioCallback(channel: int, now: real)
      modifies this`lastTriggerTime, gpioQueue
      ensures Reader(lastTriggerTime, gpioQueue.items)
              == OnTrigger(old(Reader(lastTriggerTime, gpioQueue.items)), Trigger(channel, now), gpioQueue.capacity)
    {
      var last := if channel in lastTriggerTime then lastTriggerTime[channel] else 0.0;
      if now - last < DEBOUNCE {
        return;
      }
      lastTriggerTime := lastTriggerTime[channel := now];
      var events := GetBarriersForPin(channel, now);
      for i := 0 to |events|
        invariant lastTriggerTime == old(lastTriggerTime)[channel := now]
        invariant gpioQueue.items == PutAll(old(gpioQueue.items), events[..i], gpioQueue.capacity)
      {
        assert Front(events[..i + 1]) == events[..i] && Last(events[..i + 1]) == events[i];
        var ok := gpioQueue.PutNowait(events[i]);
      }
      assert events[..|events|] == events;
    }

    method GetBarriersForPin(channel: int, now: real) returns (events: seq<SensorEvent>)
      ensures events == PinEvents(channel, now)
    {
      events := [];
      if channel in GPIO_TO_BARRIER {
        var barrier := GPIO_TO_BARRIER[channel];
        events := events + [SensorEvent(now, barrier, Lookup(BARRIER_TO_PLACE, barrier))];
      }
      if channel == 22 {
        events := events + [SensorEvent(now, CornerPos(4), AtCorner(4))];
      } else if channel == 13 {
        events := events + [SensorEvent(now, CornerPos(2), AtCorner(2))];
      }
    }

    /** One pass of the polling loop over all expander inputs. */
    method PollOnce(poll: Poll, ghost prev: Option<Poll>)
      requires Remembers(prev)
      modifies this`mcpPrevState, mcpQueue
      ensures Remembers(Some(poll))
      ensures mcpQueue.items == PutAll(old(mcpQueue.items), Edges(prev, poll, 10), mcpQueue.capacity)
    {
      assert Edges(prev, poll, 0) == [] && PutAll(mcpQueue.items, [], mcpQueue.capacity) == mcpQueue.items;
      hide Edges, PutAll, McpEvent, HalfPolled, WasLow;
      PollBegins(mcpPrevState, prev, poll);
      for i := 0 to 10
        invariant HalfPolled(mcpPrevState, prev, poll, i)
        invariant mcpQueue.items == PutAll(old(mcpQueue.items), Edges(prev, poll, i), mcpQueue.capacity)
      {
        OneMorePolled(mcpPrevState, prev, poll, i);
        EdgesNext(prev, poll, i);
        var current := poll[i].level;
        var previous := mcpPrevState[i];
        if previous == Some(false) && current {
          PutAllAppend(old(mcpQueue.items), Edges(prev, poll, i), McpEvent(i, poll[i].stamp), mcpQueue.capacity);
          var ok := mcpQueue.PutNowait(McpEvent(i, poll[i].stamp));
        }
        mcpPrevState := mcpPrevState[i := Some(current)];
      }
      PollEnds(mcpPrevState, prev, poll);
    }
  }
}
