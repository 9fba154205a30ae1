# A verified model of the two-station loop controller

Two processing stations and four corner pushers move parts round a closed loop. Six event-driven
state machines (`StationController`, `CornerController`) share a table of corner reservations
(`CollisionManager`), eight motors and one event logger (`DataLogger`). Light barriers, limit
switches and NFC readers fill three bounded queues; a consumer thread (`CEPConsumer`) fuses entry
triggers with NFC reads inside a time window and hands the result to the state machines, while
timer threads call back into them.

The project models that system as one composed step system and proves what every run of it keeps.

## How it is built

Each mutable object of the program is a class whose methods change its fields as the program does.
Beside each class stands a specification on values. Every method promises that the object's view
after the call is the specification applied to its view before (`View() == Step(old(View()))`); the
theorems are about the specification and hold for arbitrary sequences of steps.

| layer | modules, one file each |
|---|---|
| shared objects | `Basics`, `MotorControl`, `TimerPool`, `Collision`, `SharedState`, `Queues` |
| corners | `Corners` (specification), `CornerControl` (class), `CornerInvariant` |
| stations | `Stations` (specification), `StationControl` (class), `StationInvariant` |
| all state machines together | `Plant` (steps and runs), `PlantInvariant`, `CornerSteps`, `StationSteps` (what each step does), `Protocol`, `Timing`, `Durations`, `Overtaking`, `Admission`, `AsWired`, `LockLevel`, `SplitPush` |
| accounting | `Metrics` (incremental), `History` (plain meaning), `DataLog` (class), `StationMirror` |
| event fusion | `Fusion` (one pass), `CepRuns` (iterations and runs), `CepConsume` (class) |
| sensors | `Sensors` (specification), `SensorRead` (class) |
| the whole system | `System` (steps and runs), `Arrivals` (from the sensors to the state machines), `Reports` (from the consumer to the event log), `FsmTable`, `Manager` (classes) |

How to read the model:

- **Steps.** One event handler or one timer callback is one atomic step. Time is a real number; a
  step carries the two clock readings `t1` and `t2` that its handler can make, in that order.
  Theorems that need a clock that does not run backwards say so (`Forward`); the others hold for
  any clock. Which step comes next is arbitrary: any barrier may be delivered to any machine, and
  any live timer may fire at any moment, early or late, unless a theorem asks for less.
- **Timers.** A started timer gets an identity of its own and stays in the pool until it fires or is
  cancelled, so a second timer never hides a first one. "Exactly one live timer" is therefore a
  theorem and not a consequence of the representation.
- **Names.** Barriers, places, log units and activities are datatypes instead of strings:
  `StationEntry(1)` is S1_ENTRY, `CornerExt(2)` is CORNER2_EXT, `ConveyorStart(1)` is M1_START,
  `CornerUnit(3)` is C3. Dictionaries indexed by station or corner are viewed as `PerStation` and
  `PerCorner`. The key of `station_entry_times` is the pair of part and station.
- **The consumer's deliveries.** One turn of the consumer loop puts everything it sends into an
  outbox, in order; each delivery or report is then a step of its own, so that timers fire between
  two deliveries of one turn. The next turn starts only when the outbox is empty. The time at which
  a turn expires events is an input of the turn.
- **The system object.** `SystemManager` is split in two: `FsmMap` owns the table of state machines
  and the objects they share, `SystemManager` owns the queues, the sensor reader and the consumer.
  Every method of either is one step of the step system.
- **An unread tag** is the empty string, which the reader treats alike.

## What was found

- **One read can be fused twice.** The fusing pass does not skip a read that an earlier trigger of
  the same pass already took (`physical_system/cep_consumer.py:151-170`). Two entry triggers that
  match the same first read both take it, and the deletion by position then removes an unrelated
  read, or runs out of range and abandons the iteration. `DoubleMatchLosesRead` and
  `DoubleMatchAbandonsPass` give inputs. A pass is exact if and only if no two of its entry
  triggers have the same first match, and over whole runs the reads balance if and only if that
  never happens. Entry interrupts more than two windows apart at one place are enough, over whole
  runs of the system (`SpacedReportsNeverDoubleMatch`).
- **When an iteration is abandoned.** The deletion runs out of range if and only if some last stretch
  of the pending reads is picked by more triggers than it has reads (`PassCompletesIffEnoughReads`).
- **The counters cannot show the loss.** `total = fused + ghosts + pending` holds for reads even
  when a double match loses one. It fails, with the total too small, if and only if an iteration
  was abandoned (`ReadCountersBalance`).
- **What the bounded queues lose.** Every event of an accepted interrupt, every rising edge and
  every named read reaches the consumer, in order, if and only if none of them found its queue
  short of room (`QueuesLoseNothingIffRoom`).
- **As wired, pushes end.** The confirmation barriers S1_ENTRY, S2_ENTRY go to the stations and
  M1_START, M2_START to a conveyor that has no state machine, so no corner leaves
  WAITING_FOR_CONFIRMATION, nothing is released, and a run has at most two pushes. The corner
  theorems are proved for arbitrary deliveries, so they do not depend on this.
- **A jam is not a lock.** After a handshake timeout the code logs that the corner is locked, but it
  keeps waiting, and a late confirmation still retracts and releases it (`LateConfirmationReleases`).
- **`current_wip` is not the number of parts in the loop.** It grows at both stations and shrinks
  only at station 2: it equals the entries at station 1 plus one if station 2 is busy, and the clamp
  at zero never binds. For an arbitrary log it is that balance above its lowest point (`WipIsPlain`).
- **A nameless part is never logged out**: its exit is not logged, so the station stays busy for the
  logger. The logger mirrors the stations all along a run if and only if no exit timer fires for a
  nameless part (`LoggerMirrorsStations`). The reader threads queue no nameless part, so the wired
  system always mirrors.
- **Nothing queues at a station.** The repository's own README promises software queuing at an occupied
  station (`README.md:157`). An entry that reaches a busy station leaves no trace anywhere
  (`BusyStationDropsEntry`); a run logs every entry delivered if and only if each of them found
  its station idle (`EveryEntryLoggedIffIdle`).

## Model

| member | source | states |
|---|---|---|
| `Protocol.MutualExclusion` | physical_system/corner_controller.py:173-296 | In every reachable state: reserved iff extending, waiting or retracting iff a push is logged as open; motor 4 + c forward iff corner c extends, backward iff it retracts; of the motors of adjacent corners one stands still; reservations lie within {1,3} or {2,4} |
| `CornerSteps.CornerStepsExactly` | physical_system/corner_controller.py:102-308 | In every run every step does to a corner exactly what its state calls for: which barrier or timer takes it out of the state, and then its motor, conveyor, reservation, flag, timer with its due time, and log entry |
| `StationSteps.StationStepsExactly` | physical_system/station_controller.py:86-290 | In every run every step does to a station exactly what its state calls for: which barrier or timer takes it out of the state, and then its part, belt and direction, timer with its due time, and log entry |
| `StationSteps.OtherStepsExactly` | physical_system/cep_consumer.py:266-289 | A delivery to a place without a machine and a dead timer change nothing; a report appends its entry and no more |
| `StationSteps.RunBegins` | physical_system/corner_controller.py:31-87 | Every run begins with all machines idle, nothing reserved or logged, and motors 1 and 2 at conveyor speed |
| `PlantInvariant.StepKeeps` | physical_system/system_manager.py:151-158 | Every delivery, timer firing or report keeps the invariant of all six machines and their shared objects |
| `PlantInvariant.NoAdjacentMeans` | physical_system/collision_manager.py:91-104 | The diagonal form of the invariant is the same as "no two adjacent corners are reserved together" |
| `Protocol.TimerDiscipline` | physical_system/corner_controller.py:162-262 | Exact number of live timers of each kind: one approach or retry timer iff final approach or ready, one handshake timer iff the flag is set, one process timer iff processing, one exit timer iff exiting |
| `Protocol.CallbackFindsItsState` | physical_system/station_controller.py:211-290 | Callbacks check no state, yet every live timer, whenever it fires, finds the state it was started for |
| `Protocol.ConveyorsFollowCorners` | physical_system/corner_controller.py:298-308 | M1 runs exactly while corner 1 is idle, M2 exactly while corner 3 is idle |
| `Protocol.HandshakeKeepsConveyor` | physical_system/collision_manager.py:119-146 | No step of any run stops M1 while corner 2's handshake flag is set, nor M2 while corner 4's is |
| `Protocol.StationLogIsVisits` | physical_system/station_controller.py:124-290 | Each station's log is whole visits of one part each with refusals only between them, then a prefix as long as the state says; part set iff not idle; the motor's exact speed and direction in every state |
| `Admission.BusyStationDropsEntry` | physical_system/station_controller.py:86-193 | In every run an entry with a part is logged and becomes the current part of an idle station, and at any other leaves the whole plant unchanged |
| `Admission.EntriesAreLoggedOrLost` | physical_system/station_controller.py:124-193 | The entries logged and those that found the station busy are together the entries delivered |
| `Admission.EveryEntryLoggedIffIdle` | physical_system/station_controller.py:124-193 | A run logs every entry delivered iff each of them found its station idle |
| `Protocol.OnlyConfirmationEndsWaiting` | physical_system/corner_controller.py:238-262 | In every run a waiting corner, handshake lapsed or not, is left waiting and reserved by every step except the delivery of its confirmation, which makes it retract |
| `Protocol.LateConfirmationReleases` | physical_system/corner_controller.py:255-296 | A confirmation after any delay and then, after whatever other steps, the retracted switch bring a waiting corner back to idle and release it, so a jam does not lock it |
| `Timing.AdjacentBusyTimes` | physical_system/data_logger.py:200-209 | Under a forward clock the busy times of two adjacent corners, open intervals included, sum to at most the run time |
| `Timing.AdjacentUtilization` | physical_system/data_logger.py:248-255 | The utilisations reported for adjacent corners are not negative and sum to at most 100 % at any query |
| `Timing.TotalUtilization` | physical_system/data_logger.py:248-255 | All four corner utilisations sum to at most 200 % |
| `Timing.LogInOrder` | physical_system/data_logger.py:84-130 | Under a forward clock the log of any run is in time order and within the run |
| `Timing.StepEffect` | physical_system/collision_manager.py:53-89 | Seen from one corner a step is a grant after the re-use interval, a release, or nothing |
| `Timing.RunPushSpaced` | physical_system/corner_controller.py:181-206 | Over every run the pushes of a corner are at least the re-use interval apart and precede its last release when it is free |
| `Timing.GrantsInWindow` | physical_system/collision_manager.py:60-89 | Any closed window of length T holds at most 1 + floor(T/2) push starts of one corner |
| `Durations.TimersRunTheirDelay` | physical_system/corner_controller.py:162-230 | In every step of a run each timer is either an old one, unchanged, or new and due exactly its own delay after one of the two clock readings of the step |
| `Durations.ProcessingTakesItsTime` | physical_system/station_controller.py:211-235 | If no timer fires early, each PROCESS_END comes at least the station's process time after the PROCESS_START before it |
| `Durations.FiringTakesItsDelay` | physical_system/corner_controller.py:162-230 | A punctual timer of any kind fires no earlier than its delay after any step before which none of its kind was running |
| `Durations.ApproachTakesItsTime` | physical_system/corner_controller.py:160-179 | If no timer fires early, a final approach ends at least its delay after any step that found the corner idle |
| `Durations.HandshakeTakesItsTime` | physical_system/corner_controller.py:219-262 | A jam is reported at least the handshake timeout after any step that found the pusher extending |
| `Durations.ExitTakesItsTime` | physical_system/station_controller.py:237-290 | A part leaves at least a second after any step that found it advancing to the exit |
| `Overtaking.BoundedOvertaking` | physical_system/corner_controller.py:181-189 | With retries less than 2.0 s apart, a ready corner past its own interval is granted before the neighbour just released is granted again, as long as its other neighbour stays free |
| `LockLevel.LockExcludes` | physical_system/collision_manager.py:53-104 | Requests, releases and flags interleaved in any way by any callers never reserve two adjacent corners |
| `LockLevel.LockGrantsExactly` | physical_system/collision_manager.py:53-89 | A request is granted iff the corner is free, was last used two seconds ago or more, and both neighbours are free; only freeing it ends the reservation |
| `LockLevel.GrantsAreSpaced` | physical_system/collision_manager.py:60-89 | At the level of the lock, with ordered clock readings, grants of a corner are 2.0 s apart and precede its last release |
| `LockLevel.LockGrantsInWindow` | physical_system/collision_manager.py:60-89 | The window bound of 1 + floor(T/2) for arbitrary callers of the table |
| `SplitPush.AskThenExtend` | physical_system/corner_controller.py:181-206 | Asking for the corner and extending, done one after the other, are the push attempt of the atomic model |
| `SplitPush.FreeThenRestart` | physical_system/corner_controller.py:271-308 | Releasing and becoming idle, done one after the other, are the end of a retraction of the atomic model |
| `SplitPush.SplitMutualExclusion` | physical_system/corner_controller.py:181-308 | With other threads running between those halves, a pusher moves only while its corner is reserved, adjacent corners are never reserved together and adjacent pushers never move together |
| `AsWired.WiredCornersOnlyAdvance` | physical_system/sensor_reader.py:53-92 | With events as the tables place them no step brings a corner back, retracts it or releases it |
| `AsWired.WiredRunPushesAtMostTwice` | physical_system/corner_controller.py:238-253 | As wired, any run logs at most one push per corner and at most two in all |
| `AsWired.TwoPushesAreReached` | physical_system/corner_controller.py:143-206 | A wired run with a forward clock in which corners 1 and 3 both push: the bound of two is reached |
| `AsWired.ConfirmationIsElsewhere` | physical_system/corner_controller.py:67-72 | No event that the tables send to a corner is that corner's confirmation |
| `AsWired.NoEntryIsRefused` | physical_system/station_controller.py:135-143 | If entries carry a part, ERROR_NO_PART_ID is never logged in any run |
| `Fusion.FirstMatch` | physical_system/cep_consumer.py:151-170 | The inner loop finds the first matching read, or none exists |
| `Fusion.MatchIsNear` | physical_system/cep_consumer.py:183-210 | A trigger and a read match iff the read is of the trigger's station and their times differ by no more than the window |
| `Fusion.DeleteEachFilters` | physical_system/cep_consumer.py:172-176 | Deleting distinct positions from the back leaves exactly the other elements in order |
| `Fusion.PassExactIffNoDoubleMatch` | physical_system/cep_consumer.py:134-176 | A pass completes and leaves exactly the unpicked reads if and only if no two entry triggers share their first match |
| `Fusion.PassIsGreedy` | physical_system/cep_consumer.py:134-176 | Without a double match the nested loops and reverse deletion are a greedy first-fit matching: same deliveries and parts, same survivors in order, same count |
| `Fusion.SpacingExcludesDoubleMatch` | physical_system/cep_consumer.py:183-210 | Entry triggers of one place more than two windows apart never share a read |
| `CepRuns.SpacedRunNeverDoubleMatches` | physical_system/cep_consumer.py:134-210 | If the entry triggers that ever come in at one place are more than two windows apart, no iteration of the run has a double match |
| `Fusion.DoubleMatchLosesRead` | physical_system/cep_consumer.py:151-176 | An input on which one read is delivered twice and the other station's read is lost |
| `CepRuns.DoubleMatchUnbalances` | physical_system/cep_consumer.py:99-176 | The same as a run: after one turn the reads do not balance |
| `Fusion.DoubleMatchAbandonsPass` | physical_system/cep_consumer.py:175-176 | An input on which the deletion runs out of range and the iteration is abandoned |
| `Fusion.DeleteEachCompletes` | physical_system/cep_consumer.py:172-176 | Deletion position after position stays in range iff the k-th position is below the length less k |
| `Fusion.PassCompletesIffEnoughReads` | physical_system/cep_consumer.py:146-176 | A pass completes iff, for every position i, at most as many triggers have their first match at i or later as there are reads from i on |
| `CepRuns.SensorEventsConserved` | physical_system/cep_consumer.py:99-176 | Over every run, failed passes included, consumed sensor events split exactly into delivered, fused, orphaned and pending; plain ones come out in the order consumed and are never orphaned; the counters are these cardinalities |
| `CepRuns.ReadsConserved` | physical_system/cep_consumer.py:118-264 | Without double matches consumed reads split exactly into fused, ghosts and pending, with the counters |
| `CepRuns.ReadsConservedExactly` | physical_system/cep_consumer.py:118-264 | For runs whose reads all differ, the reads balance if and only if no pass had a double match |
| `CepRuns.ReadCountersBalance` | physical_system/cep_consumer.py:61-67 | Over every run the reads that came in are at most fused plus ghosts plus pending, with equality iff every iteration had enough reads for its triggers, that is, iff none was abandoned |
| `CepRuns.IterationCompletesIffEnoughReads` | physical_system/cep_consumer.py:75-95 | An iteration reaches its expiry step iff its pass has enough reads; otherwise the exception handler takes over |
| `CepRuns.IterationLeavesUnmatched` | physical_system/cep_consumer.py:142-176 | After every iteration, abandoned or not, only entry triggers are pending and none matches a pending read |
| `CepRuns.CompletedIterationSettles` | physical_system/cep_consumer.py:80-87 | After an iteration with enough reads only unexpired entry triggers and unexpired reads are pending and no pair of them matches |
| `CepRuns.ExpiryIsExact` | physical_system/cep_consumer.py:212-264 | Of what a completed pass leaves over, exactly what is older than the expiry timeout is reported and exactly the rest stays pending |
| `CepRuns.PassLeavesUnmatched` | physical_system/cep_consumer.py:134-176 | What the pass leaves over of the triggers are exactly the entries without a read of their station within the window |
| `CepRuns.ReportedWereOld` | physical_system/cep_consumer.py:212-264 | In every run an orphan or a ghost was older than the expiry timeout in some turn of it |
| `CepRuns.MatchFusesAtOnce` | physical_system/cep_consumer.py:142-170 | A pending entry trigger is fused in the first iteration in which a matching read is pending, with the part of the first such read |
| `CepRuns.EntryFusesIffReadNear` | physical_system/cep_consumer.py:134-176 | An entry trigger is fused in an iteration iff a read of its station within the window is pending |
| `CepRuns.DeliveriesCarryParts` | physical_system/cep_consumer.py:142-160 | A delivery has a part iff it is S1_ENTRY or S2_ENTRY, and the part is that of a pending read of its station within the window |
| `CepConsume.CEPConsumer.RunOnce` | physical_system/cep_consumer.py:73-97 | One turn empties the queues and leaves lists, counters and everything sent as the iteration function says |
| `CepConsume.CEPConsumer.ConsumeEvents` | physical_system/cep_consumer.py:99-132 | The three draining loops append the queues in order and count them |
| `CepConsume.CEPConsumer.FuseEvents` | physical_system/cep_consumer.py:134-176 | The pass over the mutable lists is the fusing pass of the specification, including the failing case |
| `CepConsume.CEPConsumer.ExpireEvents` | physical_system/cep_consumer.py:212-264 | Exactly the events older than the expiry are reported, counted and removed, in order |
| `CepConsume.DeletePositions` | physical_system/cep_consumer.py:172-176 | Deleting position after position stops at the first one out of range |
| `History.BusyTimeIsBusyOver` | physical_system/data_logger.py:173-209 | The open flag and accumulated time equal the plain busy time of the whole log, for any log |
| `History.ExclusiveBusyTimes` | physical_system/data_logger.py:200-209 | Two units never busy together share the run time |
| `History.UtilizationIsPercentage` | physical_system/data_logger.py:218-255 | Every reported utilisation is between 0 and 100 % for any ordered log, duplicate entries and unmatched exits included |
| `History.RecentIsLastHour` | physical_system/data_logger.py:159-171 | The pruned event list is the filter of all events newer than the last hour |
| `History.RecentIsSurviving` | physical_system/data_logger.py:159-171 | For any log times, backward ones included, the pruned list is the entries that no later entry finds an hour old |
| `History.CyclesAreLastHundred` | physical_system/data_logger.py:181-193 | Each cycle-time list is the last min(100, n) cycle times of the whole log |
| `History.WipIsPlain` | physical_system/data_logger.py:173-196 | For any log `current_wip` is entries at both stations less exits at station 2, above the lowest value that balance ever had |
| `History.MaxWipIsRunningMaximum` | physical_system/data_logger.py:173-196 | `max_wip` bounds the plain work in progress at every moment of the log and was reached at one |
| `History.CountsAreExits` | physical_system/data_logger.py:150-157 | Station counts are the station's exits in the log |
| `DataLog.DataLogger.LogEvent` | physical_system/data_logger.py:84-130 | One call appends one entry, and every field stays what the whole log makes of it |
| `DataLog.DataLogger.UpdateRealtimeMetrics` | physical_system/data_logger.py:159-209 | The incremental update of windows, busy intervals, visits and work in progress |
| `DataLog.DataLogger.GetKpis` | physical_system/data_logger.py:211-277 | Every reported figure by what it means, for any log: throughput times run time is 3600 times the exits after the first minute; a mean times the number of the last hundred cycles is their sum; a utilisation times run time is 100 times the busy time; the event rate per minute of run time up to an hour; the plain work in progress and its reached maximum |
| `StationMirror.LoggerMirrorsStations` | physical_system/data_logger.py:173-198 | All along a run (busy iff not idle; open visits are the current parts; busy time is the sum of all cycle times; counts are the completed visits; wip is S1 entries plus one if station 2 is busy) iff no exit timer fires for a nameless part |
| `StationMirror.NamelessExitBreaks` | physical_system/station_controller.py:268-290 | From any mirrored state an exit timer that fires for a nameless part destroys the mirror at once |
| `StationMirror.NamedPartsExitNamed` | physical_system/nfc_reader.py:104 | Where every delivered part has a name no exit is nameless |
| `StationMirror.NamelessPartBreaksMirror` | physical_system/station_controller.py:268-290 | A run with a nameless part after which the station is idle and the logger still counts it busy |
| `Sensors.AcceptedAreDebounced` | physical_system/sensor_reader.py:165-178 | For any callback times, accepted triggers of a pin are increasing and a debounce apart |
| `Sensors.AcceptedExactly` | physical_system/sensor_reader.py:165-178 | A trigger is accepted iff it comes at least 0.05 s after the last accepted one of its pin |
| `Sensors.QueueHoldsAccepted` | physical_system/sensor_reader.py:159-215 | A queue that nobody empties holds exactly the barriers of the accepted triggers, in order, iff it has room for all of them |
| `Sensors.PinEvents` | physical_system/sensor_reader.py:194-215 | Pins 22 and 13 yield two events with one time, other wired pins one, all placed as the tables say |
| `Sensors.PinTable` | physical_system/sensor_reader.py:41-65 | The events of each of the eight pins, one by one, and of no other |
| `Sensors.McpTable` | physical_system/sensor_reader.py:67-92 | The event of each of the ten expander inputs |
| `Sensors.WiredPlaces` | physical_system/sensor_reader.py:53-92 | The tables place every barrier at the station, corner or conveyor in its name |
| `Sensors.PollingReportsRisingEdges` | physical_system/sensor_reader.py:245-290 | Each expander input reports exactly its rising edges between polls, once each and in order |
| `SensorRead.SensorReader.GpioCallback` | physical_system/sensor_reader.py:159-192 | The callback debounces and queues as the specification, dropping what does not fit |
| `SensorRead.SensorReader.PollOnce` | physical_system/sensor_reader.py:245-290 | One pass over the expander remembers all levels and queues the rising edges |
| `Collision.FreeAroundMeansAdjacentFree` | physical_system/collision_manager.py:91-104 | The fixed neighbour test is "every adjacent corner is free" |
| `Collision.CollisionManager.RequestCorner` | physical_system/collision_manager.py:53-79 | Granted iff free, past the interval and both neighbours free; only then reserved |
| `Collision.CollisionManager.ReleaseCorner` | physical_system/collision_manager.py:81-89 | Frees the corner and notes the time of use |
| `Collision.CollisionManager.IsConveyorSafeToStop` | physical_system/collision_manager.py:131-146 | Safe iff the corner fed across the conveyor is not waiting for its handshake |
| `CornerControl.CornerController.ProcessEvent` | physical_system/corner_controller.py:102-141 | Dispatch on the state changes corner and shared objects as the specification |
| `CornerControl.CornerController.TryPush` | physical_system/corner_controller.py:181-206 | Grant, log and extend, or start a retry timer |
| `CornerControl.CornerController.HandleIdle` | physical_system/corner_controller.py:143-166 | Arrival stops the feeding conveyor if safe and starts the approach timer |
| `CornerControl.CornerController.HandleExtending` | physical_system/corner_controller.py:211-231 | Limit switch, handshake flag and handshake timer |
| `CornerControl.CornerController.HandleWaitingForConfirmation` | physical_system/corner_controller.py:238-269 | Confirmation cancels the timer, clears the flag and retracts |
| `CornerControl.CornerController.HandleRetracting` | physical_system/corner_controller.py:271-296 | Logs completion, releases, restarts the conveyor, becomes idle |
| `CornerControl.CornerController.Wake` | physical_system/corner_controller.py:173-262 | The three timer callbacks |
| `StationControl.StationController.ProcessEvent` | physical_system/station_controller.py:86-122 | Dispatch on the state changes station and shared objects as the specification |
| `StationControl.StationController.HandleIdle` | physical_system/station_controller.py:124-162 | Entry with a part starts a visit, without one logs the error |
| `StationControl.StationController.HandleEntering` | physical_system/station_controller.py:164-217 | The process barrier stops the motor and starts the process timer |
| `StationControl.StationController.HandleAdvancingToExit` | physical_system/station_controller.py:237-258 | The exit barrier starts the exit timer with the barrier's time |
| `StationControl.StationController.Wake` | physical_system/station_controller.py:219-290 | The process and exit callbacks |
| `MotorControl.Clamp` | physical_system/motor_controller.py:80-128 | Speeds inside [-1, 1] are unchanged, higher ones become 1 and lower ones -1 |
| `MotorControl.MotorController.SetSpeed` | physical_system/motor_controller.py:80-128 | Writes one throttle; an invalid number changes nothing |
| `MotorControl.MotorController.StopAll` | physical_system/motor_controller.py:134-139 | All eight throttles are zero |
| `FsmTable.FsmMap.constructor` | physical_system/system_manager.py:104-158 | Builds all machines over one set of shared objects, in the start state of the step system |
| `FsmTable.FsmMap.Perform` | physical_system/cep_consumer.py:266-309 | Delivery through the table, timer firings and error reports are plant steps |
| `Manager.SystemManager.constructor` | physical_system/system_manager.py:54-176 | The wired object starts in the boot state of the system |
| `Manager.SystemManager.OnTurn` | physical_system/cep_consumer.py:73-97 | One turn of the consumer thread is a step of the system |
| `Manager.SystemManager.OnPass` | physical_system/cep_consumer.py:266-309 | One delivery or report is a step of the system |
| `Manager.SystemManager.OnScan` | physical_system/nfc_reader.py:94-128 | Only reads with a part are queued, and only while there is room |
| `System.SystemRunsPlant` | physical_system/system_manager.py:151-176 | The state machines inside a system run form a plant run, so every plant theorem applies |
| `System.SystemPushesAtMostTwice` | physical_system/system_manager.py:151-158 | From power-up, whatever sensors, readers and timers do, at most one push per corner and two in all |
| `System.SystemEntriesHaveParts` | physical_system/cep_consumer.py:142-160 | In the wired system no entry is refused and the logger mirrors both stations in full, without assumptions on the parts |
| `System.SystemRunsConsumer` | physical_system/cep_consumer.py:266-309 | The consumer inside a system run is a consumer run, and what it sends is handed over or still in the outbox, in order |
| `System.SystemConservesSensorEvents` | physical_system/cep_consumer.py:78-90 | Conservation and order of sensor events from the queues to the state machines in the wired system |
| `System.SystemConservesReads` | physical_system/cep_consumer.py:118-176 | Conservation of reads in the wired system without double matches |
| `Arrivals.QueuesLoseNothingIffRoom` | physical_system/sensor_reader.py:159-192 | Over system runs: what the consumer took from each queue followed by what is still in it is exactly, and in order, what accepted interrupts, rising edges and named reads stand for, iff none of them ever found too little room |
| `Arrivals.FloodOverflows` | physical_system/system_manager.py:56-58 | A run in which room does run short: a hundred accepted interrupts without a turn fill the queue and the next one is lost |
| `Arrivals.SystemConservesReports` | physical_system/cep_consumer.py:99-176 | From the sensors to the state machines: nothing is duplicated, and every event of an accepted interrupt and every rising edge is exactly once handed over, on its way, orphaned, pending or queued iff no queue was ever short of room |
| `Reports.SystemLogsReports` | physical_system/cep_consumer.py:212-264 | In every run of the wired system the orphan and ghost errors in the event log, followed by those on their way, are in order exactly the consumer's orphans and ghosts, each under the unit, part and activity the source gives it |
| `Arrivals.SystemDeliversRisingEdges` | physical_system/sensor_reader.py:245-290 | Every expander input's rising edges reach the state machines once each and in order, up to those still queued, iff the polling loop always found room |
| `Arrivals.SystemDeliversPinTriggers` | physical_system/sensor_reader.py:159-215 | While interrupts find room, the accepted triggers of each light barrier other than an entry reach the state machines once each and in order, up to those still queued |
| `Arrivals.SpacedReportsNeverDoubleMatch` | physical_system/cep_consumer.py:134-210 | Accepted entry interrupts of one place more than two windows apart rule out double matches in every turn of the system |
| `Arrivals.SystemConservesScans` | physical_system/nfc_reader.py:104-128 | With entry interrupts spaced like that, every named read is exactly once fused, a ghost, pending or queued iff the readers' queue always had room |
| `Arrivals.SystemConservesScansExactly` | physical_system/cep_consumer.py:118-264 | For runs whose named reads all differ, each is exactly once fused, a ghost, pending or queued iff the readers' queue always had room and no turn had a double match |

## Left out

- MQTT, InfluxDB, Grafana, CSV files, console output and log texts: plumbing. The event log is kept as a sequence of entries.
- The `tag` column of the event log with `_infer_tag`, and the InfluxDB cycle-time branch, whose key has always been deleted before it is looked up.
- Hardware setup, raw pin and tag reads, simulation mode and exceptions of hardware writes: inputs are arbitrary, motor writes succeed.
- Thread start, join and sleep, `stop()` and `cleanup()`: runs end before shutdown. The retry and exit timers that shutdown does not cancel are therefore not studied.
- Races inside a handler, between two threads that write the same field: handlers are atomic, except that a push attempt and the end of a retraction are also split at the lock of the reservation table (`SplitPush`).
- Rounding of floating-point numbers: times, speeds and durations are real numbers.
- Configuration loading, and configuration entries that the code stores but never uses.
- Physical positions of parts, the `Part` class and the status and monitoring printouts.
- The `current_time` argument that the matching test receives and does not use.
- Handlers that do nothing (`_handle_final_approach`, `_handle_ready_to_push`, `_handle_pushing`, `_handle_processing`, `_handle_exiting`, `_handle_advancing_to_process`) are the default branch of the dispatch.
- The state PUSHING is passed through inside one handler and so is never seen between steps.
- Arrivals.SystemConservesScans: asks for spaced entry interrupts, a condition on the sensors alone; the exact condition is in `SystemConservesScansExactly`.
- Arrivals.SystemConservesScansExactly: asks for reads that all differ, because the loss of one of two equal reads cannot be told from the loss of the other.
- Arrivals.SystemDeliversPinTriggers: leaves the entry barriers out, whose triggers may be fused, orphaned or pending; they are accounted for in `SystemConservesReports`.
- CepRuns.ReadsConservedExactly: asks for reads that all differ, because the loss of one of two equal reads cannot be told from the loss of the other; the direction from no double match is proved without it.
- CepConsume.CEPConsumer.RunOnce: sends into an outbox instead of calling the state machines, so that timers can fire between deliveries; the pending lists are updated before the deliveries are handed over, which no other thread can observe.
