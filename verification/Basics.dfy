/** Names shared by every component: identifiers, sensor events, log entries, configuration. */
module Basics {

  datatype Option<+T> = None | Some(value: T)

  type CornerId = c: int | 1 <= c <= 4 witness 1
  type StationId = n: int | 1 <= n <= 2 witness 1

  /** Light barriers and limit switches; `StationEntry(1)` stands for the name S1_ENTRY,
      `CornerExt(2)` for CORNER2_EXT, `ConveyorStart(1)` for M1_START, and so on. */
  datatype Barrier =
    | StationEntry(n: int)
    | StationProcess(n: int)
    | StationExit(n: int)
    | CornerPos(n: int)
    | CornerExt(n: int)
    | CornerRet(n: int)
    | ConveyorStart(n: int)

  /** The (location_type, location_id) pair of a sensor event. */
  datatype Place = AtStation(id: int) | AtCorner(id: int) | AtConveyor(id: int) | Nowhere

  datatype SensorEvent = SensorEvent(stamp: real, barrier: Barrier, place: Place)
  datatype NfcEvent = NfcEvent(stamp: real, station: int, part: string)

  /** What a state machine receives: a sensor event with the part fused onto it, if any. */
  datatype Delivery = Delivery(event: SensorEvent, part: Option<string>)

  /** The station column of the event log: S1, C3, or the free text of an orphan report. */
  datatype Unit = StationUnit(n: int) | CornerUnit(c: int) | PlaceUnit(place: Place)

  datatype Activity =
    | Enter
    | ProcessStart
    | ProcessEnd
    | Exit
    | ErrorNoPartId
    | PushStart
    | PushComplete
    | ErrorOrphan(barrier: Barrier)
    | ErrorGhostNfc

  /** The part that a log call names when none is known. */
  const UNKNOWN_PART := "UNKNOWN"

  datatype Entry = Entry(time: real, unit: Unit, part: string, activity: Activity)

  datatype Config = Config(
    conveyorSpeed: real,
    stationSpeed: real,
    cornerSpeed: real,
    processTime1: real,
    processTime2: real,
    finalDelay: real,
    handshakeTimeout: real)
  {
    predicate Valid() {
      0.0 < conveyorSpeed <= 1.0 && 0.0 < stationSpeed <= 1.0 && 0.0 < cornerSpeed <= 1.0
    }

    function ProcessTime(n: StationId): real {
      if n == 1 then processTime1 else processTime2
    }
  }

  /** One value for each of the two stations. */
  datatype PerStation<T> = PerStation(s1: T, s2: T) {
    function At(n: StationId): T {
      if n == 1 then s1 else s2
    }

    function With(n: StationId, x: T): PerStation<T> {
      if n == 1 then this.(s1 := x) else this.(s2 := x)
    }
  }

  /** One value for each of the four corners. */
  datatype PerCorner<T> = PerCorner(c1: T, c2: T, c3: T, c4: T) {
    function At(c: CornerId): T {
      if c == 1 then c1 else if c == 2 then c2 else if c == 3 then c3 else c4
    }

    function With(c: CornerId, x: T): PerCorner<T> {
      if c == 1 then this.(c1 := x)
      else if c == 2 then this.(c2 := x)
      else if c == 3 then this.(c3 := x)
      else this.(c4 := x)
    }
  }

  function Abs(x: real): real {
    if x < 0.0 then -x else x
  }

  /** Any two elements are at least `gap` apart, in order. */
  ghost predicate Spaced(ts: seq<real>, gap: real) {
    forall i, j :: 0 <= i < j < |ts| ==> ts[j] - ts[i] >= gap
  }

  /** A list without its last element, and that element. */
  function Front<T>(s: seq<T>): seq<T>
    requires s != []
  {
    s[..|s| - 1]
  }

  function Last<T>(s: seq<T>): T
    requires s != []
  {
    s[|s| - 1]
  }

  lemma AppendFront<T>(s: seq<T>, x: T)
    ensures Front(s + [x]) == s && Last(s + [x]) == x
  {
  }
}
