/** The values the recognizer reads: its configuration, the event messages
    the NVR publishes, and the answers of the services it calls. */
module Frigate {
  import opened Wrappers

  /** An entry of `current_attributes` (a sub-detection such as a license plate). */
  datatype Attribute = Attribute(labelText: string, score: real)

  /** One `before` or `after` snapshot of a tracked object (`labelText` is its
      `label`; `label` is a Dafny keyword). `topScore` is only
      ever compared for equality. `startTime` stands for the already formatted
      start time of the event. */
  datatype Snapshot = Snapshot(
    id: string,
    camera: string,
    labelText: string,
    topScore: real,
    currentZones: seq<string>,
    startTime: string,
    currentAttributes: seq<Attribute>)

  /** An event message: `type` is "new", "update" or "end" ("" when absent). */
  datatype Message = Message(kind: string, before: Snapshot, after: Snapshot)

  predicate IsEnd(m: Message) { m.kind == "end" }

  /** The `frigate` section of the configuration (plus the top-level
      `ocr_recognizer` switch). An empty list or an empty string is an option
      that is absent or empty; `objects` distinguishes absent (None) from an
      explicitly given list, as `get('objects', DEFAULT_OBJECTS)` does. */
  datatype Config = Config(
    zones: seq<string>,
    cameras: seq<string>,
    objects: Option<seq<string>>,
    frigatePlus: bool,
    maxAttempts: int,
    ocrRecognizer: bool,
    watchedOcr: seq<string>,
    minScore: Option<real>,
    licensePlateMinScore: real,
    alwaysSaveCleanSnapshot: bool,
    mainTopic: string,
    returnTopic: string)

  /** `DEFAULT_OBJECTS`. */
  const DEFAULT_OBJECTS: seq<string> := ["car", "motorcycle", "bus"]

  /** Results of the calls the handler cannot see into: whether the clean
      snapshot came back (HTTP 200 with content), and what the OCR engine read
      (None when it read nothing). */
  datatype Oracle = Oracle(snapshotReady: bool, ocrText: Option<string>)

  /** The Python exceptions the handler can raise, each named after its cause. */
  datatype Fault =
    | KeyErrorUntracked      // `del CURRENT_EVENTS[id]` for an id that is not tracked
    | NameErrorWatchList     // `config_ocr_plates` is not defined
    | NameErrorOcrScore      // `ocr_score` is not defined in `ocr_recognizer`
    | NameErrorPlateScore    // `plate_score` is not defined in `get_ocr`
    | StoreRejected          // the INSERT violates NOT NULL or UNIQUE
    | TypeErrorNoneIterable  // `any(None)`
    | TypeErrorKeyword       // `save_image(plate_number=...)`: no such parameter

  /** A JSON value of an outgoing message. */
  datatype Json = JStr(s: string) | JNum(n: real) | JNull

  /** Python truthiness of a string that may be None. */
  predicate Present(s: Option<string>) { s.Some? && s.value != "" }

  /** Python truthiness of a number that may be None. */
  predicate NonZero(x: Option<real>) { x.Some? && x.value != 0.0 }

  function NumberOrNull(x: Option<real>): (j: Json)
    ensures j.JNull? <==> x.None?
  {
    if x.Some? then JNum(x.value) else JNull
  }
}
