# Frigate OCR recognizer: the per-message decision pipeline

The recognizer listens to the event messages of a Frigate NVR. For each
message it decides whether a license plate should be read, reads it with an
OCR engine, and reports the text back: as a sublabel on the event, as a row
in its `plates` table, and as a message on an MQTT return topic. This project
models that decision pipeline, `on_message` in `index.py` and the functions it
calls, and proves what it does.

- `Frigate` (frigate.dfy): the configuration, the `before`/`after` event
  snapshots, the answers of the services the handler calls (snapshot fetched
  or not, text read or not), and the Python exceptions the handler can raise.
- `Admission` (admission.dfy): `check_invalid_event` with the zone/camera
  conjunction, the label allow-list and the redundant-refinement guard;
  `has_common_value`; the Frigate+ license-plate attribute filter and its
  validity check.
- `Recognition` (recognition.dfy): the watch-list check, `ocr_recognizer`
  and `get_ocr` with its minimum-score gate.
- `Dispatch` (dispatch.dfy): the sublabel (`OCR:` + upper-cased text cut to
  20 characters), its JSON body, and the return-topic message.
- `Pipeline` (pipeline.dfy): `Handle`, the whole of `on_message` as a function
  from the state (`first_message`, `CURRENT_EVENTS`, the event ids in the
  table) and one message to the next state, the external calls made and how
  the call ended; `Run` over a sequence of messages; and the lemmas.
- `Handler` (handler.dfy): the class `Recognizer` whose fields are that state
  and whose `OnMessage` updates them in place, proved equal to `Handle`, with
  the attempt-budget invariant as its `Valid()`.
- `Text` (text.dfy), `Wrappers` (wrappers.dfy): case conversion; Option and Result.

Several statements of `index.py` raise as written. The model makes each one
an outcome `Raised(fault)`, with the state as it was when the exception left
`on_message`:

- `del CURRENT_EVENTS[id]` (index.py:390) for an `end` message whose snapshot
  is missing: the id was removed at line 372 and is not re-inserted at 384,
  so the delete raises KeyError (`KeyErrorUntracked`).
- `check_watched_ocr` reads the undefined `config_ocr_plates` (index.py:119),
  so any non-empty `watched_ocr` raises NameError before the membership test
  runs (`NameErrorWatchList`). Its fall-through return of None after line 125
  is therefore never reached.
- `ocr_recognizer` reads the undefined `ocr_score` (index.py:109); the branch
  needs a watched hit, which the watch-list check never returns.
- `get_ocr` reads the undefined `plate_score` (index.py:333) whenever
  `min_score` is set and non-zero (`NameErrorPlateScore`).
- `ocr_recognizer` always sets the score to None (index.py:103), and the
  `score` column is `NOT NULL` (index.py:429). So every insert of
  `store_plate_in_db` fails (`StoreRejected`), and no message ever adds a row
  (`Pipeline.NothingIsEverRecorded`). The sublabel post and the return-topic
  message that follow the insert are modelled but cannot be reached.
- `save_image` is called with the keyword `plate_number` (index.py:419), but
  its parameter is `ocr_text` (index.py:161): the call raises TypeError
  (`TypeErrorKeyword`).
- `is_valid_license_plate` outside Frigate+ mode calls `any(None)`
  (index.py:294) and raises TypeError. The function is only called from
  commented-out code (index.py:380-382).

Other behaviour of `index.py` that a reader might not expect, and that the
model keeps:

- `set_sublabel` cuts the text to 20 characters, following the comment at
  index.py:66 that Frigate limits sublabels to 20 characters, and only then
  prefixes `OCR:` (index.py:67-70). The sublabel sent can therefore be 24
  characters long.
- With `max_attempts` N > 0 an event is refused only once its count exceeds N
  (index.py:394-396), so the OCR engine can run N + 1 times per tracking
  period. An `end` message is never counted: its id was removed at
  index.py:372 and is not re-inserted at index.py:384, so it fails the test at
  index.py:394. A missing snapshot removes the id and with it the count
  (index.py:389-391).
- An `end` message removes its id from `CURRENT_EVENTS` (index.py:370-372)
  before `check_invalid_event` runs, so the redundant-refinement guard never
  sees it as tracked.
- The count goes up before `get_ocr`, also when no `ocr_recognizer` is
  configured (index.py:398-400).
- The stored plate is the watched text or the raw reading as returned by the
  engine (index.py:405-409); only the sublabel and the return-topic message
  upper-case it.
- Exceptions are not caught inside `on_message`: the first one ends it.

## Model

| member | source | states |
|---|---|---|
| `Admission.HasCommonValue` | index.py:158-159 | true exactly when some value of the first list occurs in the second |
| `Admission.ValidObjects` | index.py:238 | the configured `objects`, or `car`, `motorcycle`, `bus` when the option is absent |
| `Admission.IsInvalidEvent` | index.py:224-247 | a message is admitted iff (no zones, or a configured zone is current) and (no cameras, or its camera is configured) and its label is allowed and not (equal top scores, id tracked, Frigate+ off) |
| `Admission.DefaultsAdmitNewCarScore` | index.py:226-241 | with no zone, camera or object option, a car with a changed top score is admitted |
| `Admission.UntrackedIsNotRedundant` | index.py:244-246 | for an untracked id, equal top scores do not change the admission decision |
| `Admission.PlateAttributes` | index.py:267 | keeps exactly the attributes labelled `license_plate`, in their order in `current_attributes` (a subsequence of it) |
| `Admission.PlateAttributesCounts` | index.py:267 | each license-plate attribute occurs as many times as in `current_attributes`, every other attribute not at all |
| `Admission.FirstPlate` | index.py:267 | the first kept attribute is the first attribute labelled `license_plate` |
| `Admission.LicensePlateAttributes` | index.py:264-270 | None unless Frigate+ mode is on; otherwise the license-plate attributes of `current_attributes`, in order and with their multiplicity |
| `Admission.IsValidLicensePlate` | index.py:291-304 | raises TypeError outside Frigate+ mode; never true without a license-plate attribute, and true only when one reaches `license_plate_min_score` |
| `Admission.ValidPlateIsFirstPlateAboveMinimum` | index.py:291-304 | true iff Frigate+ mode is on and the first license-plate attribute reaches `license_plate_min_score` |
| `Recognition.LowerAll` | index.py:119 | every watch-list entry lower-cased, in order: the comprehension as intended over `watched_ocr`; as written it reads the undefined `config_ocr_plates`, so `Handle` never reaches it |
| `Recognition.WatchedMatch` | index.py:119-122 | the lower-cased text equals some lower-cased watch-list entry; the intended test, unreachable as written because line 119 raises first |
| `Recognition.WatchedMatchIgnoresCase` | index.py:119-122 | upper-casing the text does not change whether it is watched |
| `Recognition.CheckWatchedOcr` | index.py:113-125 | three Nones for an empty watch list, NameError for any other |
| `Recognition.Recognize` | index.py:102-111 | returns the engine's text with no score, watched text or fuzzy score, and fails exactly when a watch list is configured, with the NameError of line 119 |
| `Recognition.GetOcr` | index.py:320-339 | nothing without `ocr_recognizer`; NameError with a watch list or a non-zero `min_score`; otherwise the text, and never a score, watched text or fuzzy score |
| `Dispatch.Sublabel` | index.py:66-70 | starts with `OCR:`, has at most 24 characters, no lower-case letter after the prefix, and matches the first 20 characters of the text up to case |
| `Dispatch.SublabelIgnoresCase` | index.py:66-70 | upper-cased input gives the same sublabel |
| `Dispatch.SublabelPayload` | index.py:73 | the body is the single key `subLabel` holding the sublabel |
| `Dispatch.ReturnMessage` | index.py:127-156 | nothing without `return_topic`; topic `main/return`; seven keys with the upper-cased watched text, the upper-cased reading as `original_plate` and the fuzzy score, else five keys with the upper-cased reading; event id, camera, score and start time as given |
| `Dispatch.ReturnMessageSize` | index.py:131-148 | the message has 7 keys with a watched text and 5 without |
| `Pipeline.PlateOf` | index.py:405-409 | the plate stored and posted is the watched text when one is present, else the raw reading |
| `Pipeline.Conclude` | index.py:400-420 | after the fetch, the engine runs iff configured; the tracked events and the table are unchanged, and the call never ends as skipped |
| `Pipeline.Handle` | index.py:354-420 | every message clears the flag, changes no entry of `CURRENT_EVENTS` but its own id, adds at most its own id to the table, and fetches the snapshot before any other call |
| `Pipeline.Start` | index.py:27-41 | a new process has the flag set, no tracked event, and the existing table |
| `Pipeline.FlagClearedAfterOneMessage` | index.py:216-222 | every message leaves the flag cleared; a message is dropped as first iff the flag was set, and then only the flag changes |
| `Pipeline.NoLaterFirstMessage` | index.py:355-356 | once the flag is cleared, no message of a run is dropped as the first |
| `Pipeline.ExactlyOneMessageDropped` | index.py:216-222 | in a fresh process exactly the first message is dropped, with no call and no other change |
| `Pipeline.RejectedMessageHasNoEffect` | index.py:370-375 | a rejected message makes no call and changes nothing but the removal of an ended id |
| `Pipeline.RecordedEventShortCircuits` | index.py:377-378 | an event in the table is skipped before tracking, snapshot fetch or OCR |
| `Pipeline.InsertOnlyForUnrecordedId` | index.py:400-408 | an insert is attempted only for the message's own id and only when the table lacks it |
| `Pipeline.NothingIsEverRecorded` | index.py:341-352 | the table never changes, and a message that attempts an insert always ends with the insert rejected |
| `Pipeline.RunNeverRecords` | index.py:354-420 | over any run of messages the table stays as it was |
| `Pipeline.EndUntracks` | index.py:370-372 | after an `end` message its id is untracked and was not refused for budget |
| `Pipeline.EndWithoutSnapshotRaises` | index.py:387-391 | an admitted `end` message without a snapshot raises KeyError after one fetch |
| `Pipeline.TrackedSnapshotMissingResets` | index.py:386-391 | a tracked, admitted, non-end event whose snapshot is missing is skipped after one fetch and its id is deleted from `CURRENT_EVENTS`, dropping its count |
| `Pipeline.NewEventLifecycle` | index.py:384-391 | a new admitted event is tracked with count 1 after a fetched snapshot, and is untracked again when the snapshot is missing |
| `Pipeline.HandleKeepsBudget` | index.py:394-398 | with `max_attempts` N > 0 a message keeps every count at most N + 1 |
| `Pipeline.RunKeepsBudget` | index.py:394-398 | the bound N + 1 holds after every message of a run |
| `Pipeline.AttemptBudget` | index.py:394-398 | a tracked id is refused iff N > 0 and its count exceeds N, with nothing changed; otherwise its count goes up by one and the engine runs iff configured |
| `Pipeline.EndSkipsBudget` | index.py:394-398 | an `end` message past the fetch runs the engine whenever it is configured |
| `Pipeline.RepeatedScoreSkipped` | index.py:244-246 | a tracked, non-end refinement with an unchanged top score is dropped with no call and no change, unless Frigate+ is on |
| `Pipeline.SameScoreStep` | index.py:244-246 | such a refinement keeps a tracked id tracked without OCR, and an OCR run leaves the id tracked |
| `Pipeline.SameScoreRunsOcrAtMostOnce` | index.py:244-246 | refinements of one event that never change its top score run the OCR engine at most once, and never once it is tracked |
| `Handler.Recognizer.constructor` | index.py:25-41 | a started process: flag set, nothing tracked, the table as found |
| `Handler.Recognizer.CheckFirstMessage` | index.py:216-222 | returns the old flag and clears it |
| `Handler.Recognizer.IsDuplicateEvent` | index.py:306-318 | true iff the table holds the event id |
| `Handler.Recognizer.StorePlate` | index.py:341-352 | adds the id iff a score is given and the id has no row (NOT NULL and UNIQUE), else leaves the table |
| `Handler.Recognizer.OnMessage` | index.py:354-420 | the new state, outcome and calls are those of `Pipeline.Handle`, and the attempt budget invariant is kept |
| `Text.Upper` | index.py:70 | same length, each letter upper-cased |
| `Text.Lower` | index.py:119-122 | same length, each letter lower-cased |

## Left out

- The MQTT client: connecting, subscribing, reconnecting forever and the
  publishing transport (index.py:44-59, 447-466). Publishing is recorded as a
  `Publish` call.
- What the MQTT client does with an exception raised by `on_message`:
  `Handle` ends with `Raised(fault)` and the state at that point.
- Pipeline.Run: hands the next message the state left by a message that
  raised, as if the MQTT client caught the exception and the process kept its
  globals. `on_message` (index.py:354-420) catches nothing; if the exception
  instead ends `loop_forever` and the process is restarted, `first_message`
  is True and `CURRENT_EVENTS` empty again. `NoLaterFirstMessage`,
  `ExactlyOneMessageDropped`, `RunKeepsBudget`, `RunNeverRecords` and
  `SameScoreRunsOcrAtMostOnce` hold for a process that survives its
  exceptions.
- The EasyOCR and PyTorch inference and GPU cleanup (index.py:85-100): the
  engine's reading is an input. `readtext` returns a list of strings; the model
  takes one text, or None when the list is empty, and leaves out how
  `str(list)` renders and that SQLite cannot bind a list.
- The HTTP calls (sublabel POST, snapshot GET, final-data GET;
  index.py:75-83, 249-262, 272-288): only whether the snapshot came back is an
  input. `get_final_data` feeds only the image drawing and is not modelled.
- SQLite connections and schema creation (index.py:306-312, 341-352,
  422-436): the table is the set of its `frigate_event` values.
- Image drawing and saving in `save_image` (index.py:161-214): the call
  raises before its body runs, so nothing of it is reachable.
- The percentage formatting of the score (index.py:77), the start-time
  formatting (index.py:402-403) and clock reads: `Snapshot.startTime` stands
  for the formatted start time.
- Configuration loading, directory creation and logging (index.py:438-488).
- Fuzzy similarity scoring: no `difflib` call exists in the code, so only
  the empty-list short-circuit and the membership test are modelled.
- Messages missing `before`, `after` or one of their keys (the KeyErrors of
  the dictionary lookups) and YAML options given as null.
- Text.Upper: handles ASCII letters only. Python's `str.upper` also maps other
  letters and can lengthen a string ('ß' becomes 'SS'), so the 24-character
  bound of `Dispatch.Sublabel` holds for ASCII text.
- Text.Lower: handles ASCII letters only, like `Text.Upper`; Python's
  `str.lower` also maps other letters.
- Recognition.WatchedMatch: compares the texts under ASCII-only case folding.
  Python's `str.lower` maps every cased letter, and `'ß'.upper().lower()` is
  `'ss'`, so for non-ASCII text the Python comparison can differ.
- Recognition.WatchedMatchIgnoresCase: holds for the ASCII case folding of
  `Text`; it does not hold in Python for every string, as `'ß'` shows.
- Dispatch.SublabelIgnoresCase: holds for the ASCII case mapping of `Text`. In
  Python, 20 times `'ß'` gives `'OCR:'` and 40 `'S'`, while its upper-cased
  form, 40 `'S'`, is cut to 20 and gives `'OCR:'` and 20 `'S'`.
