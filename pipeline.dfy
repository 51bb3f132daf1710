/** The per-message decision pipeline of `on_message`, as a function from the
    handler's state and one message to the next state, what the handler
    did, and how the call ended. */
module Pipeline {
  import opened Wrappers
  import opened Frigate
  import opened Admission
  import opened Recognition
  import opened Dispatch

  /** The handler's state: the one-shot `first_message` flag, the attempt
      counts of `CURRENT_EVENTS`, and the event ids of the `plates` table
      (unique on `frigate_event`). */
  datatype ProcessState = ProcessState(firstMessage: bool, currentEvents: map<string, nat>, recorded: set<string>)

  /** The state of a freshly started process over an existing table. */
  function Start(recorded: set<string>): (s: ProcessState)
    ensures s.firstMessage && s.currentEvents == map[] && s.recorded == recorded
  {
    ProcessState(true, map[], recorded)
  }

  /** The external calls a message triggers, in order. */
  datatype Call =
    | FetchSnapshot                                        // GET of the cropped clean snapshot
    | RunOcr                                               // the OCR engine reads the snapshot
    | InsertRecord(eventId: string, plate: string)         // INSERT into `plates`
    | PostSublabel(eventId: string, body: map<string, Json>)
    | Publish(publication: Publication)

  /** Why a message was dropped without error. */
  datatype SkipReason = FirstMessage | NotAdmitted | AlreadyRecorded | SnapshotMissing | AttemptsExhausted

  /** How `on_message` ended: an early return, a normal end, or an exception. */
  datatype Outcome = Skipped(reason: SkipReason) | Completed | Raised(fault: Fault)

  datatype Reaction = Reaction(next: ProcessState, outcome: Outcome, calls: seq<Call>)

  /** The text that is stored and posted: the watched text when there is one,
      the reading otherwise. */
  function PlateOf(reading: Reading, text: string): (plate: string)
    ensures Present(reading.watched) ==> plate == reading.watched.value
    ensures !Present(reading.watched) ==> plate == text
  {
    if Present(reading.watched) then reading.watched.value else text
  }

  /** Dispatch after the snapshot was fetched and the attempt counted:
      `get_ocr`, then storing, notifying and publishing a reading. */
  function Conclude(cfg: Config, s: ProcessState, after: Snapshot, ocrText: Option<string>): (r: Reaction)
    ensures r.next.firstMessage == s.firstMessage && r.next.currentEvents == s.currentEvents
    ensures r.next.recorded == s.recorded
    ensures |r.calls| > 0 && r.calls[0] == FetchSnapshot
    ensures RunOcr in r.calls <==> cfg.ocrRecognizer
    ensures !r.outcome.Skipped?
  {
    var read := [FetchSnapshot] + (if cfg.ocrRecognizer then [RunOcr] else []);
    match GetOcr(cfg, ocrText)
    case Failure(fault) => Reaction(s, Raised(fault), read)
    case Success(reading) =>
      match reading.text
      case None =>
        if cfg.alwaysSaveCleanSnapshot then Reaction(s, Raised(TypeErrorKeyword), read)
        else Reaction(s, Completed, read)
      case Some(text) =>
        var plate := PlateOf(reading, text);
        var stored := read + [InsertRecord(after.id, plate)];
        // `score TEXT NOT NULL` and `frigate_event TEXT NOT NULL UNIQUE`
        if reading.score.None? || after.id in s.recorded then Reaction(s, Raised(StoreRejected), stored)
        else
          var notified := stored + [PostSublabel(after.id, SublabelPayload(plate))];
          var published :=
            match ReturnMessage(cfg, text, reading.score, after.id, after.camera,
                                after.startTime, reading.watched, reading.fuzzy)
            case Some(p) => notified + [Publish(p)]
            case None => notified;
          // `save_image` is then called with a keyword it does not have
          Reaction(s.(recorded := s.recorded + {after.id}), Raised(TypeErrorKeyword), published)
  }

  /** `on_message` for one message `m`, given what the snapshot fetch and the
      OCR engine answer. */
  function Handle(cfg: Config, s: ProcessState, m: Message, o: Oracle): (r: Reaction)
    ensures !r.next.firstMessage
    ensures r.next.currentEvents - {m.after.id} == s.currentEvents - {m.after.id}
    ensures r.next.recorded - s.recorded <= {m.after.id}
    ensures r.calls == [] || r.calls[0] == FetchSnapshot
  {
    if s.firstMessage then Reaction(s.(firstMessage := false), Skipped(FirstMessage), [])
    else
      var id := m.after.id;
      var ended := if IsEnd(m) && id in s.currentEvents then s.currentEvents - {id} else s.currentEvents;
      if IsInvalidEvent(cfg, m.before, m.after, ended.Keys) then
        Reaction(s.(currentEvents := ended), Skipped(NotAdmitted), [])
      else if id in s.recorded then
        Reaction(s.(currentEvents := ended), Skipped(AlreadyRecorded), [])
      else
        var tracked := if !IsEnd(m) && id !in ended then ended[id := 0] else ended;
        if !o.snapshotReady then
          if id in tracked then Reaction(s.(currentEvents := tracked - {id}), Skipped(SnapshotMissing), [FetchSnapshot])
          else Reaction(s.(currentEvents := tracked), Raised(KeyErrorUntracked), [FetchSnapshot])
        else if id in tracked && cfg.maxAttempts > 0 && tracked[id] > cfg.maxAttempts then
          Reaction(s.(currentEvents := tracked), Skipped(AttemptsExhausted), [FetchSnapshot])
        else
          var counted := if id in tracked then tracked[id := tracked[id] + 1] else tracked;
          Conclude(cfg, s.(currentEvents := counted), m.after, o.ocrText)
  }

  /** The handler's state after each of a sequence of messages. */
  datatype Input = Input(message: Message, oracle: Oracle)

  function Run(cfg: Config, s: ProcessState, inputs: seq<Input>): (rs: seq<Reaction>)
    ensures |rs| == |inputs|
    decreases |inputs|
  {
    if inputs == [] then []
    else
      var r := Handle(cfg, s, inputs[0].message, inputs[0].oracle);
      [r] + Run(cfg, r.next, inputs[1..])
  }

  function Final(s: ProcessState, rs: seq<Reaction>): ProcessState
  {
    if rs == [] then s else rs[|rs| - 1].next
  }

  /** The number of reactions in which the OCR engine ran. */
  function OcrRuns(rs: seq<Reaction>): nat
  {
    if rs == [] then 0 else (if RunOcr in rs[0].calls then 1 else 0) + OcrRuns(rs[1..])
  }

  // ---------------------------------------------------------------------
  // The first-message guard

  /** Every message after the first finds the flag cleared. */
  lemma FlagClearedAfterOneMessage(cfg: Config, s: ProcessState, m: Message, o: Oracle)
    ensures !Handle(cfg, s, m, o).next.firstMessage
    ensures Handle(cfg, s, m, o).outcome == Skipped(FirstMessage) <==> s.firstMessage
    ensures s.firstMessage ==> Handle(cfg, s, m, o).next == s.(firstMessage := false)
  {
  }

  /** Once the flag is cleared, no message of a run is dropped as the first. */
  lemma {:induction false} NoLaterFirstMessage(cfg: Config, s: ProcessState, inputs: seq<Input>)
    requires !s.firstMessage
    ensures forall i :: 0 <= i < |inputs| ==> Run(cfg, s, inputs)[i].outcome != Skipped(FirstMessage)
    ensures forall i :: 0 <= i < |inputs| ==> !Run(cfg, s, inputs)[i].next.firstMessage
    decreases |inputs|
  {
    if inputs != [] {
      var r := Handle(cfg, s, inputs[0].message, inputs[0].oracle);
      FlagClearedAfterOneMessage(cfg, s, inputs[0].message, inputs[0].oracle);
      NoLaterFirstMessage(cfg, r.next, inputs[1..]);
      assert forall i :: 1 <= i < |inputs| ==> Run(cfg, s, inputs)[i] == Run(cfg, r.next, inputs[1..])[i - 1];
    }
  }

  /** Exactly one message per process is dropped by the first-message guard:
      the very first one, and it changes nothing but the flag. */
  lemma {:induction false} ExactlyOneMessageDropped(cfg: Config, recorded: set<string>, inputs: seq<Input>)
    requires inputs != []
    ensures Run(cfg, Start(recorded), inputs)[0] == Reaction(Start(recorded).(firstMessage := false), Skipped(FirstMessage), [])
    ensures forall i :: 1 <= i < |inputs| ==> Run(cfg, Start(recorded), inputs)[i].outcome != Skipped(FirstMessage)
  {
    var s := Start(recorded);
    var r := Handle(cfg, s, inputs[0].message, inputs[0].oracle);
    NoLaterFirstMessage(cfg, r.next, inputs[1..]);
    assert forall i :: 1 <= i < |inputs| ==> Run(cfg, s, inputs)[i] == Run(cfg, r.next, inputs[1..])[i - 1];
  }

  // ---------------------------------------------------------------------
  // Admission and the dedup table

  /** A message that admission rejects makes no call and changes nothing but
      the removal of its id on an `end` message. */
  lemma RejectedMessageHasNoEffect(cfg: Config, s: ProcessState, m: Message, o: Oracle)
    requires !s.firstMessage
    requires IsInvalidEvent(cfg, m.before, m.after,
      (if IsEnd(m) then s.currentEvents.Keys - {m.after.id} else s.currentEvents.Keys))
    ensures Handle(cfg, s, m, o).outcome == Skipped(NotAdmitted)
    ensures Handle(cfg, s, m, o).calls == []
    ensures Handle(cfg, s, m, o).next.recorded == s.recorded
    ensures Handle(cfg, s, m, o).next.currentEvents ==
      if IsEnd(m) then s.currentEvents - {m.after.id} else s.currentEvents
  {
  }

  /** An event already in the table is skipped before it is tracked, before
      a snapshot is fetched and before the OCR engine runs. */
  lemma RecordedEventShortCircuits(cfg: Config, s: ProcessState, m: Message, o: Oracle)
    requires !s.firstMessage && m.after.id in s.recorded
    ensures Handle(cfg, s, m, o).outcome in {Skipped(NotAdmitted), Skipped(AlreadyRecorded)}
    ensures Handle(cfg, s, m, o).calls == []
    ensures Handle(cfg, s, m, o).next.recorded == s.recorded
    ensures Handle(cfg, s, m, o).next.currentEvents ==
      if IsEnd(m) then s.currentEvents - {m.after.id} else s.currentEvents
  {
  }

  /** The only insert a message attempts is for its own id, and only when the
      table does not hold that id: the table never gets a second row per event. */
  lemma InsertOnlyForUnrecordedId(cfg: Config, s: ProcessState, m: Message, o: Oracle)
    ensures forall c :: c in Handle(cfg, s, m, o).calls && c.InsertRecord? ==>
      c.eventId == m.after.id && m.after.id !in s.recorded
  {
  }

  /** As written, the score of every reading is None, so the insert into the
      NOT NULL `score` column always fails: no message ever adds a row. */
  lemma NothingIsEverRecorded(cfg: Config, s: ProcessState, m: Message, o: Oracle)
    ensures Handle(cfg, s, m, o).next.recorded == s.recorded
    ensures forall c :: c in Handle(cfg, s, m, o).calls && c.InsertRecord? ==>
      Handle(cfg, s, m, o).outcome == Raised(StoreRejected)
  {
  }

  lemma {:induction false} RunNeverRecords(cfg: Config, s: ProcessState, inputs: seq<Input>)
    ensures Final(s, Run(cfg, s, inputs)).recorded == s.recorded
    decreases |inputs|
  {
    if inputs != [] {
      var r := Handle(cfg, s, inputs[0].message, inputs[0].oracle);
      NothingIsEverRecorded(cfg, s, inputs[0].message, inputs[0].oracle);
      RunNeverRecords(cfg, r.next, inputs[1..]);
      if inputs[1..] != [] {
        assert Run(cfg, s, inputs)[|inputs| - 1] == Run(cfg, r.next, inputs[1..])[|inputs| - 2];
      }
    }
  }

  // ---------------------------------------------------------------------
  // The attempt tracker

  /** After an `end` message its id is no longer tracked, whatever the outcome. */
  lemma EndUntracks(cfg: Config, s: ProcessState, m: Message, o: Oracle)
    requires !s.firstMessage && IsEnd(m)
    ensures m.after.id !in Handle(cfg, s, m, o).next.currentEvents
    ensures Handle(cfg, s, m, o).outcome != Skipped(AttemptsExhausted)
  {
  }

  /** An `end` message whose snapshot cannot be fetched reaches the delete
      with an untracked id, and raises KeyError. */
  lemma EndWithoutSnapshotRaises(cfg: Config, s: ProcessState, m: Message, o: Oracle)
    requires !s.firstMessage && IsEnd(m) && !o.snapshotReady
    requires !IsInvalidEvent(cfg, m.before, m.after, s.currentEvents.Keys - {m.after.id})
    requires m.after.id !in s.recorded
    ensures Handle(cfg, s, m, o).outcome == Raised(KeyErrorUntracked)
    ensures Handle(cfg, s, m, o).calls == [FetchSnapshot]
  {
  }

  /** A new event that is admitted starts counting at 0: with a snapshot it
      is counted once, and when the snapshot is missing it is dropped again,
      so the next message starts over. */
  lemma NewEventLifecycle(cfg: Config, s: ProcessState, m: Message, o: Oracle)
    requires !s.firstMessage && !IsEnd(m)
    requires m.after.id !in s.currentEvents && m.after.id !in s.recorded
    requires !IsInvalidEvent(cfg, m.before, m.after, s.currentEvents.Keys)
    ensures o.snapshotReady ==>
      Handle(cfg, s, m, o).next.currentEvents == s.currentEvents[m.after.id := 1]
    ensures !o.snapshotReady ==>
      Handle(cfg, s, m, o).next.currentEvents == s.currentEvents &&
      Handle(cfg, s, m, o).outcome == Skipped(SnapshotMissing)
  {
  }

  /** A tracked event whose snapshot fetch fails loses its count: the id is
      deleted, so the next message starts it over at 0. */
  lemma TrackedSnapshotMissingResets(cfg: Config, s: ProcessState, m: Message, o: Oracle)
    requires !s.firstMessage && !IsEnd(m) && !o.snapshotReady
    requires m.after.id in s.currentEvents && m.after.id !in s.recorded
    requires !IsInvalidEvent(cfg, m.before, m.after, s.currentEvents.Keys)
    ensures Handle(cfg, s, m, o).outcome == Skipped(SnapshotMissing)
    ensures Handle(cfg, s, m, o).next.currentEvents == s.currentEvents - {m.after.id}
    ensures Handle(cfg, s, m, o).calls == [FetchSnapshot]
  {
  }

  /** With `max_attempts` N > 0 every tracked count stays at most N + 1. */
  ghost predicate BudgetRespected(cfg: Config, s: ProcessState)
  {
    cfg.maxAttempts > 0 ==> forall id :: id in s.currentEvents ==> s.currentEvents[id] <= cfg.maxAttempts + 1
  }

  lemma HandleKeepsBudget(cfg: Config, s: ProcessState, m: Message, o: Oracle)
    requires BudgetRespected(cfg, s)
    ensures BudgetRespected(cfg, Handle(cfg, s, m, o).next)
  {
  }

  lemma {:induction false} RunKeepsBudget(cfg: Config, s: ProcessState, inputs: seq<Input>)
    requires BudgetRespected(cfg, s)
    ensures forall i :: 0 <= i < |inputs| ==> BudgetRespected(cfg, Run(cfg, s, inputs)[i].next)
    decreases |inputs|
  {
    if inputs != [] {
      var r := Handle(cfg, s, inputs[0].message, inputs[0].oracle);
      HandleKeepsBudget(cfg, s, inputs[0].message, inputs[0].oracle);
      RunKeepsBudget(cfg, r.next, inputs[1..]);
      assert forall i :: 1 <= i < |inputs| ==> Run(cfg, s, inputs)[i] == Run(cfg, r.next, inputs[1..])[i - 1];
    }
  }

  /** The budget check: a tracked id is refused exactly when N > 0 and its
      count exceeds N; otherwise the OCR engine runs (when configured) and the
      count goes up by one. `max_attempts` of 0 or less never refuses. */
  lemma AttemptBudget(cfg: Config, s: ProcessState, m: Message, o: Oracle)
    requires !s.firstMessage && !IsEnd(m) && m.after.id in s.currentEvents && m.after.id !in s.recorded
    requires !IsInvalidEvent(cfg, m.before, m.after, s.currentEvents.Keys)
    requires o.snapshotReady
    ensures var r := Handle(cfg, s, m, o);
      && (r.outcome == Skipped(AttemptsExhausted) <==>
            cfg.maxAttempts > 0 && s.currentEvents[m.after.id] > cfg.maxAttempts)
      && (r.outcome == Skipped(AttemptsExhausted) ==> r.next == s && r.calls == [FetchSnapshot])
      && (r.outcome != Skipped(AttemptsExhausted) ==>
            r.next.currentEvents == s.currentEvents[m.after.id := s.currentEvents[m.after.id] + 1] &&
            (RunOcr in r.calls <==> cfg.ocrRecognizer))
  {
  }

  /** An `end` message is never counted against the budget: if it gets past
      the snapshot fetch, the OCR engine runs no matter how often it ran. */
  lemma EndSkipsBudget(cfg: Config, s: ProcessState, m: Message, o: Oracle)
    requires !s.firstMessage && IsEnd(m) && m.after.id !in s.recorded && o.snapshotReady
    requires !IsInvalidEvent(cfg, m.before, m.after, s.currentEvents.Keys - {m.after.id})
    ensures RunOcr in Handle(cfg, s, m, o).calls <==> cfg.ocrRecognizer
  {
  }

  // ---------------------------------------------------------------------
  // The redundant-refinement guard

  /** A refinement of a tracked event that repeats its top score is dropped
      before any call unless Frigate+ mode is on. */
  lemma RepeatedScoreSkipped(cfg: Config, s: ProcessState, m: Message, o: Oracle)
    requires !s.firstMessage && !IsEnd(m) && !cfg.frigatePlus
    requires m.after.id in s.currentEvents && m.before.topScore == m.after.topScore
    ensures Handle(cfg, s, m, o) == Reaction(s, Skipped(NotAdmitted), [])
  {
  }

  /** Messages that all refine one event without changing its top score run
      the OCR engine at most once (and never once the event is tracked). */
  predicate SameScoreRefinements(cfg: Config, id: string, inputs: seq<Input>)
  {
    !cfg.frigatePlus &&
    forall i :: 0 <= i < |inputs| ==>
      && inputs[i].message.after.id == id
      && !IsEnd(inputs[i].message)
      && inputs[i].message.before.topScore == inputs[i].message.after.topScore
  }

  lemma SameScoreStep(cfg: Config, id: string, s: ProcessState, m: Message, o: Oracle)
    requires !cfg.frigatePlus && m.after.id == id && !IsEnd(m) && m.before.topScore == m.after.topScore
    ensures var r := Handle(cfg, s, m, o);
      && (id in s.currentEvents ==> id in r.next.currentEvents && RunOcr !in r.calls)
      && (RunOcr in r.calls ==> id in r.next.currentEvents)
  {
  }

  lemma {:induction false} SameScoreRunsOcrAtMostOnce(cfg: Config, id: string, s: ProcessState, inputs: seq<Input>)
    requires SameScoreRefinements(cfg, id, inputs)
    ensures OcrRuns(Run(cfg, s, inputs)) <= 1
    ensures id in s.currentEvents ==> OcrRuns(Run(cfg, s, inputs)) == 0
    decreases |inputs|
  {
    if inputs != [] {
      var r := Handle(cfg, s, inputs[0].message, inputs[0].oracle);
      SameScoreStep(cfg, id, s, inputs[0].message, inputs[0].oracle);
      assert SameScoreRefinements(cfg, id, inputs[1..]);
      SameScoreRunsOcrAtMostOnce(cfg, id, r.next, inputs[1..]);
      assert Run(cfg, s, inputs)[1..] == Run(cfg, r.next, inputs[1..]);
    }
  }
}
