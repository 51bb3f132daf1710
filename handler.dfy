/** The recognizer process: the globals `first_message` and `CURRENT_EVENTS`
    and the `plates` table, updated in place by `on_message`. */
module Handler {
  import opened Wrappers
  import opened Frigate
  import opened Admission
  import opened Recognition
  import opened Dispatch
  import opened Pipeline

  class Recognizer {
    const cfg: Config
    var firstMessage: bool
    var currentEvents: map<string, nat>
    var recorded: set<string>

    function Current(): ProcessState
      reads this
    {
      ProcessState(firstMessage, currentEvents, recorded)
    }

    /** No tracked count exceeds the attempt budget by more than one. */
    ghost predicate Valid()
      reads this
    {
      BudgetRespected(cfg, Current())
    }

    /** A process just started over a table that holds `stored`. */
    constructor (cfg: Config, stored: set<string>)
      ensures Valid()
      ensures this.cfg == cfg && Current() == Start(stored)
    {
      this.cfg := cfg;
      firstMessage := true;
      currentEvents := map[];
      recorded := stored;
    }

    /** `check_first_message`: true once, for the first call only. */
    method CheckFirstMessage() returns (skip: bool)
      modifies this`firstMessage
      ensures skip == old(firstMessage)
      ensures !firstMessage
    {
      skip := firstMessage;
      if firstMessage {
        firstMessage := false;
      }
    }

    /** `is_duplicate_event`: does the table already hold a row for the event? */
    method IsDuplicateEvent(eventId: string) returns (duplicate: bool)
      ensures duplicate <==> eventId in recorded
    {
      duplicate := eventId in recorded;
    }

    /** `store_plate_in_db`: the insert succeeds only with a score (NOT NULL)
      and for an event that has no row yet (UNIQUE). */
    method StorePlate(eventId: string, score: Option<real>) returns (stored: bool)
      modifies this`recorded
      ensures stored <==> score.Some? && eventId !in old(recorded)
      ensures recorded == if stored then old(recorded) + {eventId} else old(recorded)
    {
      stored := score.Some? && eventId !in recorded;
      if stored {
        recorded := recorded + {eventId};
      }
    }

    /** `on_message`: handles one event message, given what the snapshot
      fetch and the OCR engine answer, and keeps the attempt budget. */
    method OnMessage(m: Message, o: Oracle) returns (outcome: Outcome, calls: seq<Call>)
      requires Valid()
      modifies this
      ensures Valid()
      ensures Reaction(Current(), outcome, calls) == Handle(cfg, old(Current()), m, o)
    {
      HandleKeepsBudget(cfg, Current(), m, o);
      calls := [];
      var skip := CheckFirstMessage();
      if skip {
        return Skipped(FirstMessage), calls;
      }
      var id := m.after.id;
      if IsEnd(m) && id in currentEvents {
        currentEvents := currentEvents - {id};
      }
      if IsInvalidEvent(cfg, m.before, m.after, currentEvents.Keys) {
        return Skipped(NotAdmitted), calls;
      }
      var duplicate := IsDuplicateEvent(id);
      if duplicate {
        return Skipped(AlreadyRecorded), calls;
      }
      if !IsEnd(m) && id !in currentEvents {
        currentEvents := currentEvents[id := 0];
      }
      calls := [FetchSnapshot];
      if !o.snapshotReady {
        if id !in currentEvents {
          return Raised(KeyErrorUntracked), calls;
        }
        currentEvents := currentEvents - {id};
        return Skipped(SnapshotMissing), calls;
      }
      if id in currentEvents {
        if cfg.maxAttempts > 0 && currentEvents[id] > cfg.maxAttempts {
          return Skipped(AttemptsExhausted), calls;
        }
        currentEvents := currentEvents[id := currentEvents[id] + 1];
      }
      if cfg.ocrRecognizer {
        calls := calls + [RunOcr];
      }
      var ocr := GetOcr(cfg, o.ocrText);
      if ocr.Failure? {
        return Raised(ocr.error), calls;
      }
      var reading := ocr.value;
      match reading.text {
        case None =>
          outcome := if cfg.alwaysSaveCleanSnapshot then Raised(TypeErrorKeyword) else Completed;
        case Some(text) =>
          var plate := PlateOf(reading, text);
          calls := calls + [InsertRecord(id, plate)];
          var stored := StorePlate(id, reading.score);
          if !stored {
            return Raised(StoreRejected), calls;
          }
          calls := calls + [PostSublabel(id, SublabelPayload(plate))];
          match ReturnMessage(cfg, text, reading.score, id, m.after.camera,
                              m.after.startTime, reading.watched, reading.fuzzy) {
            case Some(p) => calls := calls + [Publish(p)];
            case None =>
          }
          outcome := Raised(TypeErrorKeyword);
      }
    }
  }
}
