/** What the recognizer sends out once a plate is read: the sublabel it posts
    to the NVR (`set_sublabel`) and the message it publishes on the return
    topic (`send_mqtt_message`). The transports themselves are not modelled. */
module Dispatch {
  import opened Wrappers
  import opened Text
  import opened Frigate

  const SUBLABEL_PREFIX := "OCR:"

  /** The NVR accepts sublabels of at most this many characters. */
  const SUBLABEL_LIMIT := 20

  /** The sublabel `set_sublabel` posts: the text cut to 20 characters,
      upper-cased, after the "OCR:" prefix. */
  function Sublabel(text: string): (r: string)
    ensures |r| <= |SUBLABEL_PREFIX| + SUBLABEL_LIMIT
    ensures |r| == |SUBLABEL_PREFIX| + (if |text| > SUBLABEL_LIMIT then SUBLABEL_LIMIT else |text|)
    ensures r[..|SUBLABEL_PREFIX|] == SUBLABEL_PREFIX
    ensures forall i :: |SUBLABEL_PREFIX| <= i < |r| ==> !IsLowerLetter(r[i])
    ensures Lower(r[|SUBLABEL_PREFIX|..]) == Lower(text[..|r| - |SUBLABEL_PREFIX|])
  {
    var kept := if |text| > SUBLABEL_LIMIT then text[..SUBLABEL_LIMIT] else text;
    LowerOfUpper(kept);
    assert (SUBLABEL_PREFIX + Upper(kept))[|SUBLABEL_PREFIX|..] == Upper(kept);
    SUBLABEL_PREFIX + Upper(kept)
  }

  /** The sublabel depends on the text only up to letter case. */
  lemma SublabelIgnoresCase(text: string)
    ensures Sublabel(Upper(text)) == Sublabel(text)
  {
    var n := if |text| > SUBLABEL_LIMIT then SUBLABEL_LIMIT else |text|;
    UpperPrefix(text, n);
    UpperIdempotent(text[..n]);
    assert Upper(text)[..n] == Upper(text[..n]);
  }

  /** The JSON body of the sublabel POST. */
  function SublabelPayload(text: string): (body: map<string, Json>)
    ensures body.Keys == {"subLabel"}
    ensures body["subLabel"] == JStr(Sublabel(text))
  {
    map["subLabel" := JStr(Sublabel(text))]
  }

  /** A message for the bus and the topic it goes to. */
  datatype Publication = Publication(topic: string, message: map<string, Json>)

  const WATCHED_KEYS: set<string> :=
    {"ocr_text", "score", "frigate_event_id", "camera_name", "start_time", "fuzzy_score", "original_plate"}

  const PLAIN_KEYS: set<string> :=
    {"ocr_text", "score", "frigate_event_id", "camera_name", "start_time"}

  /** `send_mqtt_message`: nothing without a `return_topic`; otherwise a
      message on `<main_topic>/<return_topic>` that reports the watched text
      (and keeps the original reading) when there is one, the reading itself
      when there is not. */
  function ReturnMessage(cfg: Config, ocrText: string, score: Option<real>, eventId: string,
                         camera: string, startTime: string, watched: Option<string>,
                         fuzzy: Option<real>): (r: Option<Publication>)
    ensures r.None? <==> cfg.returnTopic == ""
    ensures r.Some? ==> r.value.topic == cfg.mainTopic + "/" + cfg.returnTopic
    ensures r.Some? ==> r.value.message.Keys == if Present(watched) then WATCHED_KEYS else PLAIN_KEYS
    ensures r.Some? ==>
      r.value.message["ocr_text"] == JStr(Upper(if Present(watched) then watched.value else ocrText))
    ensures r.Some? && Present(watched) ==> r.value.message["original_plate"] == JStr(Upper(ocrText))
    ensures r.Some? ==> r.value.message["frigate_event_id"] == JStr(eventId)
    ensures r.Some? ==> r.value.message["camera_name"] == JStr(camera)
    ensures r.Some? ==> r.value.message["score"] == NumberOrNull(score)
    ensures r.Some? ==> r.value.message["start_time"] == JStr(startTime)
    ensures r.Some? && Present(watched) ==> r.value.message["fuzzy_score"] == NumberOrNull(fuzzy)
  {
    if cfg.returnTopic == "" then None
    else
      var message :=
        if Present(watched) then
          map["ocr_text" := JStr(Upper(watched.value)),
              "score" := NumberOrNull(score),
              "frigate_event_id" := JStr(eventId),
              "camera_name" := JStr(camera),
              "start_time" := JStr(startTime),
              "fuzzy_score" := NumberOrNull(fuzzy),
              "original_plate" := JStr(Upper(ocrText))]
        else
          map["ocr_text" := JStr(Upper(ocrText)),
              "score" := NumberOrNull(score),
              "frigate_event_id" := JStr(eventId),
              "camera_name" := JStr(camera),
              "start_time" := JStr(startTime)];
      Some(Publication(cfg.mainTopic + "/" + cfg.returnTopic, message))
  }

  lemma KeyCounts()
    ensures |PLAIN_KEYS| == 5 && |WATCHED_KEYS| == 7
  {
    var a: set<string> := {"ocr_text"};
    assert |a + {"score"}| == 2 by { assert "score" !in a; }
    var b := a + {"score"};
    assert |b + {"frigate_event_id"}| == 3 by { assert "frigate_event_id" !in b; }
    var c := b + {"frigate_event_id"};
    assert |c + {"camera_name"}| == 4 by { assert "camera_name" !in c; }
    var d := c + {"camera_name"};
    assert |d + {"start_time"}| == 5 by { assert "start_time" !in d; }
    var e := d + {"start_time"};
    assert e == PLAIN_KEYS;
    assert |e + {"fuzzy_score"}| == 6 by {
      assert "fuzzy_score"[0] != "camera_name"[0];
      assert "fuzzy_score" !in e;
    }
    var f := e + {"fuzzy_score"};
    assert |f + {"original_plate"}| == 7 by { assert "original_plate" !in f; }
    assert f + {"original_plate"} == WATCHED_KEYS;
  }

  /** The watched message has seven keys and the plain one five. */
  lemma ReturnMessageSize(cfg: Config, ocrText: string, score: Option<real>, eventId: string,
                          camera: string, startTime: string, watched: Option<string>, fuzzy: Option<real>)
    requires cfg.returnTopic != ""
    ensures |ReturnMessage(cfg, ocrText, score, eventId, camera, startTime, watched, fuzzy).value.message|
            == if Present(watched) then 7 else 5
  {
    var m := ReturnMessage(cfg, ocrText, score, eventId, camera, startTime, watched, fuzzy).value.message;
    KeyCounts();
    assert |m| == |m.Keys|;
  }
}
