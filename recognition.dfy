/** The recognition step: `check_watched_ocr`, `ocr_recognizer` and
    `get_ocr`. The OCR engine itself is an input (`Oracle.ocrText`). */
module Recognition {
  import opened Wrappers
  import opened Text
  import opened Frigate

  /** `[str(x).lower() for x in entries]`, the comprehension `check_watched_ocr`
      intends over the configured watch list. As written it iterates the
      undefined `config_ocr_plates` and raises first (see `CheckWatchedOcr`),
      so the pipeline never calls this nor `WatchedMatch`. */
  function LowerAll(entries: seq<string>): (r: seq<string>)
    ensures |r| == |entries|
    ensures forall i :: 0 <= i < |entries| ==> r[i] == Lower(entries[i])
  {
    if entries == [] then [] else [Lower(entries[0])] + LowerAll(entries[1..])
  }

  /** The case-insensitive membership test of the watch list: the lower-cased
      text is one of the lower-cased entries. Unreachable as written, since
      building the lower-cased list raises before the test. */
  function WatchedMatch(watched: seq<string>, text: string): (r: bool)
    ensures r <==> exists w :: w in watched && Lower(w) == Lower(text)
  {
    var lowered := LowerAll(watched);
    assert forall w :: w in watched ==> Lower(w) in lowered;
    assert Lower(text) in lowered ==>
      exists i :: 0 <= i < |watched| && watched[i] in watched && Lower(watched[i]) == Lower(text);
    Lower(text) in lowered
  }

  /** Upper-casing the recognized text does not change whether it is watched. */
  lemma WatchedMatchIgnoresCase(watched: seq<string>, text: string)
    ensures WatchedMatch(watched, Upper(text)) == WatchedMatch(watched, text)
  {
    LowerOfUpper(text);
  }

  /** What `check_watched_ocr` returns: watched text, its score, fuzzy score. */
  datatype Watch = Watch(watched: Option<string>, watchedScore: Option<real>, fuzzy: Option<real>)

  const NO_WATCH := Watch(None, None, None)

  /** `check_watched_ocr`: with no watch list it returns three Nones; with one,
      building the lower-cased list reads the undefined `config_ocr_plates`
      and raises before any comparison is made. */
  function CheckWatchedOcr(watched: seq<string>, text: Option<string>): (r: Result<Watch, Fault>)
    ensures r.Success? <==> watched == []
    ensures r.Success? ==> r.value == NO_WATCH
    ensures r.Failure? ==> r.error == NameErrorWatchList
  {
    if watched == [] then Success(NO_WATCH) else Failure(NameErrorWatchList)
  }

  /** What `get_ocr` returns: text, score, watched text, fuzzy score. */
  datatype Reading = Reading(text: Option<string>, score: Option<real>, watched: Option<string>, fuzzy: Option<real>)

  const NO_READING := Reading(None, None, None, None)

  /** `ocr_recognizer` after the engine has produced `text`: the score is
      never set; a watched hit without a fuzzy score reads the undefined
      `ocr_score`. */
  function Recognize(cfg: Config, text: Option<string>): (r: Result<Reading, Fault>)
    ensures r.Success? ==> r.value.score.None? && r.value.text == text
    ensures r.Success? <==> cfg.watchedOcr == []
    ensures r.Success? ==> r.value.watched.None? && r.value.fuzzy.None?
    ensures r.Failure? ==> r.error == NameErrorWatchList
  {
    match CheckWatchedOcr(cfg.watchedOcr, text)
    case Failure(e) => Failure(e)
    case Success(w) =>
      if NonZero(w.fuzzy) then Success(Reading(text, None, w.watched, w.fuzzy))
      else if Present(w.watched) then Failure(NameErrorOcrScore)
      else Success(Reading(text, None, None, None))
  }

  /** `get_ocr`: without an `ocr_recognizer` option nothing is read; otherwise
      the engine runs and then the minimum-score gate, which raises on the
      undefined `plate_score` whenever `min_score` is set and non-zero. */
  function GetOcr(cfg: Config, text: Option<string>): (r: Result<Reading, Fault>)
    ensures !cfg.ocrRecognizer ==> r == Success(NO_READING)
    ensures cfg.ocrRecognizer ==>
      (r.Success? <==> cfg.watchedOcr == [] && !NonZero(cfg.minScore))
    ensures cfg.ocrRecognizer && cfg.watchedOcr != [] ==> r == Failure(NameErrorWatchList)
    ensures cfg.ocrRecognizer && cfg.watchedOcr == [] && NonZero(cfg.minScore) ==> r == Failure(NameErrorPlateScore)
    ensures r.Success? ==> r.value.score.None? && r.value.watched.None? && r.value.fuzzy.None?
    ensures r.Success? && cfg.ocrRecognizer ==> r.value.text == text
  {
    if !cfg.ocrRecognizer then Success(NO_READING)
    else
      match Recognize(cfg, text)
      case Failure(e) => Failure(e)
      case Success(reading) =>
        // `min_score and plate_score and ...`: a falsy min_score is the value
        // of the whole gate, so the discard branch is never taken
        if NonZero(cfg.minScore) then Failure(NameErrorPlateScore)
        else Success(reading)
  }
}
