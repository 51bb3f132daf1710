/** Event admission (`check_invalid_event`) and the license-plate attribute
    checks of Frigate+ mode. All of it is pure: the tracked ids are passed in. */
module Admission {
  import opened Wrappers
  import opened Frigate

  /** `has_common_value`: does some value of `values` occur in `pool`? */
  function HasCommonValue(values: seq<string>, pool: seq<string>): (r: bool)
    ensures r <==> exists v :: v in values && v in pool
  {
    if values == [] then false
    else values[0] in pool || HasCommonValue(values[1..], pool)
  }

  /** The label allow-list: the configured `objects`, or DEFAULT_OBJECTS when
      the option is absent (an explicitly empty list admits no label). */
  function ValidObjects(cfg: Config): (objects: seq<string>)
    ensures cfg.objects.None? ==> objects == DEFAULT_OBJECTS
    ensures cfg.objects.Some? ==> objects == cfg.objects.value
  {
    if cfg.objects.None? then DEFAULT_OBJECTS else cfg.objects.value
  }

  /** `check_invalid_event`: true when the message is to be ignored.
      `tracked` is the set of ids in CURRENT_EVENTS at the time of the call. */
  function IsInvalidEvent(cfg: Config, before: Snapshot, after: Snapshot, tracked: set<string>): (invalid: bool)
    ensures !invalid <==>
      && (cfg.zones == [] || exists z :: z in cfg.zones && z in after.currentZones)
      && (cfg.cameras == [] || after.camera in cfg.cameras)
      && after.labelText in ValidObjects(cfg)
      && !(before.topScore == after.topScore && after.id in tracked && !cfg.frigatePlus)
  {
    var matchingZone := if cfg.zones != [] then HasCommonValue(cfg.zones, after.currentZones) else true;
    var matchingCamera := if cfg.cameras != [] then after.camera in cfg.cameras else true;
    if !(matchingZone && matchingCamera) then true
    else if after.labelText !in ValidObjects(cfg) then true
    else before.topScore == after.topScore && after.id in tracked && !cfg.frigatePlus
  }

  /** With no zone, camera or object option set, only the label allow-list and
      the refinement guard can reject: a car from any camera in any zone with a
      new top score is admitted. */
  lemma DefaultsAdmitNewCarScore(cfg: Config, before: Snapshot, after: Snapshot, tracked: set<string>)
    requires cfg.zones == [] && cfg.cameras == [] && cfg.objects.None?
    requires after.labelText == "car" && before.topScore != after.topScore
    ensures !IsInvalidEvent(cfg, before, after, tracked)
  {
  }

  /** An untracked id is never a redundant refinement, whatever its scores. */
  lemma UntrackedIsNotRedundant(cfg: Config, before: Snapshot, after: Snapshot, tracked: set<string>)
    requires after.id !in tracked
    ensures IsInvalidEvent(cfg, before, after, tracked) == IsInvalidEvent(cfg, after, after, tracked)
  {
  }

  predicate IsPlate(a: Attribute) { a.labelText == "license_plate" }

  /** `xs` is `ys` with some elements left out and the others in their order. */
  predicate Subsequence(xs: seq<Attribute>, ys: seq<Attribute>)
    decreases |ys|
  {
    if xs == [] then true
    else if ys == [] then false
    else if xs[0] == ys[0] then Subsequence(xs[1..], ys[1..])
    else Subsequence(xs, ys[1..])
  }

  /** `[attribute for attribute in attributes if attribute['label'] == 'license_plate']`:
      every license-plate attribute as often as it occurs, nothing else, in
      the original order. */
  function PlateAttributes(attributes: seq<Attribute>): (plates: seq<Attribute>)
    ensures |plates| <= |attributes|
    ensures forall a :: a in plates <==> a in attributes && IsPlate(a)
    ensures Subsequence(plates, attributes)
  {
    if attributes == [] then []
    else if IsPlate(attributes[0]) then [attributes[0]] + PlateAttributes(attributes[1..])
    else PlateAttributes(attributes[1..])
  }

  /** The filter keeps each license-plate attribute as often as it occurs and
      drops every other attribute. With `Subsequence` this fixes the result. */
  lemma {:induction false} PlateAttributesCounts(attributes: seq<Attribute>)
    ensures forall a ::
      multiset(PlateAttributes(attributes))[a] == (if IsPlate(a) then multiset(attributes)[a] else 0)
    decreases |attributes|
  {
    if attributes != [] {
      PlateAttributesCounts(attributes[1..]);
      assert attributes == [attributes[0]] + attributes[1..];
      assert multiset(attributes) == multiset{attributes[0]} + multiset(attributes[1..]);
    }
  }

  /** The first element of the filtered list is the first license plate. */
  lemma {:induction false} FirstPlate(attributes: seq<Attribute>)
    ensures PlateAttributes(attributes) != [] ==>
      exists i :: 0 <= i < |attributes| && attributes[i] == PlateAttributes(attributes)[0] &&
        forall j :: 0 <= j < i ==> !IsPlate(attributes[j])
    decreases |attributes|
  {
    if attributes != [] && !IsPlate(attributes[0]) && PlateAttributes(attributes) != [] {
      FirstPlate(attributes[1..]);
      var i :| 0 <= i < |attributes[1..]| && attributes[1..][i] == PlateAttributes(attributes[1..])[0] &&
        forall j :: 0 <= j < i ==> !IsPlate(attributes[1..][j]);
      assert attributes[i + 1] == PlateAttributes(attributes)[0];
    }
  }

  /** `get_license_plate_attribute`: None unless Frigate+ mode is on, then
      the license-plate attributes of the snapshot in their order. */
  function LicensePlateAttributes(cfg: Config, after: Snapshot): (r: Option<seq<Attribute>>)
    ensures r.Some? <==> cfg.frigatePlus
    ensures r.Some? ==> r.value == PlateAttributes(after.currentAttributes)
    ensures r.Some? ==> forall a :: a in r.value <==> a in after.currentAttributes && IsPlate(a)
  {
    if cfg.frigatePlus then Some(PlateAttributes(after.currentAttributes)) else None
  }

  /** `is_valid_license_plate`: the first license-plate attribute must reach
      `license_plate_min_score`. Outside Frigate+ mode `any(None)` raises. */
  function IsValidLicensePlate(cfg: Config, after: Snapshot): (r: Result<bool, Fault>)
    ensures r.Failure? <==> !cfg.frigatePlus
    ensures r.Failure? ==> r.error == TypeErrorNoneIterable
    ensures r == Success(true) ==>
      exists a :: a in after.currentAttributes && IsPlate(a) && a.score >= cfg.licensePlateMinScore
    ensures (forall a :: a in after.currentAttributes ==> !IsPlate(a)) ==> r != Success(true)
  {
    var plates := LicensePlateAttributes(cfg, after);
    if plates.None? then Failure(TypeErrorNoneIterable)
    else if plates.value == [] then Success(false)
    else Success(!(plates.value[0].score < cfg.licensePlateMinScore))
  }

  /** The check is passed exactly when, in Frigate+ mode, the first
      license-plate attribute of the snapshot reaches the minimum score. */
  lemma ValidPlateIsFirstPlateAboveMinimum(cfg: Config, after: Snapshot)
    ensures IsValidLicensePlate(cfg, after) == Success(true) <==>
      cfg.frigatePlus &&
      exists i :: 0 <= i < |after.currentAttributes| &&
        IsPlate(after.currentAttributes[i]) &&
        after.currentAttributes[i].score >= cfg.licensePlateMinScore &&
        forall j :: 0 <= j < i ==> !IsPlate(after.currentAttributes[j])
  {
    FirstPlate(after.currentAttributes);
    var plates := PlateAttributes(after.currentAttributes);
    if cfg.frigatePlus && plates != [] {
      forall i | 0 <= i < |after.currentAttributes| && IsPlate(after.currentAttributes[i]) &&
          (forall j :: 0 <= j < i ==> !IsPlate(after.currentAttributes[j]))
        ensures after.currentAttributes[i] == plates[0]
      {
        var k :| 0 <= k < |after.currentAttributes| && after.currentAttributes[k] == plates[0] &&
          forall j :: 0 <= j < k ==> !IsPlate(after.currentAttributes[j]);
        assert k == i;
      }
    }
  }
}
