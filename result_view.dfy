/**
 * The pure parts of `ResultViewController` shared by versions 3 and 4 (and,
 * for the location line, version 2): the record the capture screen fills in,
 * the result-to-symbol map and the location line built from a reverse
 * geocode.
 */
module ResultView {
  import opened Wrappers
  import opened Strings
  import opened Capture

  /**
   * The fields `classifyImage` sets on a fresh `ResultViewController` before
   * presenting it; `M` is the version's model-type enumeration.
   */
  datatype ResultScreen<M> = ResultScreen(
    predictedLabel: string,
    location: Option<Coordinate>,
    date: Date,
    image: Image,
    modelType: Option<M>)

  // ---------------------------------------------------------------------
  // Result symbol
  // ---------------------------------------------------------------------

  const CheckMark: string := "\U{2705}"
  const CrossMark: string := "\U{274C}"
  const QuestionMark: string := "\U{2753}"
  /** Woman shrugging: U+1F937, zero-width joiner, female sign, variation selector 16. */
  const Shrug: string := "\U{1F937}\U{200D}\U{2640}\U{FE0F}"

  /** The labels the classifier is expected to produce. */
  predicate IsKnownLabel(result: string) {
    result == "positive" || result == "negative" || result == "invalid"
  }

  /**
   * `getSymbolForClassificationResult`: an exact match on the three known
   * labels, the shrug for every other string.
   */
  function SymbolFor(result: string): (r: string)
    ensures result == "positive" ==> r == CheckMark
    ensures result == "negative" ==> r == CrossMark
    ensures result == "invalid" ==> r == QuestionMark
    ensures r == Shrug <==> !IsKnownLabel(result)
  {
    match result
    case "positive" => CheckMark
    case "negative" => CrossMark
    case "invalid" => QuestionMark
    case _ => Shrug
  }

  /** Distinct known labels get distinct symbols, and none of them gets the fallback. */
  lemma SymbolForSeparatesKnownLabels(a: string, b: string)
    requires IsKnownLabel(a) && IsKnownLabel(b) && a != b
    ensures SymbolFor(a) != SymbolFor(b)
    ensures SymbolFor(a) != Shrug
  {
  }

  // ---------------------------------------------------------------------
  // Location line
  // ---------------------------------------------------------------------

  /** The three `CLPlacemark` fields the location line reads. */
  datatype Placemark = Placemark(name: Option<string>, locality: Option<string>, country: Option<string>)

  /**
   * The reverse-geocoding completion: an error, or the placemarks (an absent
   * placemark array is the empty sequence).
   */
  datatype GeocodeOutcome = GeocodeError | Placemarks(placemarks: seq<Placemark>)

  const UnknownLocation: string := "Location: Unknown"
  const PartSeparator: string := ", "

  /** The present fields among name, locality and country, in that order. */
  function PresentParts(p: Placemark): (r: seq<string>)
    ensures |r| <= 3
  {
    (if p.name.Some? then [p.name.value] else [])
    + (if p.locality.Some? then [p.locality.value] else [])
    + (if p.country.Some? then [p.country.value] else [])
  }

  /** `parts` without its leading empty strings. */
  function DropLeadingEmpty(parts: seq<string>): (r: seq<string>)
    ensures r == [] || r[0] != ""
  {
    if |parts| > 0 && parts[0] == "" then DropLeadingEmpty(parts[1..]) else parts
  }

  /**
   * What the three `+=` steps accumulate: a separator goes in only once
   * something non-empty has been written, so leading empty parts vanish and
   * every later part, even an empty one, is preceded by ", ".
   */
  function JoinedParts(p: Placemark): string {
    Join(DropLeadingEmpty(PresentParts(p)), PartSeparator)
  }

  /** The line for the first placemark of a successful geocode. */
  function PlacemarkLine(p: Placemark): string {
    if JoinedParts(p) == "" then UnknownLocation else "Location: " + JoinedParts(p)
  }

  /** The text `getLocationString` hands to its completion. */
  function LocationText(location: Option<Coordinate>, reverseGeocode: Coordinate -> GeocodeOutcome): string {
    match location
    case None => UnknownLocation
    case Some(c) =>
      match reverseGeocode(c)
      case GeocodeError => UnknownLocation
      case Placemarks(ps) => if |ps| == 0 then UnknownLocation else PlacemarkLine(ps[0])
  }

  lemma {:induction false} DropLeadingEmptyAppend(parts: seq<string>, q: seq<string>)
    ensures DropLeadingEmpty(parts + q) ==
      if DropLeadingEmpty(parts) == [] then DropLeadingEmpty(q) else DropLeadingEmpty(parts) + q
    decreases |parts|
  {
    if |parts| == 0 {
      assert parts + q == q;
    } else {
      assert (parts + q)[0] == parts[0];
      assert (parts + q)[1..] == parts[1..] + q;
      if parts[0] == "" {
        DropLeadingEmptyAppend(parts[1..], q);
      }
    }
  }

  /**
   * One `if let part { if !locationString.isEmpty { += ", " }; += part }`
   * step turns the join of the parts seen so far into the join with `part`
   * appended.
   */
  lemma AppendStep(seen: seq<string>, part: string)
    ensures var acc := Join(DropLeadingEmpty(seen), PartSeparator);
      (if acc == "" then part else acc + PartSeparator + part) == Join(DropLeadingEmpty(seen + [part]), PartSeparator)
  {
    var d := DropLeadingEmpty(seen);
    DropLeadingEmptyAppend(seen, [part]);
    if d == [] {
      assert DropLeadingEmpty([part]) == if part == "" then [] else [part];
    } else {
      JoinAppend(d, part, PartSeparator);
    }
  }

  /**
   * One `if !locationString.isEmpty { += ", " }; += part` step: it turns the
   * join of the parts seen so far into the join with `part` appended.
   */
  method AppendPart(locationString: string, part: string, ghost seen: seq<string>) returns (next: string)
    requires locationString == Join(DropLeadingEmpty(seen), PartSeparator)
    ensures next == Join(DropLeadingEmpty(seen + [part]), PartSeparator)
  {
    AppendStep(seen, part);
    next := locationString;
    if next != "" {
      next := next + PartSeparator;
    }
    next := next + part;
  }

  /** The `+=` steps of `getLocationString` on one placemark. */
  method AccumulateParts(placemark: Placemark) returns (locationString: string)
    ensures locationString == JoinedParts(placemark)
  {
    locationString := "";
    ghost var seen: seq<string> := [];
    if placemark.name.Some? {
      locationString := locationString + placemark.name.value;
      seen := [placemark.name.value];
      assert DropLeadingEmpty(seen) == if placemark.name.value == "" then [] else seen;
    }
    if placemark.locality.Some? {
      locationString := AppendPart(locationString, placemark.locality.value, seen);
      seen := seen + [placemark.locality.value];
    }
    if placemark.country.Some? {
      locationString := AppendPart(locationString, placemark.country.value, seen);
      seen := seen + [placemark.country.value];
    }
    assert seen == PresentParts(placemark);
  }

  /**
   * `getLocationString`, with the geocoder passed in as a function.
   */
  method GetLocationString(location: Option<Coordinate>, reverseGeocode: Coordinate -> GeocodeOutcome)
    returns (text: string)
    ensures text == LocationText(location, reverseGeocode)
  {
    if location.None? {
      return UnknownLocation;
    }
    var outcome := reverseGeocode(location.value);
    if outcome.GeocodeError? || |outcome.placemarks| == 0 {
      return UnknownLocation;
    }
    var locationString := AccumulateParts(outcome.placemarks[0]);
    if locationString == "" {
      text := UnknownLocation;
    } else {
      text := "Location: " + locationString;
    }
  }

  /** With no location, a failed geocode or no placemark, the line is "Location: Unknown". */
  lemma LocationUnknownWithoutPlacemark(location: Option<Coordinate>, reverseGeocode: Coordinate -> GeocodeOutcome)
    requires location.None? || reverseGeocode(location.value).GeocodeError? || reverseGeocode(location.value).placemarks == []
    ensures LocationText(location, reverseGeocode) == UnknownLocation
  {
  }

  /** A placemark with every field present and non-empty lists all three, comma-separated. */
  lemma LocationAllFields(name: string, locality: string, country: string)
    requires name != "" && locality != "" && country != ""
    ensures PlacemarkLine(Placemark(Some(name), Some(locality), Some(country)))
      == "Location: " + name + ", " + locality + ", " + country
  {
    var p := Placemark(Some(name), Some(locality), Some(country));
    var parts := [name, locality, country];
    assert PresentParts(p) == parts;
    assert DropLeadingEmpty(parts) == parts;
    assert parts[1..] == [locality, country];
    assert [locality, country][1..] == [country];
    assert Join([locality, country], PartSeparator) == locality + PartSeparator + country;
    assert Join(parts, PartSeparator) == name + PartSeparator + (locality + PartSeparator + country);
  }

  /**
   * When every present field is non-empty, the placemark's line is exactly
   * the present fields joined with ", "; when none is present or all present
   * ones are empty, it is "Location: Unknown".
   */
  lemma LocationJoinsPresentFields(p: Placemark)
    ensures var parts := PresentParts(p);
      |parts| > 0 && (forall i :: 0 <= i < |parts| ==> parts[i] != "") ==>
        PlacemarkLine(p) == "Location: " + Join(parts, ", ")
    ensures var parts := PresentParts(p);
      (forall i :: 0 <= i < |parts| ==> parts[i] == "") ==> PlacemarkLine(p) == UnknownLocation
  {
    var parts := PresentParts(p);
    if |parts| > 0 && (forall i :: 0 <= i < |parts| ==> parts[i] != "") {
      assert DropLeadingEmpty(parts) == parts;
    }
    if forall i :: 0 <= i < |parts| ==> parts[i] == "" {
      AllEmptyDropped(parts);
    }
  }

  lemma {:induction false} AllEmptyDropped(parts: seq<string>)
    requires forall i :: 0 <= i < |parts| ==> parts[i] == ""
    ensures DropLeadingEmpty(parts) == []
    decreases |parts|
  {
    if |parts| > 0 {
      AllEmptyDropped(parts[1..]);
    }
  }

  /**
   * Whenever the line names a place, it is "Location: " followed by the
   * first non-empty present field: no separator is ever written first.
   */
  lemma LocationStartsWithFirstNonEmptyField(p: Placemark)
    ensures var d := DropLeadingEmpty(PresentParts(p));
      d != [] ==> (d[0] != "" && "Location: " + d[0] <= PlacemarkLine(p))
  {
  }
}
