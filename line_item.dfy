/** The unit vocabulary of a line item and the fallbacks a line item applies
    to its optional properties (src/components/LineItemInput.tsx). */
module LineItem {
  import opened Wrappers

  /** The closed enumeration `LineItemUnit`. */
  datatype LineItemUnit =
    | CostPerPerson        // 'per person'
    | CostPerGroup         // 'per group'
    | Miles                // 'miles'
    | CostPerMile          // 'per mile'
    | Persons              // 'people'
    | Rooms                // 'rooms'
    | CostPerRoomPerNight  // 'USD/room/night'
    | Nights               // 'nights'

  /** A row of the `LineItemUnitSpecs` record; icon names are kept as strings
      and an absent optional field is `None`. */
  datatype UnitSpec = UnitSpec(
    value: LineItemUnit,
    iconUnit: Option<string>,
    iconInput: Option<string>,
    labelText: string,
    tag: Option<string>,
    decimalPlaces: Option<nat>,
    paddingRight: Option<string>)

  /** The units that count things: they are entered as whole numbers. */
  predicate IsCountUnit(u: LineItemUnit) {
    u == Persons || u == Rooms || u == Nights
  }

  /** The two units a line item offers when it is given no unit list. */
  predicate IsCostUnit(u: LineItemUnit) {
    u == CostPerPerson || u == CostPerGroup
  }

  /** `LineItemUnitSpecs[u]`: every entry is filed under its own unit, only the
      two cost units carry a unit-toggle icon and no tag, and decimal places
      are fixed exactly for distances, per-mile rates and counts. */
  function SpecOf(u: LineItemUnit): (s: UnitSpec)
    ensures s.value == u
    ensures s.iconUnit.Some? <==> IsCostUnit(u)
    ensures s.tag.None? <==> IsCostUnit(u)
    ensures s.decimalPlaces == Some(0) <==> IsCountUnit(u)
    ensures s.decimalPlaces.None? <==> IsCostUnit(u) || u == CostPerRoomPerNight
    ensures s.decimalPlaces.Some? ==> s.decimalPlaces.value <= 2
  {
    match u
    case CostPerPerson =>
      UnitSpec(CostPerPerson, Some("person"), Some("dollar"), "per person", None, None, None)
    case CostPerGroup =>
      UnitSpec(CostPerGroup, Some("people"), Some("dollar"), "per group", None, None, None)
    case Miles =>
      UnitSpec(Miles, None, Some("map"), "miles", Some("miles"), Some(1), None)
    case Rooms =>
      UnitSpec(Rooms, None, None, "rooms", Some("rooms"), Some(0), None)
    case CostPerRoomPerNight =>
      UnitSpec(CostPerRoomPerNight, None, Some("dollar"), "per room", Some("per room"), None, Some("4.8em"))
    case CostPerMile =>
      UnitSpec(CostPerMile, None, Some("dollar"), "per mile", Some("per mile"), Some(2), Some("4.6em"))
    case Persons =>
      UnitSpec(Persons, None, Some("people"), "# of people", Some("people"), Some(0), Some("4em"))
    case Nights =>
      UnitSpec(Nights, None, Some("moon"), "nights", Some("nights"), Some(0), None)
  }

  /** The decimal places each unit's table entry fixes, unit by unit. */
  lemma DecimalPlacesTable()
    ensures SpecOf(Miles).decimalPlaces == Some(1)
    ensures SpecOf(CostPerMile).decimalPlaces == Some(2)
    ensures SpecOf(Rooms).decimalPlaces == Some(0)
    ensures SpecOf(Persons).decimalPlaces == Some(0)
    ensures SpecOf(Nights).decimalPlaces == Some(0)
    ensures SpecOf(CostPerPerson).decimalPlaces.None?
    ensures SpecOf(CostPerGroup).decimalPlaces.None?
    ensures SpecOf(CostPerRoomPerNight).decimalPlaces.None?
  {
  }

  /** `props.units || [CostPerPerson, CostPerGroup]`. A list, even an empty
      one, is truthy, so only a missing list falls back to the default. */
  function SelectableUnits(units: Option<seq<LineItemUnit>>): (r: seq<LineItemUnit>)
    ensures units.Some? ==> r == units.value
    ensures units.None? ==> r == [CostPerPerson, CostPerGroup]
    ensures units.None? ==> forall i :: 0 <= i < |r| ==> IsCostUnit(r[i])
  {
    match units
    case Some(us) => us
    case None => [CostPerPerson, CostPerGroup]
  }

  /** `units.map(x => LineItemUnitSpecs[x])`: one spec per selectable unit,
      and the button built from the i-th spec selects the i-th unit. */
  function AllUnitSpecs(units: Option<seq<LineItemUnit>>): (r: seq<UnitSpec>)
    ensures |r| == |SelectableUnits(units)|
    ensures forall i :: 0 <= i < |r| ==> r[i].value == SelectableUnits(units)[i]
  {
    var us := SelectableUnits(units);
    seq(|us|, i requires 0 <= i < |us| => SpecOf(us[i]))
  }

  /** JavaScript truthiness of an optional string: missing or empty is falsy. */
  predicate Truthy(s: Option<string>) {
    s.Some? && s.value != ""
  }

  /** `props.tag || unitSpec.tag`: a given, non-empty tag wins; a missing or
      empty one falls back to the unit's tag, which only the cost units lack. */
  function EffectiveTag(tag: Option<string>, unit: LineItemUnit): (r: Option<string>)
    ensures Truthy(tag) ==> r == tag
    ensures !Truthy(tag) ==> r == SpecOf(unit).tag
    ensures !Truthy(tag) ==> (r.None? <==> IsCostUnit(unit))
  {
    if Truthy(tag) then tag else SpecOf(unit).tag
  }

  /** `props.iconInput || unitSpec.iconInput`, with the same fallback; only
      rooms have no input icon of their own. */
  function EffectiveIconInput(iconInput: Option<string>, unit: LineItemUnit): (r: Option<string>)
    ensures Truthy(iconInput) ==> r == iconInput
    ensures !Truthy(iconInput) ==> r == SpecOf(unit).iconInput
    ensures !Truthy(iconInput) ==> (r.None? <==> unit == Rooms)
  {
    if Truthy(iconInput) then iconInput else SpecOf(unit).iconInput
  }

  /** The `decimalPlaces` a line item hands to its currency input: a defined
      override wins, zero included (the test is `typeof … !== 'undefined'`, not
      truthiness); otherwise the unit's own value, which may be undefined. */
  function EffectiveDecimalPlaces(overrideDecimalPlaces: Option<nat>, unit: LineItemUnit): (r: Option<nat>)
    ensures overrideDecimalPlaces.Some? ==> r == overrideDecimalPlaces
    ensures overrideDecimalPlaces.None? ==> r == SpecOf(unit).decimalPlaces
    ensures r.None? <==> overrideDecimalPlaces.None? && (IsCostUnit(unit) || unit == CostPerRoomPerNight)
  {
    if overrideDecimalPlaces.Some? then overrideDecimalPlaces
    else if SpecOf(unit).decimalPlaces.Some? then SpecOf(unit).decimalPlaces
    else None
  }
}
