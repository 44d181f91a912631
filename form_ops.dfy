/** The unit-checked operators of the expense form (`createFormOps`,
    src/App.tsx). A form variable is a decimal tagged with its unit; the
    attendee count is passed to every operator explicitly. The operators'
    contracts say which units they accept; the arithmetic identities
    between them are lemmas, called where they are needed. */
module FormOps {
  import opened Wrappers
  import opened LineItem

  /** `FormVariable = { value: BN, unit: LineItemUnit }` */
  datatype FormVariable = FormVariable(value: real, unit: LineItemUnit)

  /** `TOTAL(x)`: a per-person cost times the attendee count, or a group cost
      as it is; any other unit throws. */
  function Total(attendees: FormVariable, x: FormVariable): (r: Result<real>)
    ensures r.Ok? <==> IsCostUnit(x.unit)
    ensures x.unit == CostPerGroup ==> r.Ok? && r.value == x.value
  {
    if x.unit == CostPerPerson then Ok(x.value * attendees.value)
    else if x.unit == CostPerGroup then Ok(x.value)
    else Err(InvalidUnit)
  }

  /** `PER_PERSON(x)`: the share of one attendee; it accepts exactly the units
      `TOTAL` accepts. */
  function PerPerson(attendees: FormVariable, x: FormVariable): (r: Result<real>)
    requires x.unit == CostPerGroup ==> attendees.value != 0.0
    ensures r.Ok? <==> IsCostUnit(x.unit)
    ensures x.unit == CostPerPerson ==> r.Ok? && r.value == x.value
  {
    if x.unit == CostPerPerson then Ok(x.value)
    else if x.unit == CostPerGroup then Ok(x.value / attendees.value)
    else Err(InvalidUnit)
  }

  /** `TIMES(scalar, per)`: a distance in miles times a cost per mile; every
      other pair of units throws. */
  function Times(scalar: FormVariable, per: FormVariable): (r: Result<real>)
    ensures r.Ok? <==> scalar.unit == Miles && per.unit == CostPerMile
  {
    if scalar.unit == Miles && per.unit == CostPerMile then Ok(scalar.value * per.value)
    else Err(InvalidUnit)
  }

  /** `TOTAL` and `PER_PERSON` reject the same units. */
  lemma TotalAndPerPersonRejectAlike(attendees: FormVariable, x: FormVariable)
    requires x.unit == CostPerGroup ==> attendees.value != 0.0
    ensures Total(attendees, x).Err? <==> PerPerson(attendees, x).Err?
    ensures Total(attendees, x).Err? <==> !IsCostUnit(x.unit)
  {
  }

  /** The share of one attendee, times the attendee count, is the group total. */
  lemma PerPersonTimesCount(attendees: FormVariable, x: FormVariable)
    requires IsCostUnit(x.unit)
    requires x.unit == CostPerGroup ==> attendees.value != 0.0
    ensures PerPerson(attendees, x).value * attendees.value == Total(attendees, x).value
  {
    if x.unit == CostPerGroup {
      DivisionCancels(x.value, attendees.value);
    }
  }

  /** With a single attendee both cost units already are the group amount,
      and the share is the amount as entered. */
  lemma SingleAttendee(attendees: FormVariable, x: FormVariable)
    requires attendees.value == 1.0
    requires IsCostUnit(x.unit)
    ensures Total(attendees, x).value == x.value
    ensures PerPerson(attendees, x).value == x.value
  {
  }

  /** Non-negative entries give non-negative results. */
  lemma OperatorsNonNegative(attendees: FormVariable, x: FormVariable)
    requires attendees.value >= 0.0 && x.value >= 0.0
    requires x.unit == CostPerGroup ==> attendees.value != 0.0
    ensures Total(attendees, x).Ok? ==> Total(attendees, x).value >= 0.0
    ensures PerPerson(attendees, x).Ok? ==> PerPerson(attendees, x).value >= 0.0
  {
    if x.unit == CostPerPerson {
      NonNegativeProduct(x.value, attendees.value);
    }
  }

  /** A distance at a rate costs the distance times the rate: a non-negative
      amount for non-negative entries, and the distance itself at a rate of 1. */
  lemma TimesProperties(scalar: FormVariable, per: FormVariable)
    requires scalar.unit == Miles && per.unit == CostPerMile
    ensures scalar.value >= 0.0 && per.value >= 0.0 ==> Times(scalar, per).value >= 0.0
    ensures Times(scalar, per).value == scalar.value * per.value
    ensures per.value == 1.0 ==> Times(scalar, per).value == scalar.value
  {
    if scalar.value >= 0.0 && per.value >= 0.0 {
      NonNegativeProduct(scalar.value, per.value);
    }
  }

  /** Round trip: the per-person share, tagged per person, totals to the
      original group amount; and a group amount's share is the input's share. */
  lemma PerPersonTotalRoundTrip(attendees: FormVariable, x: FormVariable)
    requires attendees.value != 0.0
    requires IsCostUnit(x.unit)
    ensures Total(attendees, FormVariable(PerPerson(attendees, x).value, CostPerPerson)).value
              == Total(attendees, x).value
    ensures PerPerson(attendees, FormVariable(Total(attendees, x).value, CostPerGroup)).value
              == PerPerson(attendees, x).value
  {
    DivisionCancels(x.value, attendees.value);
  }

  lemma DivisionCancels(v: real, a: real)
    requires a != 0.0
    ensures (v / a) * a == v && (v * a) / a == v
  {
  }

  lemma NonNegativeProduct(x: real, y: real)
    requires x >= 0.0 && y >= 0.0
    ensures x * y >= 0.0
  {
  }

  /** 100 miles at 0.50 a mile cost 50; a room count is not a distance. */
  lemma TimesExamples()
    ensures Times(FormVariable(100.0, Miles), FormVariable(0.50, CostPerMile)) == Ok(50.0)
    ensures Times(FormVariable(3.0, Rooms), FormVariable(0.50, CostPerMile)).Err?
    ensures Times(FormVariable(100.0, Miles), FormVariable(0.50, CostPerGroup)).Err?
  {
  }
}
