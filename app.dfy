/** The expense form's totals (src/App.tsx): the transportation mode table,
    the hotel nights, and the pipeline from the entered line items to the
    requested, out-of-pocket and approved totals. */
module App {
  import opened Wrappers
  import opened LineItem
  import opened FormOps
  import opened Policy

  /** `TransportationMode`; its `None` member (shown as 'N/A') is `NotApplicable` here. */
  datatype TransportationMode = NotApplicable | Airplane | Train | Bus | Rental | Charter | Custom

  /** `TransportationFormula`: 'ticket' | 'variable' | 'fixed' */
  datatype TransportationFormula = Ticket | Variable | Fixed

  /** `TRANSPORTATION_SPEC[mode]`: the transportation inputs the form shows
      for a mode, in order, each at most once. Ticketed modes ask for a
      ticket, a rental for a distance and a flat fee, a charter for a flat
      fee, 'Other' for all three and 'N/A' for none. */
  function TransportationSpec(mode: TransportationMode): (r: seq<TransportationFormula>)
    ensures forall i, j :: 0 <= i < j < |r| ==> r[i] != r[j]
    ensures r == [] <==> mode == NotApplicable
    ensures Ticket in r <==> mode == Airplane || mode == Train || mode == Bus || mode == Custom
    ensures Fixed in r <==> mode == Rental || mode == Charter || mode == Custom
    ensures Variable in r <==> mode == Rental || mode == Custom
    ensures mode == Rental ==> r == [Variable, Fixed]
    ensures mode == Custom ==> r == [Fixed, Variable, Ticket]
  {
    match mode
    case Airplane => [Ticket]
    case Train => [Ticket]
    case Bus => [Ticket]
    case Rental => [Variable, Fixed]
    case Charter => [Fixed]
    case Custom => [Fixed, Variable, Ticket]
    case NotApplicable => []
  }

  /** `TRAVEL_REIMBUSRMENT_PER_MILE` */
  const TravelReimbursementPerMile: real := 0.435

  /** The travel reimbursement the form displays beside the distance:
      the distance priced at the policy rate, as `TIMES` would price it, and
      never more than the distance itself. It is not part of any total. */
  function TravelReimbursement(distance: FormVariable): (r: real)
    ensures distance.unit == Miles ==>
              Times(distance, FormVariable(TravelReimbursementPerMile, CostPerMile)).value == r
    ensures distance.value >= 0.0 ==> 0.0 <= r <= distance.value
  {
    distance.value * TravelReimbursementPerMile
  }

  /** `sum(...values)`: `values.reduce((total, x) => total.plus(x), new BN(0))`,
      a fold from the left starting at 0. */
  function Sum(values: seq<real>): real {
    if values == [] then 0.0 else Sum(values[..|values| - 1]) + values[|values| - 1]
  }

  /** The fold of three values is their sum. */
  lemma SumOfThree(x: real, y: real, z: real)
    ensures Sum([x, y, z]) == x + y + z
  {
    assert [x, y, z][..2] == [x, y];
    assert [x, y][..1] == [x];
    assert [x][..0] == [];
    assert Sum([x]) == x;
    assert Sum([x, y]) == x + y;
  }

  /** Summing a concatenation sums the parts. */
  lemma {:induction false} SumConcat(a: seq<real>, b: seq<real>)
    ensures Sum(a + b) == Sum(a) + Sum(b)
    decreases |b|
  {
    if b == [] {
      assert a + b == a;
    } else {
      assert (a + b)[..|a + b| - 1] == a + b[..|b| - 1];
      SumConcat(a, b[..|b| - 1]);
    }
  }

  /** A sum of non-negative amounts is non-negative and bounds each of them. */
  lemma {:induction false} SumNonNegative(values: seq<real>)
    requires forall i :: 0 <= i < |values| ==> values[i] >= 0.0
    ensures Sum(values) >= 0.0
    ensures forall i :: 0 <= i < |values| ==> values[i] <= Sum(values)
  {
    if values != [] {
      SumNonNegative(values[..|values| - 1]);
      assert forall i :: 0 <= i < |values| - 1 ==> values[..|values| - 1][i] == values[i];
    }
  }

  /** A date as a whole day number. */
  type Day = int

  /** The hotel date range; either end may be unset. */
  datatype DateRange = DateRange(checkIn: Option<Day>, checkOut: Option<Day>)

  function Max(a: int, b: int): int {
    if a >= b then a else b
  }

  /** `hotelNights`: no night without dates, one night when only one date is
      set, and otherwise the days between the dates but at least one. */
  function HotelNights(range: Option<DateRange>): (nights: int)
    ensures nights >= 0
    ensures nights == 0 <==> range.None? || (range.value.checkIn.None? && range.value.checkOut.None?)
    ensures range.Some? && range.value.checkIn.Some? != range.value.checkOut.Some? ==> nights == 1
    ensures range.Some? && range.value.checkIn.Some? && range.value.checkOut.Some? ==>
              var days := range.value.checkOut.value - range.value.checkIn.value;
              nights >= 1 && nights >= days && (days >= 1 ==> nights == days) && (days < 1 ==> nights == 1)
  {
    if range.None? || (range.value.checkIn.None? && range.value.checkOut.None?) then 0
    else if range.value.checkIn.Some? != range.value.checkOut.Some? then 1
    else Max(1, range.value.checkOut.value - range.value.checkIn.value)
  }

  /** Nights for the usual shapes of a range around a day d. */
  lemma HotelNightsExamples(d: Day)
    ensures HotelNights(None) == 0
    ensures HotelNights(Some(DateRange(None, None))) == 0
    ensures HotelNights(Some(DateRange(None, Some(d)))) == 1
    ensures HotelNights(Some(DateRange(Some(d), None))) == 1
    ensures HotelNights(Some(DateRange(Some(d), Some(d)))) == 1
    ensures HotelNights(Some(DateRange(Some(d), Some(d + 5)))) == 5
    ensures HotelNights(Some(DateRange(Some(d + 5), Some(d)))) == 1
  {
  }

  /** The state the form holds, field by field as the page declares it. */
  datatype Inputs = Inputs(
    attendeesCount: FormVariable,
    registration: FormVariable,
    hotel: FormVariable,
    hotelDateRange: Option<DateRange>,
    transportationFixed: FormVariable,
    transportationDistance: FormVariable,
    transportationCostPerDistance: FormVariable,
    transportationTicket: FormVariable,
    transportationMode: TransportationMode)

  /** The page's initial state: every amount 0, the costs per person, no
      hotel dates, a rental vehicle. */
  function InitialInputs(): (inp: Inputs)
    ensures FormUnits(inp) && DivisionDefined(inp)
  {
    Inputs(
      FormVariable(0.0, Persons),
      FormVariable(0.0, CostPerPerson),
      FormVariable(0.0, CostPerPerson),
      Some(DateRange(None, None)),
      FormVariable(0.0, CostPerPerson),
      FormVariable(0.0, Miles),
      FormVariable(0.0, CostPerMile),
      FormVariable(0.0, CostPerPerson),
      Rental)
  }

  /** Every value the page computes from its state. */
  datatype Totals = Totals(
    hotelNights: int,
    transportationVariable: real,
    totalTransportation: real,
    perPersonRequestedTransportation: real,
    perPersonRequestedRegistration: real,
    perPersonRequestedHotel: real,
    perPersonRequestedTotal: real,
    perPersonOutOfPocket: int,
    grandTotalOutOfPocket: real,
    totalRegistration: real,
    totalHotel: real,
    grandTotalRequested: real,
    totalRequestedVariable: real,
    totalRequestedFixed: real,
    grandTotalApproved: real)

  /** `PER_PERSON` divides a group cost by the attendee count: the form
      state must not ask it to divide by zero. */
  predicate DivisionDefined(inp: Inputs) {
    var noAttendees := inp.attendeesCount.value == 0.0;
    !(noAttendees && inp.transportationFixed.unit == CostPerGroup) &&
    !(noAttendees && inp.transportationTicket.unit == CostPerGroup) &&
    !(noAttendees && inp.registration.unit == CostPerGroup) &&
    !(noAttendees && inp.hotel.unit == CostPerGroup)
  }

  /** The units under which no operator of the pipeline throws. */
  predicate UnitsAccepted(inp: Inputs) {
    inp.transportationDistance.unit == Miles &&
    inp.transportationCostPerDistance.unit == CostPerMile &&
    IsCostUnit(inp.transportationFixed.unit) &&
    IsCostUnit(inp.transportationTicket.unit) &&
    IsCostUnit(inp.registration.unit) &&
    IsCostUnit(inp.hotel.unit)
  }

  /** The units the page's line items let the user pick: the attendee
      count only in persons, the distance only in miles, the cost per
      distance only per mile, every other item from the default list. */
  predicate FormUnits(inp: Inputs) {
    inp.attendeesCount.unit in SelectableUnits(Some([Persons])) &&
    inp.transportationDistance.unit in SelectableUnits(Some([Miles])) &&
    inp.transportationCostPerDistance.unit in SelectableUnits(Some([CostPerMile])) &&
    inp.transportationFixed.unit in SelectableUnits(None) &&
    inp.transportationTicket.unit in SelectableUnits(None) &&
    inp.registration.unit in SelectableUnits(None) &&
    inp.hotel.unit in SelectableUnits(None)
  }

  /** A cost line item read both ways: its group total (`TOTAL`) and its
      share per attendee (`PER_PERSON`). */
  datatype Amount = Amount(total: real, perPerson: real)

  /** `TOTAL(x)` and `PER_PERSON(x)` for one cost line item: both accept the
      same units, and the amount holds both results. */
  function Requested(attendees: FormVariable, x: FormVariable): (r: Result<Amount>)
    requires x.unit == CostPerGroup ==> attendees.value != 0.0
    ensures r.Ok? <==> IsCostUnit(x.unit)
    ensures r.Ok? ==> r.value.total == Total(attendees, x).value && r.value.perPerson == PerPerson(attendees, x).value
  {
    var total :- Total(attendees, x);
    // `PER_PERSON` accepts exactly what `TOTAL` accepted
    Ok(Amount(total, PerPerson(attendees, x).value))
  }

  /** The share of an amount, times the attendee count, is its total. */
  predicate Splits(attendees: real, m: Amount) {
    m.perPerson * attendees == m.total
  }

  /** A requested cost line item's share and total agree. */
  lemma RequestedSplits(attendees: FormVariable, x: FormVariable)
    requires IsCostUnit(x.unit)
    requires x.unit == CostPerGroup ==> attendees.value != 0.0
    ensures Splits(attendees.value, Requested(attendees, x).value)
  {
    PerPersonTimesCount(attendees, x);
  }

  /** The arithmetic of the page once every operator has returned: the
      transportation cost, the per-person request and its out-of-pocket part,
      and the grand totals. */
  function Assemble(hotelNights: int, transportationVariable: real, fixed: Amount, ticket: Amount,
                    registration: Amount, hotel: Amount, attendees: real): Totals
  {
    var totalTransportation := Sum([fixed.total, ticket.total, transportationVariable]);
    var perPersonRequestedTransportation := fixed.perPerson + ticket.perPerson;
    var perPersonRequestedTotal :=
      Sum([registration.perPerson, perPersonRequestedTransportation, hotel.perPerson]);
    var perPersonOutOfPocket := RoundUp(OutOfPocket(perPersonRequestedTotal));
    var grandTotalOutOfPocket := perPersonOutOfPocket as real * attendees;
    var grandTotalRequested := Sum([registration.total, totalTransportation, hotel.total]);
    var totalRequestedFixed := perPersonRequestedTotal * attendees;
    Totals(
      hotelNights, transportationVariable, totalTransportation,
      perPersonRequestedTransportation, registration.perPerson, hotel.perPerson,
      perPersonRequestedTotal, perPersonOutOfPocket, grandTotalOutOfPocket,
      registration.total, hotel.total, grandTotalRequested,
      transportationVariable, totalRequestedFixed, grandTotalRequested - grandTotalOutOfPocket)
  }

  /** `Assemble` field by field, with the folds written out as sums. */
  lemma AssembleReads(hotelNights: int, v: real, f: Amount, k: Amount, r: Amount, h: Amount, a: real)
    ensures var t := Assemble(hotelNights, v, f, k, r, h, a);
            && t.hotelNights == hotelNights
            && t.transportationVariable == v
            && t.totalRequestedVariable == v
            && t.totalTransportation == f.total + k.total + v
            && t.grandTotalRequested == r.total + (f.total + k.total + v) + h.total
            && t.perPersonRequestedTotal == r.perPerson + (f.perPerson + k.perPerson) + h.perPerson
            && t.perPersonOutOfPocket == RoundUp(OutOfPocket(t.perPersonRequestedTotal))
            && t.grandTotalOutOfPocket == t.perPersonOutOfPocket as real * a
            && t.grandTotalApproved == t.grandTotalRequested - t.grandTotalOutOfPocket
            && t.totalRequestedFixed == t.perPersonRequestedTotal * a
  {
    SumOfThree(f.total, k.total, v);
    SumOfThree(r.perPerson, f.perPerson + k.perPerson, h.perPerson);
    SumOfThree(r.total, f.total + k.total + v, h.total);
  }

  /** The displayed parts of `Assemble`: the transportation, registration
      and hotel shares, and the registration and hotel totals. */
  lemma AssembleReadsParts(hotelNights: int, v: real, f: Amount, k: Amount, r: Amount, h: Amount, a: real)
    ensures var t := Assemble(hotelNights, v, f, k, r, h, a);
            && t.perPersonRequestedTransportation == f.perPerson + k.perPerson
            && t.perPersonRequestedRegistration == r.perPerson
            && t.perPersonRequestedHotel == h.perPerson
            && t.totalRegistration == r.total
            && t.totalHotel == h.total
  {
  }

  /** When every share agrees with its total, the grand request is the
      per-person request for every attendee plus the distance cost, which
      is not shared out. */
  lemma AssembleSplits(hotelNights: int, v: real, f: Amount, k: Amount, r: Amount, h: Amount, a: real)
    requires Splits(a, f) && Splits(a, k) && Splits(a, r) && Splits(a, h)
    ensures var t := Assemble(hotelNights, v, f, k, r, h, a);
            t.grandTotalRequested == t.totalRequestedFixed + t.totalRequestedVariable
  {
    AssembleReads(hotelNights, v, f, k, r, h, a);
    SplitArithmetic(r.perPerson, f.perPerson, k.perPerson, h.perPerson, r.total, f.total, k.total, h.total, v, a);
  }

  /** Shares that multiply back to their totals add up to the totals' sum. */
  lemma SplitArithmetic(r: real, f: real, k: real, h: real, tr: real, tf: real, tk: real, th: real, v: real, a: real)
    requires r * a == tr && f * a == tf && k * a == tk && h * a == th
    ensures tr + (tf + tk + v) + th == (r + (f + k) + h) * a + v
  {
  }

  /** The page's totals, recomputed from its state; any operator that throws
      makes the whole computation fail, and none throws exactly when every
      line item carries a unit its operator accepts. */
  function Compute(inp: Inputs): (r: Result<Totals>)
    requires DivisionDefined(inp)
    ensures r.Ok? <==> UnitsAccepted(inp)
  {
    var attendees := inp.attendeesCount;
    var transportationVariable :- Times(inp.transportationDistance, inp.transportationCostPerDistance);
    var fixed :- Requested(attendees, inp.transportationFixed);
    var ticket :- Requested(attendees, inp.transportationTicket);
    var registration :- Requested(attendees, inp.registration);
    var hotel :- Requested(attendees, inp.hotel);
    Ok(Assemble(HotelNights(inp.hotelDateRange), transportationVariable, fixed, ticket, registration, hotel,
      attendees.value))
  }

  /** Once every unit is accepted, `Compute` is `Assemble` of the operators' results. */
  lemma ComputeIsAssemble(inp: Inputs)
    requires DivisionDefined(inp) && UnitsAccepted(inp)
    ensures var a := inp.attendeesCount;
            Compute(inp).value == Assemble(HotelNights(inp.hotelDateRange),
              Times(inp.transportationDistance, inp.transportationCostPerDistance).value,
              Requested(a, inp.transportationFixed).value, Requested(a, inp.transportationTicket).value,
              Requested(a, inp.registration).value, Requested(a, inp.hotel).value, a.value)
  {
  }

  /** No line item the page offers can make an operator throw. */
  lemma FormNeverThrows(inp: Inputs)
    requires FormUnits(inp) && DivisionDefined(inp)
    ensures Compute(inp).Ok?
  {
  }

  /** The mode decides only which inputs are shown: the totals are the same
      whatever mode is selected. */
  lemma ComputeIgnoresMode(inp: Inputs, mode: TransportationMode)
    requires DivisionDefined(inp)
    ensures DivisionDefined(inp.(transportationMode := mode))
    ensures Compute(inp.(transportationMode := mode)) == Compute(inp)
  {
  }

  /** The grand request splits into the fixed part, the per-person request
      for every attendee, and the variable part, the distance cost. */
  lemma FixedVariableSplit(inp: Inputs)
    requires DivisionDefined(inp) && UnitsAccepted(inp)
    ensures var t := Compute(inp).value;
            t.grandTotalRequested == t.totalRequestedFixed + t.totalRequestedVariable
  {
    var a := inp.attendeesCount;
    ComputeIsAssemble(inp);
    RequestedSplits(a, inp.transportationFixed);
    RequestedSplits(a, inp.transportationTicket);
    RequestedSplits(a, inp.registration);
    RequestedSplits(a, inp.hotel);
    AssembleSplits(HotelNights(inp.hotelDateRange),
      Times(inp.transportationDistance, inp.transportationCostPerDistance).value,
      Requested(a, inp.transportationFixed).value, Requested(a, inp.transportationTicket).value,
      Requested(a, inp.registration).value, Requested(a, inp.hotel).value, a.value);
  }

  /** The totals in terms of the operators: the grand request is every
      group total plus the distance cost, and the per-person request is
      every share. */
  lemma ComputeReadsOperators(inp: Inputs)
    requires DivisionDefined(inp) && UnitsAccepted(inp)
    ensures var a := inp.attendeesCount;
            var t := Compute(inp).value;
            && t.hotelNights == HotelNights(inp.hotelDateRange)
            && t.transportationVariable == Times(inp.transportationDistance, inp.transportationCostPerDistance).value
            && t.totalTransportation == Total(a, inp.transportationFixed).value
                 + Total(a, inp.transportationTicket).value + t.transportationVariable
            && t.grandTotalRequested == Total(a, inp.registration).value + t.totalTransportation
                 + Total(a, inp.hotel).value
            && t.perPersonRequestedTotal == PerPerson(a, inp.registration).value
                 + PerPerson(a, inp.transportationFixed).value + PerPerson(a, inp.transportationTicket).value
                 + PerPerson(a, inp.hotel).value
            && t.perPersonRequestedTransportation == PerPerson(a, inp.transportationFixed).value
                 + PerPerson(a, inp.transportationTicket).value
            && t.perPersonRequestedRegistration == PerPerson(a, inp.registration).value
            && t.perPersonRequestedHotel == PerPerson(a, inp.hotel).value
            && t.totalRegistration == Total(a, inp.registration).value
            && t.totalHotel == Total(a, inp.hotel).value
  {
    var a := inp.attendeesCount;
    ComputeIsAssemble(inp);
    AssembleReads(HotelNights(inp.hotelDateRange),
      Times(inp.transportationDistance, inp.transportationCostPerDistance).value,
      Requested(a, inp.transportationFixed).value, Requested(a, inp.transportationTicket).value,
      Requested(a, inp.registration).value, Requested(a, inp.hotel).value, a.value);
    AssembleReadsParts(HotelNights(inp.hotelDateRange),
      Times(inp.transportationDistance, inp.transportationCostPerDistance).value,
      Requested(a, inp.transportationFixed).value, Requested(a, inp.transportationTicket).value,
      Requested(a, inp.registration).value, Requested(a, inp.hotel).value, a.value);
  }

  /** The out-of-pocket part per attendee is the policy's value of the
      per-person request, rounded up; the group's is that for every attendee;
      the approved total is the request less the group's part. */
  lemma ApprovedTotal(inp: Inputs)
    requires DivisionDefined(inp) && UnitsAccepted(inp)
    ensures var t := Compute(inp).value;
            && t.perPersonOutOfPocket == RoundUp(OutOfPocket(t.perPersonRequestedTotal))
            && t.grandTotalOutOfPocket == t.perPersonOutOfPocket as real * inp.attendeesCount.value
            && t.grandTotalApproved == t.grandTotalRequested - t.grandTotalOutOfPocket
            && t.totalRequestedFixed == t.perPersonRequestedTotal * inp.attendeesCount.value
  {
    var a := inp.attendeesCount;
    var hn := HotelNights(inp.hotelDateRange);
    var v := Times(inp.transportationDistance, inp.transportationCostPerDistance).value;
    var f := Requested(a, inp.transportationFixed).value;
    var k := Requested(a, inp.transportationTicket).value;
    var r := Requested(a, inp.registration).value;
    var h := Requested(a, inp.hotel).value;
    ComputeIsAssemble(inp);
    assert Compute(inp).value == Assemble(hn, v, f, k, r, h, a.value);
    AssembleReads(hn, v, f, k, r, h, a.value);
  }

  /** What is approved is the uncovered share, the per-person request less
      its out-of-pocket part, for every attendee, plus the distance cost,
      which is never charged out of pocket. */
  lemma ApprovedSplit(inp: Inputs)
    requires DivisionDefined(inp) && UnitsAccepted(inp)
    ensures var t := Compute(inp).value;
            var a := inp.attendeesCount.value;
            t.grandTotalApproved == t.perPersonRequestedTotal * a - t.perPersonOutOfPocket as real * a
                                      + t.totalRequestedVariable
  {
    ApprovedTotal(inp);
    FixedVariableSplit(inp);
  }

  /** Amounts and counts the form can hold are never negative. */
  predicate NonNegativeInputs(inp: Inputs) {
    inp.attendeesCount.value >= 0.0 &&
    inp.registration.value >= 0.0 &&
    inp.hotel.value >= 0.0 &&
    inp.transportationFixed.value >= 0.0 &&
    inp.transportationDistance.value >= 0.0 &&
    inp.transportationCostPerDistance.value >= 0.0 &&
    inp.transportationTicket.value >= 0.0
  }

  /** With non-negative entries: the per-person out-of-pocket amount is a
      whole number from the policy's raw value up to less than one more, no
      total is negative, and nothing more than requested is approved. */
  lemma TotalsBounds(inp: Inputs)
    requires DivisionDefined(inp) && UnitsAccepted(inp) && NonNegativeInputs(inp)
    ensures var t := Compute(inp).value;
            && t.perPersonRequestedTotal >= 0.0
            && OutOfPocket(t.perPersonRequestedTotal) <= t.perPersonOutOfPocket as real
            && t.perPersonOutOfPocket as real < OutOfPocket(t.perPersonRequestedTotal) + 1.0
            && t.perPersonOutOfPocket >= 0
            && t.grandTotalRequested >= 0.0
            && t.grandTotalOutOfPocket >= 0.0
            && t.grandTotalApproved <= t.grandTotalRequested
  {
    var a := inp.attendeesCount;
    var t := Compute(inp).value;
    ComputeIsAssemble(inp);
    AssembleReads(HotelNights(inp.hotelDateRange),
      Times(inp.transportationDistance, inp.transportationCostPerDistance).value,
      Requested(a, inp.transportationFixed).value, Requested(a, inp.transportationTicket).value,
      Requested(a, inp.registration).value, Requested(a, inp.hotel).value, a.value);
    OperatorsNonNegative(a, inp.transportationFixed);
    OperatorsNonNegative(a, inp.transportationTicket);
    OperatorsNonNegative(a, inp.registration);
    OperatorsNonNegative(a, inp.hotel);
    TimesProperties(inp.transportationDistance, inp.transportationCostPerDistance);
    RoundedOutOfPocketBounds(t.perPersonRequestedTotal);
    NonNegativeProduct(t.perPersonOutOfPocket as real, a.value);
  }

  /** The page's first render: no unit error, and every total is 0. */
  lemma InitialTotalsAreZero()
    ensures DivisionDefined(InitialInputs())
    ensures Compute(InitialInputs()).Ok?
    ensures var t := Compute(InitialInputs()).value;
            t.hotelNights == 0 && t.perPersonRequestedTotal == 0.0 && t.perPersonOutOfPocket == 0 &&
            t.grandTotalRequested == 0.0 && t.grandTotalApproved == 0.0
  {
    var inp := InitialInputs();
    var none := Amount(0.0, 0.0);
    ComputeIsAssemble(inp);
    assert Times(inp.transportationDistance, inp.transportationCostPerDistance).value == 0.0;
    assert Requested(inp.attendeesCount, inp.registration).value == none;
    assert Compute(inp).value == Assemble(0, 0.0, none, none, none, none, 0.0);
    AssembleReads(0, 0.0, none, none, none, none, 0.0);
  }

  /** Four attendees, a 50.00 registration and a 20.00 flat fee per person,
      100 miles at 0.50 and a 460.00 hotel bill for the group, three nights. */
  function RentalInputs(): (inp: Inputs)
    ensures FormUnits(inp) && DivisionDefined(inp)
  {
    Inputs(
      FormVariable(4.0, Persons), FormVariable(50.0, CostPerPerson), FormVariable(460.0, CostPerGroup),
      Some(DateRange(Some(0), Some(3))), FormVariable(20.0, CostPerPerson), FormVariable(100.0, Miles),
      FormVariable(0.50, CostPerMile), FormVariable(0.0, CostPerPerson), Rental)
  }

  /** For `RentalInputs`: 185.00 is requested per person (the distance cost
      is not shared out), 790.00 in all, the out-of-pocket 35.625 rounds up
      to 36, and 646.00 is approved. */
  lemma RentalExample()
    ensures Compute(RentalInputs()).Ok?
    ensures var t := Compute(RentalInputs()).value;
            && t.hotelNights == 3
            && t.perPersonRequestedTotal == 185.0
            && t.perPersonOutOfPocket == 36
            && t.grandTotalRequested == 790.0
            && t.grandTotalApproved == 646.0
  {
    var inp := RentalInputs();
    var fixed := Amount(80.0, 20.0);
    var ticket := Amount(0.0, 0.0);
    var registration := Amount(200.0, 50.0);
    var hotel := Amount(460.0, 115.0);
    ComputeIsAssemble(inp);
    assert Times(inp.transportationDistance, inp.transportationCostPerDistance).value == 50.0;
    assert Requested(inp.attendeesCount, inp.transportationFixed).value == fixed;
    assert Requested(inp.attendeesCount, inp.transportationTicket).value == ticket;
    assert Requested(inp.attendeesCount, inp.registration).value == registration;
    assert Requested(inp.attendeesCount, inp.hotel).value == hotel;
    assert Compute(inp).value == Assemble(3, 50.0, fixed, ticket, registration, hotel, 4.0);
    AssembleReads(3, 50.0, fixed, ticket, registration, hotel, 4.0);
    assert OutOfPocket(185.0) == 35.625;
  }

  /** Two attendees sharing a 19.00 registration, with nothing else entered. */
  function SharedRegistrationInputs(): (inp: Inputs)
    ensures FormUnits(inp) && DivisionDefined(inp)
  {
    Inputs(
      FormVariable(2.0, Persons), FormVariable(19.0, CostPerGroup), FormVariable(0.0, CostPerPerson),
      None, FormVariable(0.0, CostPerPerson), FormVariable(0.0, Miles),
      FormVariable(0.0, CostPerMile), FormVariable(0.0, CostPerPerson), NotApplicable)
  }

  /** Rounding up lets the out-of-pocket amount pass the request: for
      `SharedRegistrationInputs` each attendee requests 9.50 and owes 10,
      so -1.00 is approved. */
  lemma ApprovedMayBeNegative()
    ensures Compute(SharedRegistrationInputs()).Ok?
    ensures var t := Compute(SharedRegistrationInputs()).value;
            && t.perPersonRequestedTotal == 9.5
            && t.perPersonOutOfPocket == 10
            && t.grandTotalApproved == -1.0
  {
    var inp := SharedRegistrationInputs();
    var none := Amount(0.0, 0.0);
    var registration := Amount(19.0, 9.5);
    assert UnitsAccepted(inp);
    ComputeIsAssemble(inp);
    assert Requested(inp.attendeesCount, inp.registration).value == registration by {
      assert 19.0 / 2.0 == 9.5;
    }
    assert Compute(inp).value == Assemble(0, 0.0, none, none, registration, none, 2.0);
    SharedRegistrationTotals();
  }

  /** The arithmetic of the example above, once the operators have returned. */
  lemma SharedRegistrationTotals()
    ensures var none := Amount(0.0, 0.0);
            var t := Assemble(0, 0.0, none, none, Amount(19.0, 9.5), none, 2.0);
            t.perPersonRequestedTotal == 9.5 && t.perPersonOutOfPocket == 10 && t.grandTotalApproved == -1.0
  {
    var none := Amount(0.0, 0.0);
    AssembleReads(0, 0.0, none, none, Amount(19.0, 9.5), none, 2.0);
    assert OutOfPocket(9.5) == 9.5;
    assert RoundUp(9.5) == 10;
  }
}
