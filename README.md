# specflow expense form — a Dafny model

specflow is a one-page form (React, TypeScript) that estimates what an
organisation reimburses for a group trip. The user enters the number of
attendees, a registration fee, a hotel bill and its dates, and the
transportation costs: a flat fee, a distance with a cost per mile, and a
ticket price. Every cost line item is entered either per person or per group.
From these the page computes:

- the totals requested per person and for the group;
- the part each attendee pays out of pocket, by a six-tier policy rounded to a
  whole number;
- the total the organisation approves.

Amounts are typed into a digit-entry field that builds the number from the
right, one keystroke at a time.

The model has six modules:

- `Wrappers`: `Option` and a `Result` that works with `:-`. A thrown
  "invalid form variable unit" error becomes `Err(InvalidUnit)`.
- `LineItem` (src/components/LineItemInput.tsx): the unit enumeration, the
  per-unit spec table, and the fallbacks a line item applies to its optional
  properties (JavaScript `||` truthiness and `typeof … !== 'undefined'`).
- `Currency` (src/components/CurrencyInput.tsx): the digit-entry field.
  - The class `CurrencyInput` holds the scaled whole number `n = value × 10^d`.
  - Its `KeyDown` method follows `handleKeyDown` step by step:
    the guard, `toFixed(0)`, concatenation or `slice(0, -1)`, `new BN`, and
    division by `10^d`.
  - `KeyDown` is proved against the arithmetic transition `KeyTransition`: a
    taken digit gives `10n + k`, Backspace gives `n div 10`.
- `FormOps` (src/App.tsx, `createFormOps`): the unit-checked operators
  `TOTAL`, `PER_PERSON` and `TIMES`.
- `Policy` (src/App.tsx): `outOfPocket` and the `ROUND_UP` rounding of its
  result.
- `App` (src/App.tsx):
  - the transportation mode table;
  - the `sum` fold and the hotel-night count;
  - the totals pipeline, as one function `Compute` from the page's state to all
    of its derived values.

Decimal arithmetic of bignumber.js is modelled as exact `real`. Dates are whole
day numbers.

Facts about the code that the model keeps:

- The out-of-pocket amount is rounded with `BN.ROUND_UP`, away from zero.
- `LineItemUnit.PerMile` (src/App.tsx:75, 140, 343) names no member of the
  enumeration. It is read as `CostPerMile`, the one per-mile unit.
- The per-person request adds registration, hotel and the fixed and ticket
  transportation shares. The distance cost is not shared out.
- The distance is priced once, as entered.
- The hotel cost is the amount entered on its line item. The hotel nights are
  computed for display only and enter no total.

## Model

| member | source | states |
|---|---|---|
| LineItem.SpecOf | src/components/LineItemInput.tsx:42-98 | every table entry is filed under its own unit; only the two cost units have a unit icon and no tag; decimal places are 0 exactly for people, rooms and nights, absent exactly for the cost units and the per-room rate, and never more than 2 |
| LineItem.DecimalPlacesTable | src/components/LineItemInput.tsx:55-97 | Miles 1, CostPerMile 2, Rooms/Persons/Nights 0; CostPerPerson, CostPerGroup and CostPerRoomPerNight fix none |
| LineItem.SelectableUnits | src/components/LineItemInput.tsx:105 | a given unit list, even an empty one, is used as it is; without one the choice is exactly per person and per group |
| LineItem.AllUnitSpecs | src/components/LineItemInput.tsx:106 | one spec per selectable unit, in order, the i-th filed under the i-th unit |
| LineItem.EffectiveTag | src/components/LineItemInput.tsx:108 | a non-empty tag prop wins; a missing or empty one falls back to the unit's tag, which is then absent exactly for the two cost units |
| LineItem.EffectiveIconInput | src/components/LineItemInput.tsx:109 | a non-empty icon prop wins; a missing or empty one falls back to the unit's icon, which is then absent exactly for rooms |
| LineItem.EffectiveDecimalPlaces | src/components/LineItemInput.tsx:130-133 | a defined override wins, zero included; else the unit's value; the result is undefined exactly when there is no override and the unit fixes none |
| Currency.Pow10 | src/components/CurrencyInput.tsx:45 | `decimalShift`, 10^d, is at least 1; it has no other contract, and `ScaledIsRepresentable` states what the field does with it |
| Currency.ValidFirst | src/components/CurrencyInput.tsx:16 | a predicate with no contract: the key is exactly one digit 1-9; `ZeroTakesOnlyNonZeroDigits` states its effect |
| Currency.ValidNext | src/components/CurrencyInput.tsx:17 | a predicate with no contract: the key is exactly one digit 0-9; `NonZeroIgnoresStrayKeys` and `DigitAppends` state its effect |
| Currency.Ignored | src/components/CurrencyInput.tsx:39-44 | a predicate with no contract: the early-return guard; `ZeroTakesOnlyNonZeroDigits` and `NonZeroIgnoresStrayKeys` state exactly when it holds |
| Currency.KeyTransition | src/components/CurrencyInput.tsx:39-55 | no contract of its own: a keystroke's effect on the scaled value; its laws are `DigitAppends`, `BackspaceDrops`, `DigitThenBackspaceRestores` and `TypingDigitsEntersNumber`, and `KeyDown` is proved against it |
| Currency.ParseDigits | src/components/CurrencyInput.tsx:50-53 | `new BN` of a digit string is below 10 to the string's length; `ParseDecimalString` and `ParseAppendDigit` state how it reads digits |
| Currency.PlacesOrZero | src/components/CurrencyInput.tsx:34 | missing decimal places mean 0; given ones are kept |
| Currency.DecimalString | src/components/CurrencyInput.tsx:46 | `toFixed(0)` of a whole number is a non-empty digit string with no leading zero unless the number is 0 |
| Currency.DecimalStringAppend | src/components/CurrencyInput.tsx:46-50 | for n > 0, the digits of 10n + k are those of n followed by the digit k |
| Currency.DecimalStringDropLast | src/components/CurrencyInput.tsx:51-53 | for n ≥ 10, the digits of n less the last one are the digits of n div 10 |
| Currency.ParseDecimalString | src/components/CurrencyInput.tsx:46-50 | reading back with `new BN` the digits `toFixed(0)` wrote gives the number again |
| Currency.ZeroTakesOnlyNonZeroDigits | src/components/CurrencyInput.tsx:39-44 | at zero a key is ignored if and only if it is not a single digit 1-9, so '0' and Backspace are ignored |
| Currency.NonZeroIgnoresStrayKeys | src/components/CurrencyInput.tsx:41-44 | away from zero a key is ignored if and only if it is neither a single digit nor Backspace (key code 8) |
| Currency.DigitAppends | src/components/CurrencyInput.tsx:45-55 | a taken non-Backspace key is one digit k, turns n into 10n + k, and its digit string gains k at the right |
| Currency.BackspaceDrops | src/components/CurrencyInput.tsx:51-55 | away from zero Backspace turns n into n div 10; a single digit becomes 0 |
| Currency.DigitThenBackspaceRestores | src/components/CurrencyInput.tsx:45-55 | Backspace right after a taken digit restores the value before the digit |
| Currency.TypingDigitsEntersNumber | src/components/CurrencyInput.tsx:36-59 | typing the digits of any m ≥ 1 into an empty field, one keystroke after another, enters m |
| Currency.TypeKeysAppend | src/components/CurrencyInput.tsx:36-59 | feeding two runs of keystrokes is feeding the first and then the second |
| Currency.ScaledIsRepresentable | src/components/CurrencyInput.tsx:55 | n / 10^d is non-negative, a whole multiple of 10^-d, scales back to n, and is 0 only for n = 0 |
| Currency.CurrencyInput.Value | src/components/CurrencyInput.tsx:55 | the held value is representable with d places and is the scaled number divided by 10^d |
| Currency.CurrencyInput.constructor | src/components/CurrencyInput.tsx:34 | a new field holds 0, with places `decimalPlaces \|\| 0` |
| Currency.CurrencyInput.KeyDown | src/components/CurrencyInput.tsx:36-59 | an ignored key emits nothing and changes nothing; a taken key sets the scaled value to the digit transition and emits the new value; every emitted value is non-negative and a multiple of 10^-d |
| FormOps.Total | src/App.tsx:50-60 | succeeds exactly for the two cost units, and returns a per-group amount as entered |
| FormOps.PerPerson | src/App.tsx:62-72 | succeeds exactly for the two cost units, and returns a per-person amount as entered |
| FormOps.Times | src/App.tsx:74-80 | succeeds exactly for miles times a per-mile cost; `TimesProperties` states the amount |
| FormOps.PerPersonTimesCount | src/App.tsx:50-72 | for a cost unit, the share times the attendee count is `TOTAL` of the same item |
| FormOps.SingleAttendee | src/App.tsx:50-72 | with one attendee, both `TOTAL` and `PER_PERSON` of a cost item return the amount as entered |
| FormOps.OperatorsNonNegative | src/App.tsx:50-72 | for non-negative entries, `TOTAL` and `PER_PERSON` return non-negative amounts |
| FormOps.TimesProperties | src/App.tsx:74-80 | for miles and a per-mile cost the amount is the distance times the rate; it is non-negative for non-negative entries, and a rate of 1 returns the distance |
| FormOps.TotalAndPerPersonRejectAlike | src/App.tsx:50-72 | `TOTAL` fails if and only if `PER_PERSON` fails, and that is exactly for every unit other than the two cost units |
| FormOps.PerPersonTotalRoundTrip | src/App.tsx:50-72 | with attendees, the share re-entered per person totals to the item's total, and the total re-entered per group has the item's share |
| FormOps.TimesExamples | src/App.tsx:74-80 | 100 miles at 0.50 is 50; a count of rooms, or a per-group rate, is rejected |
| Policy.OutOfPocket | src/App.tsx:83-107 | for a non-negative request the result lies between 0 and the request, and the organisation never covers more than 600 |
| Policy.OutOfPocketBoundaryValues | src/App.tsx:83-107 | the values on both sides of each threshold: 9.99, 10, 24.99, 25, 34.99, 35, 99.99, 100, 699.99 and 700 |
| Policy.OutOfPocketMonotoneFrom35 | src/App.tsx:97-106 | from 35 on the result never decreases, and it grows by no more than the request does |
| Policy.OutOfPocketPiecesMeet | src/App.tsx:98-106 | both adjacent pieces give the same value at 100 and at 700 |
| Policy.OutOfPocketDropsLessThanFive | src/App.tsx:83-107 | a larger request is never charged 5 or more less than a smaller one |
| Policy.CoverageCapped | src/App.tsx:106 | from 700 on exactly 600 is covered |
| Policy.RoundUp | src/App.tsx:170-172 | rounding to 0 places away from zero: the ceiling for a non-negative value, the floor for a negative one |
| Policy.RoundUpWhole | src/App.tsx:170-172 | a whole number is kept as it is |
| Policy.RoundedOutOfPocketBounds | src/App.tsx:170-172 | for a non-negative request the rounded out-of-pocket amount is a whole number from the raw value up to less than one more, between 0 and the request rounded up, and 0 for 0 |
| App.TransportationSpec | src/App.tsx:35-43 | each mode's inputs are distinct; a rental's come as distance then flat fee, and Other's as flat fee, distance, ticket; N/A alone has none; ticket exactly for airplane, train, bus and other; flat fee exactly for rental, charter and other; distance exactly for rental and other |
| App.TravelReimbursement | src/App.tsx:45 | the displayed reimbursement (src/App.tsx:334): the distance priced at 0.435 a mile, as `TIMES` prices miles, and never more than the distance |
| App.Sum | src/App.tsx:117 | no contract of its own: the left fold from 0; its laws are `SumOfThree`, `SumConcat` and `SumNonNegative` |
| App.SumOfThree | src/App.tsx:117 | the fold of three values is their sum |
| App.SumConcat | src/App.tsx:117 | folding a concatenation adds the folds of the parts |
| App.SumNonNegative | src/App.tsx:117 | a fold of non-negative amounts is non-negative and at least each amount |
| App.HotelNights | src/App.tsx:144-147 | never negative; 0 exactly when no date is set; 1 when one is; with both, at least 1 and at least the days between, exactly those days when there is at least one, and 1 when there is none |
| App.HotelNightsExamples | src/App.tsx:144-147 | no range, an empty range, one date, equal dates, five days apart, and reversed dates |
| App.Requested | src/App.tsx:152-179 | an item's `TOTAL` and `PER_PERSON` succeed together, exactly for the cost units, and the amount holds both results |
| App.RequestedSplits | src/App.tsx:152-179 | a requested item's share times the attendee count is its total |
| App.Assemble | src/App.tsx:152-193 | no contract of its own: the arithmetic once every operator has returned; `AssembleReads`, `AssembleReadsParts` and `AssembleSplits` state its values |
| App.AssembleReads | src/App.tsx:152-193 | the nights, the distance cost, the totals, the rounded out-of-pocket amounts, the fixed part and the approved total, with the `sum` folds written out as additions |
| App.AssembleReadsParts | src/App.tsx:157-179 | the transportation, registration and hotel shares, and the registration and hotel totals |
| App.AssembleSplits | src/App.tsx:152-193 | when every share times the attendee count is its total, the grand request is the per-person request for every attendee plus the distance cost |
| App.Compute | src/App.tsx:149-193 | the pipeline fails exactly when some item has a unit its operator rejects |
| App.ComputeIsAssemble | src/App.tsx:149-193 | on success the totals are assembled from the hotel nights, the `TIMES` result and the four requested items |
| App.FixedVariableSplit | src/App.tsx:152-188 | on success the grand request is the fixed part, the per-person request for every attendee, plus the variable part, the distance cost |
| App.ComputeReadsOperators | src/App.tsx:144-184 | on success: the night count, the distance cost from `TIMES`, the transportation total and the grand request as sums of `TOTAL`s, and the per-person request as the sum of the four shares; the transportation, registration and hotel shares as `PER_PERSON`s, and the registration and hotel totals as `TOTAL`s |
| App.ApprovedTotal | src/App.tsx:170-193 | on success the per-person out-of-pocket is the policy's value rounded up, the group's is that times the attendees, the approved total is the request less it, and the fixed part is the per-person request times the attendees |
| App.ApprovedSplit | src/App.tsx:165-193 | on success the approved total is the per-person request times the attendees, less the out-of-pocket amount times the attendees, plus the distance cost |
| App.InitialInputs | src/App.tsx:130-142 | the `useState` defaults use only units the page offers and divide by no zero count |
| App.FormNeverThrows | src/App.tsx:130-142 | with the units the page's line items offer (the unit lists at src/App.tsx:271, 319 and 343, the default list elsewhere), no operator throws |
| App.ComputeIgnoresMode | src/App.tsx:152-155 | the totals do not depend on the transportation mode, which only decides which inputs are shown (src/App.tsx:294) |
| App.TotalsBounds | src/App.tsx:165-193 | for non-negative entries: the per-person request is non-negative; its out-of-pocket part is a whole number from the raw policy value up to less than one more; requested and out-of-pocket totals are non-negative; no more than requested is approved |
| App.InitialTotalsAreZero | src/App.tsx:130-142 | the initial state has no unit error and the nights, per-person request, out-of-pocket amount, grand request and approved total are all 0 |
| App.RentalExample | src/App.tsx:149-193 | for `RentalInputs`, four attendees with a rental: 185 requested per person, 36 out of pocket, 790 requested, 646 approved, 3 nights |
| App.ApprovedMayBeNegative | src/App.tsx:170-193 | two attendees sharing a 19.00 registration request 9.50 each and owe 10 each, so -1.00 is approved |

## Left out

- Rendering and state wiring: `useState`, `injectHooks` (src/App.tsx:109-115) and all JSX. The page's state is the `Inputs` value and its derived values are what `Compute` returns.
- The `onValueChange` callback: `KeyDown` returns the emitted value and stores it as the held value, which is how the form hands it back.
- moment.js formatting and parsing (src/App.tsx:119-127), and the time-of-day and daylight-saving behaviour of `diff`: dates are whole day numbers.
- bignumber.js internals: the precision and rounding of `div`, and the `toFormat` display strings (src/components/CurrencyInput.tsx:64). Arithmetic is exact `real`.
- The 20-place rounding of `div` can change the rounded out-of-pocket amount by a whole unit. Take 3 attendees with a fixed fee of 200, a ticket of 20 and a hotel bill of 200, all per group. The exact share is 140, and its out-of-pocket amount is 30. The library's share is 140.00000000000000000001, whose out-of-pocket amount 30.00000000000000000000125 rounds up to 31. The model gives 30.
- FormOps.PerPerson: division by zero. With no attendees a per-group item makes the library return Infinity or NaN, and the code has no guard. The model requires a non-zero count for a per-group item (`App.DivisionDefined`).
- The `max` prop of the currency field (src/components/CurrencyInput.tsx:23, 58), which only appears in a dependency list.
- `MomentDateRange`, which is not part of this model.
- The option labels `TRANSPORTATION_OPTIONS` and the unit labels, icons and padding, beyond the table itself; `paddingRight` falls back to 3.5em only for styling.
- Currency.CurrencyInput.KeyDown: the key event's other fields, and key codes from the numeric keypad. A digit key is taken from `key`, and only its code is compared with 8.
- Currency.PlacesOrZero: negative, fractional or NaN decimal places. The count is a `nat`.
- LineItem.EffectiveTag: a non-string React node as a tag. Tags are strings.
