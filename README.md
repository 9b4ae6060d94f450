# Taxi fare calculator — Dafny model

This project models the core of a small taxi fare calculator, a single web
page that prices a trip. A trip has a distance in kilometres, a tariff tier
and three optional extras: a child seat, a trunk, and pick-up in a different
district. The fare is a base cost of 200 plus 30 per kilometre. Each extra
adds a flat surcharge (100, 50 and 200). The sum is then multiplied by the
tier's factor from a fixed five-entry table (econom 1.0, standart 1.2,
dorogoi 1.5, premium 2.0, o4en_dorogoi 2.5). A tariff outside the table is
charged with factor 1.0.

- `fare.dfy`, module `Fare`: the constants, the `Trip` record, the tariff
  table `TariffMultipliers`, and `Multiplier`, a switch over the tier names
  proved to agree with a lookup in the table that falls back to 1.0. The
  specification is `Surcharges`, `Subtotal` and `Cost`. `CalculateCost` is
  the calculator's `calculateCost`, a step-by-step accumulation into a
  running total, proved equal to `Cost`. Lemmas state the table's shape, the formula for known tiers,
  the fallback, additive surcharges, lower bounds, monotonicity in distance,
  when two tariffs price alike, and three worked fares.
- `form.dfy`, module `Form`: the handler's reading of the posted fields into
  a `Trip`. Each checkbox is ticked exactly when its value is `"on"`. The
  tariff is copied as posted. A distance that is not a well-formed number
  becomes 0. `Submit` describes what the page's own form posts for a trip
  and is proved to decode back to that trip; `SubmitDecode` gives the other
  direction of the round trip. `Quote` is the handler's
  decode-then-price step.

Distances and money are Dafny `real`, an exact-arithmetic idealisation of Go's `float64`.
A factor such as 1.2 is exact here but not in binary floating point.

## Model

| member | source | states |
|---|---|---|
| Fare.Multiplier | main.go:26-49 | The factor is the table entry for a known tariff and exactly 1.0 for any other string; it is never below 1.0 |
| Fare.Surcharges | main.go:36-44 | The extras add between 0 and 350; nothing is added exactly when no box is set, and 350 exactly when all three are |
| Fare.CalculateCost | main.go:25-53 | The running total (base plus distance charge, each chosen surcharge, then the looked-up multiplier with its 1.0 fallback) equals the fare `Cost` of the trip, for every trip: no precondition, no failure |
| Fare.TariffTableShape | main.go:26-32 | The table has exactly the keys econom, standart, dorogoi, premium, o4en_dorogoi and the multipliers 1.0, 1.2, 1.5, 2.0, 2.5 |
| Fare.KnownTariffNoExtras | main.go:34-50 | For a tariff in the table and no extras, the fare is (200 + 30 * distance) times that tariff's multiplier |
| Fare.UnknownTariffIsEconom | main.go:46-49 | A tariff outside the table gets multiplier 1.0 and the same fare as "econom" |
| Fare.SurchargesAdditive | main.go:36-44 | Child seat adds 100, trunk 50, different district 200 to the pre-multiplier total, each independently of the others; all three add 350 |
| Fare.CostAtLeastSubtotal | main.go:46-50 | When the pre-multiplier total is non-negative, the fare is at least that total |
| Fare.CostAtLeastBase | main.go:34-50 | A trip of non-negative distance costs at least the base cost 200 |
| Fare.CostMonotoneInDistance | main.go:34-50 | Increasing the distance, all else equal, never lowers the fare |
| Fare.SameFareIffSameMultiplier | main.go:46-50 | Two tariff strings give equal fares for every trip if and only if their multipliers are equal |
| Fare.PricedLikeEconom | main.go:26-49 | A tariff string prices every trip exactly like "econom" if and only if it is "econom" or not in the table |
| Fare.WorkedExamples | main.go:34-50 | 10 km econom with no extras costs 500; 10 km premium with a child seat costs 1200; 0 km o4en_dorogoi with all extras costs 1375 |
| Form.Quote | main.go:59-73 | The handler's quote is the fare of the decoded trip, and a distance that is not a well-formed number is quoted like distance 0 |
| Form.Decode | main.go:59-71 | Each boolean is true if and only if its field is exactly "on"; the tariff is copied unchanged; a parsed distance is kept and a distance that is not a well-formed number gives 0 |
| Form.MalformedDistanceIsZero | main.go:59-73 | A distance that is not a well-formed number yields the same trip and fare as distance 0, and that fare is at least 200 |
| Form.Submit | main.go:157-181 | The fields the page's form posts for a trip (the distance, the chosen tariff, "on" for a ticked box and nothing for a clear one) decode back to that trip |
| Form.SubmitDecode | main.go:59-71 | Re-encoding decoded fields reproduces them if and only if they have the shape `Submit` produces (a parsed distance, each checkbox "on" or empty), and that shape holds exactly of the fields `Submit` produces for some trip |
| Form.TariffOptionsAreTable | main.go:163-169 | The page's tariff list offers exactly the keys of the tariff table |

## Left out

- Binary floating point: `float64` rounding of the formula is not modelled; all arithmetic is exact over `real`.
- Parsing the distance text is not modelled; the handler's model takes the parse outcome as an `Option<real>`.
- Form.Decode: `None` stands only for the parser's syntax error, which yields 0; an out-of-range number such as "1e400" or "-1e400" parses to plus or minus infinity with a range error that the handler ignores and prices, and "NaN", "Inf" and "Infinity" parse to values `real` cannot hold; none of these are modelled.
- Formatting the fare with two decimals into the reply sentence is not modelled: it is a library formatting call.
- The page's form is modelled only in its field names, its checkbox encoding ("on" when ticked, absent when clear) and its list of tariffs; the rest of the HTML page, its styling and the script that hides the result after ten seconds are presentation only.
- The HTTP server, routing, the GET/POST split and the ignored form-parsing error are transport behaviour with no logic to state.
