# Bentonite dose calculator — verified model of the dose rules

The calculator recommends a bentonite fining dose for a wine. Its only
decision logic is the `calculate_dose` callback. It reads five required
measurements: filtration coefficient, pH, alcohol percentage, volume and
bentonite type. It also reads three optional ones: processing temperature,
contact time and injection method. From these it returns either a "fill
all fields" message or:

- a dose in grams per litre;
- the total dose in grams;
- a list of advisories.

The dose per litre works like this:

- a base dose is picked from the filtration-coefficient band (0, 0.75, 1.25
  or 1.75 g/L);
- the base is multiplied in turn by the pH, alcohol, bentonite-type,
  temperature and contact-time corrections;
- the total is the per-litre dose times the volume.

Dry-powder injection adds a pre-hydration advisory.

The project has three files:

- `wrappers.dfy`: `Option` (an empty form field is `None`) and `Result`.
- `dose_rules.dfy` (module `DoseRules`): the rules as pure functions.
  - `Band` and one factor function per correction.
  - `Corrections`, the five multipliers in the order they are applied.
  - `Product`, the multipliers multiplied together, left to right, starting from 1.
  - `PerLitre = Band × Product(Corrections)`.
  - `Compute`, the whole engine: a `MissingField` error or a `Dose`.
  - The lemmas about all of these.
- `calculator.dfy` (module `Calculator`): the callback as imperative code.
  - `CalculateDose` checks the required fields, builds the running `base`,
    appends to a `warnings` sequence and multiplies by the volume.
  - It is proved equal to `Compute`.
  - Each `base *= …` stage of the callback is a small method. Each one is
    proved to multiply by the matching factor function.
  - `CorrectedBase` chains these stages and is proved equal to `PerLitre`.

All quantities are exact reals. Bentonite type and injection method are
datatypes. Only `Sodium` gets the 1.2 correction, and only `Dry` gets the
advisory.

The worked example with every correction raised has filtration 1.2, pH 2.8,
alcohol 11.0 %, 5 L of sodium bentonite, temperature 8, contact time 6 and
dry powder (`ScenarioAllCorrections`). It gives
0.75 × 1.25 × 1.15 × 1.2 × 1.15 × 1.2 = 1.785375 g/L and 8.926875 g in
total, plus the advisory.

The total is non-negative whenever the volume is non-negative
(`ComputeNonNegative`). The code does not range-check the volume, so a
negative volume gives a negative total whenever the wine needs bentonite
(`NegativeVolumeNegativeTotal`, `NegativeVolumeAccepted`).

## Model

| member | source | states |
|---|---|---|
| Calculator.CalculateDose | calculator.py:144-186 | The step-by-step callback returns exactly what the rule engine `Compute` specifies, for every form: the missing-field error, or the dose, total and advisories |
| Calculator.CorrectedBase | calculator.py:150-175 | After the band lookup and the five in-place corrections, the running base equals the band times the product of the correction factors (`PerLitre`) |
| Calculator.BandOf | calculator.py:150-157 | The if/elif chain on the filtration coefficient yields `Band(filtration)` |
| Calculator.ApplyPh | calculator.py:159-162 | The pH stage multiplies the running base by `PhFactor(ph)` |
| Calculator.ApplyAlcohol | calculator.py:164-167 | The alcohol stage multiplies the running base by `AlcoholFactor(alcohol)` |
| Calculator.ApplySodium | calculator.py:169-170 | The bentonite-type stage multiplies the running base by `SodiumFactor(bentonite)` |
| Calculator.ApplyTemp | calculator.py:172-173 | The temperature stage multiplies the running base by `TempFactor(processTemp)` |
| Calculator.ApplyContact | calculator.py:174-175 | The contact-time stage multiplies the running base by `ContactFactor(contactTime)` |
| DoseRules.Compute | calculator.py:146-181 | The engine fails with `MissingField` if and only if one of filtration, pH, alcohol, volume or bentonite is absent; on success the per-litre dose is `PerLitre` of the form's values, the total is per-litre × volume and the advisories are `Warnings(injection)` |
| DoseRules.Warnings | calculator.py:177-179 | At most one advisory, and the pre-hydration advisory is present exactly when injection is dry |
| DoseRules.Corrections | calculator.py:159-175 | Five correction multipliers, each strictly positive |
| DoseRules.BandRange | calculator.py:150-157 | Each band value holds exactly on its interval: 0 below 1.0; 0.75 on [1.0, 1.5); 1.25 on [1.5, 2.0]; 1.75 above 2.0 |
| DoseRules.BandBoundaries | calculator.py:150-157 | Edge values: 1.0 → 0.75, 1.5 → 1.25, 2.0 → 1.25 (closed upper bound), 2.0001 → 1.75 |
| DoseRules.BandMonotone | calculator.py:150-157 | The band never decreases as the filtration coefficient rises |
| DoseRules.PhFactorRange | calculator.py:159-162 | pH factor is 1.25 iff pH < 3.0, 1.15 iff pH > 3.6, 1 iff 3.0 ≤ pH ≤ 3.6 |
| DoseRules.AlcoholFactorRange | calculator.py:164-167 | Alcohol factor is 1.15 iff alcohol equals 11.0, 0.85 iff alcohol > 14.0, and 1 otherwise |
| DoseRules.AlcoholExactEquality | calculator.py:164-167 | The 11.0 test is exact equality: 11.5, 12.0 and 14.0 receive no correction, 14.5 receives 0.85 |
| DoseRules.SodiumFactorRange | calculator.py:169-170 | Factor 1.2 iff the bentonite is sodium, 1 iff calcium |
| DoseRules.TempFactorRange | calculator.py:172-173 | Factor 1.15 iff a temperature is given and is below 10; an absent temperature applies no correction |
| DoseRules.ContactFactorRange | calculator.py:174-175 | Factor 1.2 iff a contact time is given and is below 8; an absent contact time applies no correction |
| DoseRules.PerLitreExpanded | calculator.py:150-175 | The per-litre dose equals band × pH factor × alcohol factor × sodium factor × temperature factor × contact factor |
| DoseRules.ProductPositive | calculator.py:159-175 | Multiplying a running value by positive factors only, in any number, gives a positive result |
| DoseRules.CorrectionBounds | calculator.py:159-175 | The combined correction lies between 0.85 and 2.3805 |
| DoseRules.CorrectionBoundsReached | calculator.py:159-175 | Both bounds are reached: pH 2.8, 11.0 %, sodium, temperature 8 and contact time 6 give 2.3805; pH 3.2, 15 %, calcium and no optional values give 0.85 |
| DoseRules.PerLitreScalesBand | calculator.py:150-175 | The per-litre dose lies between 0.85 × band and 2.3805 × band |
| DoseRules.PerLitreZeroIff | calculator.py:150-175 | The per-litre dose is never negative, and it is zero exactly when filtration < 1.0, because the corrections never reach zero |
| DoseRules.PerLitreRange | calculator.py:150-175 | When filtration ≥ 1.0 the per-litre dose lies between 0.6375 and 4.165875 g/L |
| DoseRules.PerLitreMonotoneInFiltration | calculator.py:150-175 | A higher filtration coefficient never gives a lower dose, other inputs being equal |
| DoseRules.ComputeNonNegative | calculator.py:150-181 | A complete form always yields a dose; its per-litre value is ≥ 0, and its total is ≥ 0 when the volume is ≥ 0 |
| DoseRules.StableWineNeedsNone | calculator.py:150-181 | A stable wine (filtration < 1.0) gets 0 g/L and 0 g in total, whatever the other inputs |
| DoseRules.InjectionKeepsDose | calculator.py:177-181 | Changing the injection method changes only the advisories, never the per-litre dose or the total |
| DoseRules.NegativeVolumeNegativeTotal | calculator.py:181 | Volume is not range-checked: for every complete form with filtration ≥ 1.0 and a negative volume, the engine returns a dose whose total is negative |
| DoseRules.NegativeVolumeAccepted | calculator.py:181 | Volume is not range-checked: a volume of -10 L yields a total of -7.5 g |
| DoseRules.ScenarioStable | calculator.py:147-181 | Filtration 0.8, pH 3.2, 13 %, 10 L, calcium bentonite gives 0 g/L, 0 g and no advisory |
| DoseRules.ScenarioAllCorrections | calculator.py:147-181 | Every correction raised over 5 L with dry powder gives 1.785375 g/L, 8.926875 g and the pre-hydration advisory |
| DoseRules.ScenarioHighAlcohol | calculator.py:147-181 | Filtration 1.8, pH 3.8, 15 %, 20 L, calcium bentonite gives 1.221875 g/L and 24.4375 g |

## Left out

- The Dash application is not modelled: its construction, the page layout, the inputs, dropdowns and radio items, and `app.run` (calculator.py:5, 28-129, 191-192). This is user interface and server plumbing.
- The `languages` label dictionary and the global `lang` (calculator.py:7-26) are not modelled. They hold localisation strings only.
- The three static reference tables (calculator.py:96-128) are not modelled. They are documentation and do not feed the engine. The alcohol table's "12.0–14.0%" row is not the rule the engine applies: see `AlcoholExactEquality`.
- The click counter `n` is not modelled. The callback receives it but never reads it.
- The result is not rendered. The model does not produce the HTML markup or the two-decimal `:.2f` formatting (calculator.py:183-186). `Dose` carries the exact values.
- The advisory and the "fill all fields" message are constructors (`PreHydrate`, `MissingField`), not their Georgian text.
- The `except Exception` branch (calculator.py:188-189) is not modelled. It only catches runtime type errors from non-numeric values, and typed inputs cannot produce those.
- Floating point is not modelled. All quantities are exact reals, so IEEE-754 rounding in the thresholds and products is not captured.
- Bentonite type has two constructors. The source corrects only the string `"sodium"`, and any other non-empty value behaves like `Calcium`.
- Injection method is `Option<Injection>`. Only `"dry"` produces the advisory, and any other value behaves like `Wet` or an absent value.
