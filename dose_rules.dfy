/**
 * The bentonite dose rules of the fining calculator, as pure functions.
 *
 * A dose in grams of bentonite per litre of wine is the product of a base
 * taken from the protein-haze filtration coefficient and five independent
 * correction factors (pH, alcohol, bentonite type, processing temperature,
 * contact time).  The total dose is that per-litre figure times the volume.
 * All quantities are exact reals.
 */
module DoseRules {
  import opened Wrappers

  /** The bentonite offered by the form; only sodium bentonite is corrected. */
  datatype Bentonite = Sodium | Calcium

  /** How the bentonite is brought into the wine. */
  datatype Injection = Wet | Dry

  /** Advisories attached to a computed dose. */
  datatype Warning =
    | PreHydrate  // hydrate the bentonite in water at least 12 hours before use

  /** Why no dose was computed. */
  datatype Error =
    | MissingField  // one of the five required fields is empty

  /** The eight values read from the form; an empty field is `None`. */
  datatype Form = Form(
    filtration: Option<real>,
    ph: Option<real>,
    alcohol: Option<real>,
    volume: Option<real>,
    bentonite: Option<Bentonite>,
    processTemp: Option<real>,
    contactTime: Option<real>,
    injection: Option<Injection>)

  /** A recommendation: grams per litre, grams in all, and advisories. */
  datatype Dose = Dose(perLitre: real, total: real, warnings: seq<Warning>)

  /** The largest product the five corrections can reach: 1.25 * 1.15 * 1.2 * 1.15 * 1.2. */
  const MaxCorrection: real := 2.3805

  /** The smallest product the five corrections can reach: the high-alcohol 0.85 alone. */
  const MinCorrection: real := 0.85

  /** Filtration, pH, alcohol, volume and bentonite type are all filled in. */
  predicate Complete(form: Form)
  {
    form.filtration.Some? && form.ph.Some? && form.alcohol.Some?
    && form.volume.Some? && form.bentonite.Some?
  }

  /** Base dose (g/L) for a filtration coefficient; 2.0 still belongs to the 1.25 band. */
  function Band(f: real): real
  {
    if f < 1.0 then 0.0
    else if 1.0 <= f < 1.5 then 0.75
    else if 1.5 <= f <= 2.0 then 1.25
    else 1.75
  }

  /** pH correction: acid wines (below 3.0) get +25 %, wines above 3.6 get +15 %. */
  function PhFactor(ph: real): real
  {
    if ph < 3.0 then 1.25
    else if ph > 3.6 then 1.15
    else 1.0
  }

  /** Alcohol correction: exactly 11.0 % gets +15 %, above 14.0 % gets -15 %. */
  function AlcoholFactor(alcohol: real): real
  {
    if alcohol == 11.0 then 1.15
    else if alcohol > 14.0 then 0.85
    else 1.0
  }

  /** Bentonite-type correction: sodium bentonite gets +20 %. */
  function SodiumFactor(b: Bentonite): real
  {
    if b == Sodium then 1.2 else 1.0
  }

  /** Processing-temperature correction: a given temperature below 10 gets +15 %. */
  function TempFactor(t: Option<real>): real
  {
    if t.Some? && t.value < 10.0 then 1.15 else 1.0
  }

  /** Contact-time correction: a given contact time below 8 hours gets +20 %. */
  function ContactFactor(c: Option<real>): real
  {
    if c.Some? && c.value < 8.0 then 1.2 else 1.0
  }

  /** The five correction multipliers, in the order the engine applies them. */
  function Corrections(ph: real, alcohol: real, b: Bentonite, t: Option<real>, c: Option<real>): (ks: seq<real>)
    ensures |ks| == 5
    ensures forall i :: 0 <= i < |ks| ==> ks[i] > 0.0
  {
    [PhFactor(ph), AlcoholFactor(alcohol), SodiumFactor(b), TempFactor(t), ContactFactor(c)]
  }

  /** A running value of 1 multiplied by each multiplier in turn, left to right. */
  function Product(ks: seq<real>): real
  {
    if ks == [] then 1.0 else Product(ks[..|ks| - 1]) * ks[|ks| - 1]
  }

  /** Dose per litre: the band multiplied by every correction, in the order they are applied. */
  function PerLitre(f: real, ph: real, alcohol: real, b: Bentonite,
                    t: Option<real>, c: Option<real>): real
  {
    Band(f) * Product(Corrections(ph, alcohol, b, t, c))
  }

  /** The advisories for an injection method: pre-hydration for dry powder only. */
  function Warnings(injection: Option<Injection>): (w: seq<Warning>)
    ensures |w| <= 1
    ensures PreHydrate in w <==> injection == Some(Dry)
  {
    if injection == Some(Dry) then [PreHydrate] else []
  }

  /** The recommendation for a per-litre dose: scaled by the volume, with its advisories. */
  function Recommendation(perLitre: real, volume: real, injection: Option<Injection>): Dose
  {
    Dose(perLitre, perLitre * volume, Warnings(injection))
  }

  /** The whole engine: an error for an incomplete form, otherwise the dose. */
  function Compute(form: Form): (r: Result<Dose, Error>)
    ensures r.Err? <==> !Complete(form)
    ensures r.Err? ==> r.error == MissingField
    ensures r.Ok? ==> r.value.perLitre == PerLitre(form.filtration.value, form.ph.value, form.alcohol.value,
                                                   form.bentonite.value, form.processTemp, form.contactTime)
    ensures r.Ok? ==> r.value.total == r.value.perLitre * form.volume.value
    ensures r.Ok? ==> r.value.warnings == Warnings(form.injection)
  {
    if !Complete(form) then Err(MissingField)
    else
      Ok(Recommendation(PerLitre(form.filtration.value, form.ph.value, form.alcohol.value,
                                 form.bentonite.value, form.processTemp, form.contactTime),
                        form.volume.value, form.injection))
  }

  // ---------------------------------------------------------------------------
  // Properties of the rules
  // ---------------------------------------------------------------------------

  /** The per-litre dose written out: the band times the pH, alcohol, type, temperature and contact factors. */
  lemma PerLitreExpanded(f: real, ph: real, alcohol: real, b: Bentonite, t: Option<real>, c: Option<real>)
    ensures PerLitre(f, ph, alcohol, b, t, c)
         == Band(f) * PhFactor(ph) * AlcoholFactor(alcohol) * SodiumFactor(b) * TempFactor(t) * ContactFactor(c)
  {
    ProductOfFive(Band(f), PhFactor(ph), AlcoholFactor(alcohol), SodiumFactor(b), TempFactor(t), ContactFactor(c));
  }

  /** Each base dose belongs to exactly one filtration band; 2.0 closes the 1.25 band. */
  lemma BandRange(f: real)
    ensures 0.0 <= Band(f) <= 1.75
    ensures Band(f) == 0.0 <==> f < 1.0
    ensures Band(f) == 0.75 <==> 1.0 <= f < 1.5
    ensures Band(f) == 1.25 <==> 1.5 <= f <= 2.0
    ensures Band(f) == 1.75 <==> f > 2.0
  {
  }

  /** pH never lowers the dose; it is left alone exactly in the optimal range 3.0 to 3.6. */
  lemma PhFactorRange(ph: real)
    ensures 1.0 <= PhFactor(ph) <= 1.25
    ensures PhFactor(ph) == 1.25 <==> ph < 3.0
    ensures PhFactor(ph) == 1.15 <==> ph > 3.6
    ensures PhFactor(ph) == 1.0 <==> 3.0 <= ph <= 3.6
  {
  }

  /** Alcohol raises the dose only at exactly 11.0 % and lowers it only above 14.0 %. */
  lemma AlcoholFactorRange(alcohol: real)
    ensures 0.85 <= AlcoholFactor(alcohol) <= 1.15
    ensures AlcoholFactor(alcohol) == 1.15 <==> alcohol == 11.0
    ensures AlcoholFactor(alcohol) == 0.85 <==> alcohol > 14.0
    ensures AlcoholFactor(alcohol) == 1.0 <==> alcohol != 11.0 && alcohol <= 14.0
  {
  }

  /** Only sodium bentonite is corrected, and only upwards. */
  lemma SodiumFactorRange(b: Bentonite)
    ensures 1.0 <= SodiumFactor(b) <= 1.2
    ensures SodiumFactor(b) == 1.2 <==> b == Sodium
    ensures SodiumFactor(b) == 1.0 <==> b == Calcium
  {
  }

  /** Only a given temperature below 10 is corrected; an absent one applies no correction. */
  lemma TempFactorRange(t: Option<real>)
    ensures 1.0 <= TempFactor(t) <= 1.15
    ensures TempFactor(t) == 1.15 <==> t.Some? && t.value < 10.0
    ensures TempFactor(t) == 1.0 <==> t.None? || t.value >= 10.0
  {
  }

  /** Only a given contact time below 8 hours is corrected; an absent one applies no correction. */
  lemma ContactFactorRange(c: Option<real>)
    ensures 1.0 <= ContactFactor(c) <= 1.2
    ensures ContactFactor(c) == 1.2 <==> c.Some? && c.value < 8.0
    ensures ContactFactor(c) == 1.0 <==> c.None? || c.value >= 8.0
  {
  }

  /** Multiplying two non-negative quantities keeps their bounds. */
  lemma MulBounds(x: real, y: real, xLo: real, xHi: real, yLo: real, yHi: real)
    requires 0.0 <= xLo <= x <= xHi
    requires 0.0 <= yLo <= y <= yHi
    ensures xLo * yLo <= x * y <= xHi * yHi
  {
    assert xLo * yLo <= x * yLo;
    assert x * yLo <= x * y;
    assert x * y <= xHi * y;
    assert xHi * y <= xHi * yHi;
  }

  /** Five multipliers applied one after the other scale a base by their plain product. */
  lemma ProductOfFive(base: real, k0: real, k1: real, k2: real, k3: real, k4: real)
    ensures Product([k0, k1, k2, k3, k4]) == k0 * k1 * k2 * k3 * k4
    ensures base * Product([k0, k1, k2, k3, k4]) == base * k0 * k1 * k2 * k3 * k4
  {
    assert [k0, k1, k2, k3, k4][..4] == [k0, k1, k2, k3];
    assert [k0, k1, k2, k3][..3] == [k0, k1, k2];
    assert [k0, k1, k2][..2] == [k0, k1];
    assert [k0, k1][..1] == [k0];
    assert [k0][..0] == [];
    assert Product([k0]) == k0;
    assert Product([k0, k1]) == k0 * k1;
    assert Product([k0, k1, k2]) == k0 * k1 * k2;
    assert Product([k0, k1, k2, k3]) == k0 * k1 * k2 * k3;
  }

  /** Five multipliers within the correction ranges multiply to a value in [0.85, 2.3805]. */
  lemma FiveBounds(p: real, a: real, s: real, tf: real, cf: real)
    requires 1.0 <= p <= 1.25 && 0.85 <= a <= 1.15 && 1.0 <= s <= 1.2
    requires 1.0 <= tf <= 1.15 && 1.0 <= cf <= 1.2
    ensures MinCorrection <= p * a * s * tf * cf <= MaxCorrection
  {
    MulBounds(p, a, 1.0, 1.25, 0.85, 1.15);
    MulBounds(p * a, s, 0.85, 1.4375, 1.0, 1.2);
    MulBounds(p * a * s, tf, 0.85, 1.725, 1.0, 1.15);
    MulBounds(p * a * s * tf, cf, 0.85, 1.98375, 1.0, 1.2);
  }

  /** A product of positive multipliers is positive: a running value never changes sign. */
  lemma {:induction false} ProductPositive(ks: seq<real>)
    requires forall i :: 0 <= i < |ks| ==> ks[i] > 0.0
    ensures Product(ks) > 0.0
  {
    if ks != [] {
      var front := ks[..|ks| - 1];
      ProductPositive(front);
      MulBounds(Product(front), ks[|ks| - 1], 0.0, Product(front), 0.0, ks[|ks| - 1]);
      assert Product(ks) != 0.0;
    }
  }

  /** The five corrections together scale the band by a factor in [0.85, 2.3805]. */
  lemma CorrectionBounds(ph: real, alcohol: real, b: Bentonite, t: Option<real>, c: Option<real>)
    ensures MinCorrection <= Product(Corrections(ph, alcohol, b, t, c)) <= MaxCorrection
  {
    PhFactorRange(ph);
    AlcoholFactorRange(alcohol);
    SodiumFactorRange(b);
    TempFactorRange(t);
    ContactFactorRange(c);
    ProductOfFive(1.0, PhFactor(ph), AlcoholFactor(alcohol), SodiumFactor(b), TempFactor(t), ContactFactor(c));
    FiveBounds(PhFactor(ph), AlcoholFactor(alcohol), SodiumFactor(b), TempFactor(t), ContactFactor(c));
  }

  /** Both bounds are reached: every raising correction at once, and the high-alcohol correction alone. */
  lemma CorrectionBoundsReached()
    ensures Product(Corrections(2.8, 11.0, Sodium, Some(8.0), Some(6.0))) == MaxCorrection
    ensures Product(Corrections(3.2, 15.0, Calcium, None, None)) == MinCorrection
  {
    ProductOfFive(1.0, 1.25, 1.15, 1.2, 1.15, 1.2);
    ProductOfFive(1.0, 1.0, 0.85, 1.0, 1.0, 1.0);
  }

  /** The band is scaled, never sign-flipped: the per-litre dose lies in [0.85, 2.3805] times the band. */
  lemma PerLitreScalesBand(f: real, ph: real, alcohol: real, b: Bentonite, t: Option<real>, c: Option<real>)
    ensures Band(f) * MinCorrection <= PerLitre(f, ph, alcohol, b, t, c) <= Band(f) * MaxCorrection
  {
    BandRange(f);
    CorrectionBounds(ph, alcohol, b, t, c);
    MulBounds(Band(f), Product(Corrections(ph, alcohol, b, t, c)), Band(f), Band(f), MinCorrection, MaxCorrection);
  }

  /** The per-litre dose is never negative, and it is zero exactly when filtration is below 1.0. */
  lemma PerLitreZeroIff(f: real, ph: real, alcohol: real, b: Bentonite, t: Option<real>, c: Option<real>)
    ensures PerLitre(f, ph, alcohol, b, t, c) >= 0.0
    ensures PerLitre(f, ph, alcohol, b, t, c) == 0.0 <==> f < 1.0
  {
    var k := Product(Corrections(ph, alcohol, b, t, c));
    ProductPositive(Corrections(ph, alcohol, b, t, c));
    BandRange(f);
    MulBounds(Band(f), k, 0.0, Band(f), 0.0, k);
    if f >= 1.0 {
      MulBounds(Band(f), k, 0.75, Band(f), k, k);
      assert 0.75 * k > 0.0;
    }
  }

  /** Once bentonite is needed at all, the engine recommends between 0.6375 and 4.165875 g/L. */
  lemma PerLitreRange(f: real, ph: real, alcohol: real, b: Bentonite, t: Option<real>, c: Option<real>)
    requires f >= 1.0
    ensures 0.6375 <= PerLitre(f, ph, alcohol, b, t, c) <= 4.165875
  {
    PerLitreScalesBand(f, ph, alcohol, b, t, c);
    assert 0.75 <= Band(f) <= 1.75;
  }

  /** The bands rise with the filtration coefficient. */
  lemma BandMonotone(f: real, g: real)
    requires f <= g
    ensures Band(f) <= Band(g)
  {
  }

  /** A higher filtration coefficient never lowers the recommended dose. */
  lemma PerLitreMonotoneInFiltration(f: real, g: real, ph: real, alcohol: real, b: Bentonite,
                                     t: Option<real>, c: Option<real>)
    requires f <= g
    ensures PerLitre(f, ph, alcohol, b, t, c) <= PerLitre(g, ph, alcohol, b, t, c)
  {
    var k := Product(Corrections(ph, alcohol, b, t, c));
    CorrectionBounds(ph, alcohol, b, t, c);
    BandMonotone(f, g);
    BandRange(f);
    MulBounds(Band(f), k, Band(f), Band(g), k, k);
  }

  /** The band edges: 1.0 and 1.5 open their bands, 2.0 still belongs to the 1.25 band. */
  lemma BandBoundaries()
    ensures Band(0.99) == 0.0
    ensures Band(1.0) == 0.75 && Band(1.49) == 0.75
    ensures Band(1.5) == 1.25 && Band(2.0) == 1.25
    ensures Band(2.0001) == 1.75
  {
  }

  /** The alcohol rule tests equality with 11.0, not a range: 11.5 and 14.0 are uncorrected. */
  lemma AlcoholExactEquality()
    ensures AlcoholFactor(11.0) == 1.15
    ensures AlcoholFactor(11.5) == 1.0 && AlcoholFactor(12.0) == 1.0 && AlcoholFactor(14.0) == 1.0
    ensures AlcoholFactor(14.5) == 0.85 && AlcoholFactor(10.5) == 1.0
  {
  }

  /** A complete form always yields a non-negative per-litre dose, and a non-negative total for a non-negative volume. */
  lemma ComputeNonNegative(form: Form)
    requires Complete(form)
    ensures Compute(form).Ok?
    ensures Compute(form).value.perLitre >= 0.0
    ensures form.volume.value >= 0.0 ==> Compute(form).value.total >= 0.0
  {
    var f, ph, alc := form.filtration.value, form.ph.value, form.alcohol.value;
    PerLitreZeroIff(f, ph, alc, form.bentonite.value, form.processTemp, form.contactTime);
    var d := PerLitre(f, ph, alc, form.bentonite.value, form.processTemp, form.contactTime);
    if form.volume.value >= 0.0 {
      MulBounds(d, form.volume.value, 0.0, d, 0.0, form.volume.value);
    }
  }

  /** A stable wine (filtration below 1.0) gets no bentonite at all, whatever its volume. */
  lemma StableWineNeedsNone(form: Form)
    requires Complete(form) && form.filtration.value < 1.0
    ensures Compute(form) == Ok(Dose(0.0, 0.0, Warnings(form.injection)))
  {
    PerLitreZeroIff(form.filtration.value, form.ph.value, form.alcohol.value,
                    form.bentonite.value, form.processTemp, form.contactTime);
  }

  /** The injection method changes only the advisories, never the numbers. */
  lemma InjectionKeepsDose(form: Form, injection: Option<Injection>)
    requires Complete(form)
    ensures Compute(form.(injection := injection)).value.perLitre == Compute(form).value.perLitre
    ensures Compute(form.(injection := injection)).value.total == Compute(form).value.total
    ensures Compute(form.(injection := injection)).value.warnings == Warnings(injection)
  {
  }

  /** Volume is not range-checked: a negative volume yields a negative total. */
  lemma NegativeVolumeAccepted()
    ensures Compute(Form(Some(1.2), Some(3.2), Some(13.0), Some(-10.0), Some(Calcium), None, None, None))
         == Ok(Dose(0.75, -7.5, []))
  {
    PerLitreExpanded(1.2, 3.2, 13.0, Calcium, None, None);
  }

  /** With no range check on the volume, any negative volume of a wine that needs bentonite gives a negative total. */
  lemma NegativeVolumeNegativeTotal(form: Form)
    requires Complete(form) && form.filtration.value >= 1.0 && form.volume.value < 0.0
    ensures Compute(form).Ok?
    ensures Compute(form).value.total < 0.0
  {
    var d := PerLitre(form.filtration.value, form.ph.value, form.alcohol.value,
                      form.bentonite.value, form.processTemp, form.contactTime);
    var v := form.volume.value;
    PerLitreRange(form.filtration.value, form.ph.value, form.alcohol.value,
                  form.bentonite.value, form.processTemp, form.contactTime);
    MulBounds(d, -v, 0.6375, d, -v, -v);
    assert d * v == -(d * -v);
  }

  /** Stable wine: filtration 0.8, pH 3.2, 13 %, 10 L of calcium bentonite. */
  lemma ScenarioStable()
    ensures Compute(Form(Some(0.8), Some(3.2), Some(13.0), Some(10.0), Some(Calcium), None, None, None))
         == Ok(Dose(0.0, 0.0, []))
  {
    PerLitreExpanded(0.8, 3.2, 13.0, Calcium, None, None);
  }

  /** Every correction raised: 0.75 * 1.25 * 1.15 * 1.2 * 1.15 * 1.2 g/L over 5 L, dry powder. */
  lemma ScenarioAllCorrections()
    ensures Compute(Form(Some(1.2), Some(2.8), Some(11.0), Some(5.0), Some(Sodium),
                         Some(8.0), Some(6.0), Some(Dry)))
         == Ok(Dose(1.785375, 8.926875, [PreHydrate]))
  {
    PerLitreExpanded(1.2, 2.8, 11.0, Sodium, Some(8.0), Some(6.0));
  }

  /** High pH and high alcohol: 1.25 * 1.15 * 0.85 g/L over 20 L. */
  lemma ScenarioHighAlcohol()
    ensures Compute(Form(Some(1.8), Some(3.8), Some(15.0), Some(20.0), Some(Calcium), None, None, None))
         == Ok(Dose(1.221875, 24.4375, []))
  {
    PerLitreExpanded(1.8, 3.8, 15.0, Calcium, None, None);
  }
}
