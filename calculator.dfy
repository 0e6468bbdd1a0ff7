/**
 * The dose callback of the calculator: straight-line code that starts from
 * the filtration band, multiplies a running base by each correction in turn,
 * collects advisories and scales by the volume.
 */
module Calculator {
  import opened Wrappers
  import opened DoseRules

  /** Computes the recommendation for one submission of the form. */
  method CalculateDose(form: Form) returns (res: Result<Dose, Error>)
    ensures res == Compute(form)
  {
    if form.filtration.None? || form.ph.None? || form.alcohol.None?
       || form.volume.None? || form.bentonite.None? {
      return Err(MissingField);
    }
    var volume := form.volume.value;
    var base := CorrectedBase(form.filtration.value, form.ph.value, form.alcohol.value,
                              form.bentonite.value, form.processTemp, form.contactTime);

    var warnings: seq<Warning> := [];
    if form.injection == Some(Dry) {
      warnings := warnings + [PreHydrate];
    }
    assert warnings == Warnings(form.injection);

    var dose := base * volume;
    res := Ok(Dose(base, dose, warnings));
    assert Recommendation(base, volume, form.injection).total == dose;
  }

  /**
   * The running per-litre base: the filtration band, then each correction
   * multiplied in, in the order pH, alcohol, bentonite type, temperature,
   * contact time.
   */
  method CorrectedBase(filtration: real, ph: real, alcohol: real, bentonite: Bentonite,
                       processTemp: Option<real>, contactTime: Option<real>) returns (base: real)
    ensures base == PerLitre(filtration, ph, alcohol, bentonite, processTemp, contactTime)
  {
    base := BandOf(filtration);
    base := ApplyPh(base, ph);
    base := ApplyAlcohol(base, alcohol);
    base := ApplySodium(base, bentonite);
    base := ApplyTemp(base, processTemp);
    base := ApplyContact(base, contactTime);
    PerLitreExpanded(filtration, ph, alcohol, bentonite, processTemp, contactTime);
  }

  /** The starting base: the band the filtration coefficient falls in. */
  method BandOf(filtration: real) returns (base: real)
    ensures base == Band(filtration)
  {
    if filtration < 1.0 {
      base := 0.0;
    } else if 1.0 <= filtration < 1.5 {
      base := 0.75;
    } else if 1.5 <= filtration <= 2.0 {
      base := 1.25;
    } else {
      base := 1.75;
    }
  }

  /** The pH step: +25 % below pH 3.0, +15 % above pH 3.6. */
  method ApplyPh(base: real, ph: real) returns (r: real)
    ensures r == base * PhFactor(ph)
  {
    r := base;
    if ph < 3.0 {
      r := r * 1.25;
    } else if ph > 3.6 {
      r := r * 1.15;
    }
  }

  /** The alcohol step: +15 % at exactly 11.0 %, -15 % above 14.0 %. */
  method ApplyAlcohol(base: real, alcohol: real) returns (r: real)
    ensures r == base * AlcoholFactor(alcohol)
  {
    r := base;
    if alcohol == 11.0 {
      r := r * 1.15;
    } else if alcohol > 14.0 {
      r := r * 0.85;
    }
  }

  /** The bentonite-type step: +20 % for sodium bentonite. */
  method ApplySodium(base: real, bentonite: Bentonite) returns (r: real)
    ensures r == base * SodiumFactor(bentonite)
  {
    r := base;
    if bentonite == Sodium {
      r := r * 1.2;
    }
  }

  /** The temperature step: +15 % when a temperature below 10 is given. */
  method ApplyTemp(base: real, processTemp: Option<real>) returns (r: real)
    ensures r == base * TempFactor(processTemp)
  {
    r := base;
    if processTemp.Some? && processTemp.value < 10.0 {
      r := r * 1.15;
    }
  }

  /** The contact-time step: +20 % when a contact time below 8 hours is given. */
  method ApplyContact(base: real, contactTime: Option<real>) returns (r: real)
    ensures r == base * ContactFactor(contactTime)
  {
    r := base;
    if contactTime.Some? && contactTime.value < 8.0 {
      r := r * 1.2;
    }
  }
}
