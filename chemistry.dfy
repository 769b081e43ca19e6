/** The chemistry table of the estimator: one immutable profile per supported
    battery chemistry, keyed by the identifier the form's selector submits. */
module Chemistry {
  import opened Wrappers

  /** Ageing coefficients of one chemistry. `ea` is the activation energy in J/mol. */
  datatype Profile = Profile(
    name: string,
    calCoeff: real,
    cycCoeff: real,
    dodStress: real,
    rateStress: real,
    ea: real)

  const Lead := Profile("납축전지 (Lead-Acid)", 0.0035, 0.0006, 2.3, 0.2, 35000.0)
  const Nmc := Profile("리튬이온 (NMC)", 0.0025, 0.0003, 1.8, 0.15, 24000.0)
  const Lfp := Profile("인산철 (LFP)", 0.0008, 0.00012, 1.2, 0.05, 18000.0)

  /** The table itself, as the page defines it once at load time. */
  const Models: map<string, Profile> := map["lead" := Lead, "nmc" := Nmc, "lfp" := Lfp]

  /** Every coefficient is a positive constant and the depth-of-discharge
      exponent is at least one. */
  predicate WellFormed(p: Profile) {
    && p.calCoeff > 0.0
    && p.cycCoeff > 0.0
    && p.dodStress >= 1.0
    && p.rateStress > 0.0
    && p.ea > 0.0
  }

  /** Looking a chemistry up by key: absent for keys outside the table. */
  function Lookup(key: string): (p: Option<Profile>)
    ensures p.Some? <==> key == "lead" || key == "nmc" || key == "lfp"
    ensures p.Some? ==> WellFormed(p.value) && p.value == Models[key]
  {
    if key in Models then Some(Models[key]) else None
  }

  /** Exactly three chemistries are supported, and each profile is well formed. */
  lemma TableWellFormed()
    ensures Models.Keys == {"lead", "nmc", "lfp"}
    ensures forall key :: key in Models ==> WellFormed(Models[key])
  {
  }

  /** The charge-rate stress factor of a profile. */
  function RateFactor(p: Profile, cRate: real): real {
    1.0 + cRate * p.rateStress
  }

  /** For a non-negative charge rate the rate factor of every table profile is
      at least one, and it is exactly one only at zero charge rate. */
  lemma RateFactorAtLeastOne(key: string, cRate: real)
    requires key in Models
    requires cRate >= 0.0
    ensures RateFactor(Models[key], cRate) >= 1.0
    ensures RateFactor(Models[key], cRate) == 1.0 <==> cRate == 0.0
  {
    TableWellFormed();
    var p := Models[key];
    assert cRate * p.rateStress >= 0.0;
    if cRate > 0.0 {
      assert cRate * p.rateStress > 0.0;
    }
  }
}
