/** The closed-form ageing law: Arrhenius temperature stress, square-root
    calendar loss, depth-of-discharge and charge-rate weighted cycle loss, the
    floor-at-zero state of health and the capacity scaled from it. */
module Ageing {
  import opened Chemistry

  /** The browser's `Math.exp`, `Math.sqrt` and `Math.pow`, passed in as values:
      the model knows of them only what `Sound` states. */
  datatype Math = Math(exp: real -> real, sqrt: real -> real, pow: (real, real) -> real)

  /** The few facts about the transcendentals the model relies on. */
  ghost predicate Sound(m: Math) {
    && (forall x :: m.exp(x) >= 0.0)
    && m.exp(0.0) == 1.0
    && m.sqrt(0.0) == 0.0
    && (forall x :: x >= 0.0 ==> m.sqrt(x) >= 0.0)
    && (forall b, e :: b >= 0.0 ==> m.pow(b, e) >= 0.0)
  }

  /** Gas constant in J/(mol K). */
  const GasConstant: real := 8.314
  /** 0 degrees Celsius in Kelvin. */
  const KelvinOffset: real := 273.15
  /** Reference temperature (25 degrees Celsius) in Kelvin. */
  const RefTempK: real := 298.15

  /** The Arrhenius exponent `(ea / R) * (1/refTempK - 1/tempK)`. */
  function Exponent(p: Profile, tempK: real): real
    requires tempK != 0.0
  {
    (p.ea / GasConstant) * (1.0 / RefTempK - 1.0 / tempK)
  }

  /** Arrhenius stress factor `exp((ea / R) * (1/refTempK - 1/tempK))`. At
      absolute zero the page divides by zero: `1/0` is +Infinity there, the
      exponent is -Infinity and `exp` gives 0, which is what this returns. */
  function TempStress(m: Math, p: Profile, tempC: real): (s: real)
    ensures Sound(m) ==> s >= 0.0
  {
    var tempK := tempC + KelvinOffset;
    if tempK == 0.0 then 0.0
    else m.exp(Exponent(p, tempK))
  }

  /** Calendar loss in percent: `cal_coeff * sqrt(ageMonths) * tempStress * 100`. */
  function CalendarLoss(m: Math, p: Profile, ageMonths: real, tempC: real): real {
    p.calCoeff * m.sqrt(ageMonths) * TempStress(m, p, tempC) * 100.0
  }

  /** Depth-of-discharge factor `(dodPercent / 100) ^ dod_stress`. */
  function DodFactor(m: Math, p: Profile, dodPercent: real): real {
    m.pow(dodPercent / 100.0, p.dodStress)
  }

  /** Cycle loss in percent:
      `cyc_coeff * cycles * dodFactor * rateFactor * tempStress * 100`. */
  function CycleLoss(m: Math, p: Profile, cycles: real, dodPercent: real, cRate: real, tempC: real): real {
    p.cycCoeff * cycles * DodFactor(m, p, dodPercent) * RateFactor(p, cRate) * TempStress(m, p, tempC) * 100.0
  }

  /** At the reference temperature of 25 degrees Celsius there is no
      temperature stress. */
  lemma ReferenceTemperatureNeutral(m: Math, p: Profile)
    requires Sound(m)
    ensures TempStress(m, p, 25.0) == 1.0
  {
    assert 25.0 + KelvinOffset == RefTempK;
    assert Exponent(p, RefTempK) == 0.0;
  }

  /** A non-negative age gives a non-negative calendar loss for every table
      chemistry. */
  lemma CalendarLossNonNegative(m: Math, p: Profile, ageMonths: real, tempC: real)
    requires Sound(m)
    requires WellFormed(p)
    requires ageMonths >= 0.0
    ensures CalendarLoss(m, p, ageMonths, tempC) >= 0.0
  {
    var a := p.calCoeff * m.sqrt(ageMonths);
    assert a >= 0.0;
    var b := a * TempStress(m, p, tempC);
    assert b >= 0.0;
  }

  /** Non-negative cycles, depth of discharge and charge rate give a
      non-negative cycle loss for every table chemistry. */
  lemma CycleLossNonNegative(m: Math, p: Profile, cycles: real, dodPercent: real, cRate: real, tempC: real)
    requires Sound(m)
    requires WellFormed(p)
    requires cycles >= 0.0 && dodPercent >= 0.0 && cRate >= 0.0
    ensures CycleLoss(m, p, cycles, dodPercent, cRate, tempC) >= 0.0
  {
    var a := p.cycCoeff * cycles;
    assert a >= 0.0;
    assert DodFactor(m, p, dodPercent) >= 0.0;
    var b := a * DodFactor(m, p, dodPercent);
    assert b >= 0.0;
    assert cRate * p.rateStress >= 0.0;
    var c := b * RateFactor(p, cRate);
    assert c >= 0.0;
    var d := c * TempStress(m, p, tempC);
    assert d >= 0.0;
  }

  /** With no age and no cycles there is neither calendar nor cycle loss,
      whatever the chemistry and the operating conditions. */
  lemma NoHistoryNoLoss(m: Math, p: Profile, dodPercent: real, cRate: real, tempC: real)
    requires Sound(m)
    ensures CalendarLoss(m, p, 0.0, tempC) == 0.0
    ensures CycleLoss(m, p, 0.0, dodPercent, cRate, tempC) == 0.0
  {
    assert p.calCoeff * m.sqrt(0.0) == 0.0;
    assert p.cycCoeff * 0.0 == 0.0;
  }

  /** The state of health from the two losses: the total loss is taken off
      100 percent and a negative result is raised to zero. */
  method SohFromLosses(calLoss: real, cycLoss: real) returns (totalLoss: real, soh: real)
    ensures totalLoss == calLoss + cycLoss
    ensures soh >= 0.0
    ensures totalLoss <= 100.0 ==> soh == 100.0 - totalLoss
    ensures totalLoss > 100.0 ==> soh == 0.0
    ensures calLoss >= 0.0 && cycLoss >= 0.0 ==> soh <= 100.0
  {
    totalLoss := calLoss + cycLoss;
    soh := 100.0 - totalLoss;
    if soh < 0.0 {
      soh := 0.0;
    }
  }

  /** Remaining capacity in Ah: the design capacity scaled by the state of
      health. */
  function Capacity(designCap: real, soh: real): (cap: real)
    ensures designCap >= 0.0 && 0.0 <= soh <= 100.0 ==> 0.0 <= cap <= designCap
    ensures soh == 100.0 ==> cap == designCap
    ensures soh == 0.0 ==> cap == 0.0
  {
    var r := designCap * (soh / 100.0);
    assert 0.0 <= soh / 100.0 <= 1.0 && designCap >= 0.0 ==> designCap * (soh / 100.0) <= designCap * 1.0;
    r
  }
}
