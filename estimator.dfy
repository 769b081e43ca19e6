/** One press of the page's calculate button, without the page: the parsed
    form is checked, the chemistry is looked up, the losses and the state of
    health are computed and classified, and the figures the page would show
    are returned as one record. */
module Estimator {
  import opened Wrappers
  import opened Chemistry
  import opened Ageing
  import opened Classify

  /** The form as parsed: the four basic fields are absent when they do not
      parse as numbers; depth of discharge and charge rate come from sliders. */
  datatype Form = Form(
    typeKey: string,
    designCap: Option<real>,
    ageMonths: Option<real>,
    cycles: Option<real>,
    tempC: Option<real>,
    dodPercent: real,
    cRate: real)

  /** Why no estimate is produced: a basic field is missing (the page alerts
      and stops), or the chemistry key has no table entry. */
  datatype Failure = MissingBasicInput | UnknownChemistry

  /** The figures of one estimate, as the page displays them. */
  datatype Diagnosis = Diagnosis(
    soh: real,
    capacity: real,
    calLoss: real,
    cycLoss: real,
    tier: Tier,
    healthMessage: string,
    cause: Cause,
    reasonText: string,
    calBarWidth: real,
    cycBarWidth: real)

  /** All four basic fields parsed as numbers. */
  predicate BasicInputsPresent(f: Form) {
    f.designCap.Some? && f.ageMonths.Some? && f.cycles.Some? && f.tempC.Some?
  }

  method CalculateProfessionalSoh(m: Math, f: Form) returns (r: Result<Diagnosis, Failure>)
    ensures r == Err(MissingBasicInput) <==> !BasicInputsPresent(f)
    ensures r == Err(UnknownChemistry) <==> BasicInputsPresent(f) && f.typeKey !in Models
    ensures r.Ok? ==>
      var p, d := Models[f.typeKey], r.value;
      && d.calLoss == CalendarLoss(m, p, f.ageMonths.value, f.tempC.value)
      && d.cycLoss == CycleLoss(m, p, f.cycles.value, f.dodPercent, f.cRate, f.tempC.value)
      && d.soh >= 0.0
      && (d.calLoss + d.cycLoss <= 100.0 ==> d.soh == 100.0 - (d.calLoss + d.cycLoss))
      && (d.calLoss + d.cycLoss > 100.0 ==> d.soh == 0.0)
      && d.capacity == f.designCap.value * d.soh / 100.0
      && (d.tier == Good <==> d.soh >= 80.0)
      && (d.tier == Inspect <==> 60.0 <= d.soh < 80.0)
      && (d.tier == Replace <==> d.soh < 60.0)
      && d.cause == CauseByPriority(f.typeKey, f.dodPercent, f.tempC.value, f.cRate, d.calLoss, d.cycLoss)
      && d.calBarWidth <= 100.0 && d.cycBarWidth <= 100.0
      && (d.calLoss <= BarScale ==> d.calBarWidth == d.calLoss * 100.0 / BarScale)
      && (d.cycLoss <= BarScale ==> d.cycBarWidth == d.cycLoss * 100.0 / BarScale)
      && (d.calLoss >= BarScale ==> d.calBarWidth == 100.0)
      && (d.cycLoss >= BarScale ==> d.cycBarWidth == 100.0)
      && d.healthMessage == Icon(d.tier) + " " + Message(d.tier)
      && d.reasonText == Label(d.cause)
    // with non-negative history and operating conditions the estimate is in range
    ensures r.Ok? && Sound(m)
            && f.ageMonths.value >= 0.0 && f.cycles.value >= 0.0
            && f.dodPercent >= 0.0 && f.cRate >= 0.0 ==>
      && 0.0 <= r.value.soh <= 100.0
      && 0.0 <= r.value.calBarWidth && 0.0 <= r.value.cycBarWidth
      && (f.designCap.value >= 0.0 ==> 0.0 <= r.value.capacity <= f.designCap.value)
    // a battery with no age and no cycles has lost nothing
    ensures r.Ok? && Sound(m) && f.ageMonths.value == 0.0 && f.cycles.value == 0.0 ==>
      && r.value.calLoss == 0.0 && r.value.cycLoss == 0.0
      && r.value.soh == 100.0 && r.value.capacity == f.designCap.value
      && r.value.tier == Good
  {
    if f.designCap.None? || f.ageMonths.None? || f.cycles.None? || f.tempC.None? {
      return Err(MissingBasicInput);
    }
    var designCap, ageMonths, cycles, tempC := f.designCap.value, f.ageMonths.value, f.cycles.value, f.tempC.value;
    var model := Lookup(f.typeKey);
    if model.None? {
      return Err(UnknownChemistry);
    }
    var p := model.value;

    var calLoss := CalendarLoss(m, p, ageMonths, tempC);
    var cycLoss := CycleLoss(m, p, cycles, f.dodPercent, f.cRate, tempC);
    var totalLoss, currentSoh := SohFromLosses(calLoss, cycLoss);
    var currentCap := Capacity(designCap, currentSoh);

    var tier := ClassifyStatus(currentSoh);
    var calWidth := BarWidth(calLoss);
    var cycWidth := BarWidth(cycLoss);
    var reason := PrimaryCause(f.typeKey, f.dodPercent, tempC, f.cRate, calLoss, cycLoss);

    if Sound(m) && ageMonths >= 0.0 && cycles >= 0.0 && f.dodPercent >= 0.0 && f.cRate >= 0.0 {
      CalendarLossNonNegative(m, p, ageMonths, tempC);
      CycleLossNonNegative(m, p, cycles, f.dodPercent, f.cRate, tempC);
    }
    if Sound(m) && ageMonths == 0.0 && cycles == 0.0 {
      NoHistoryNoLoss(m, p, f.dodPercent, f.cRate, tempC);
    }
    var healthMessage := Icon(tier) + " " + Message(tier);
    r := Ok(Diagnosis(currentSoh, currentCap, calLoss, cycLoss, tier, healthMessage, reason, Label(reason), calWidth, cycWidth));
  }
}
