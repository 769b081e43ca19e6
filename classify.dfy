/** The qualitative readings of an estimate: the status tier of a state of
    health, the primary ageing cause, and the width of a loss bar. */
module Classify {

  /** Status tiers, with the page's icon and message for each. */
  datatype Tier = Good | Inspect | Replace

  function Icon(t: Tier): string {
    match t
    case Good => "🟢"
    case Inspect => "🟡"
    case Replace => "🔴"
  }

  function Message(t: Tier): string {
    match t
    case Good => "상태 양호"
    case Inspect => "점검 요망 (성능 저하)"
    case Replace => "교체 권장 (수명 종료)"
  }

  /** Status classification: the tier starts as good and is overwritten for a
      state of health below 80; 80 and 60 are inclusive lower bounds. */
  method ClassifyStatus(soh: real) returns (tier: Tier)
    ensures tier == Good <==> soh >= 80.0
    ensures tier == Inspect <==> 60.0 <= soh < 80.0
    ensures tier == Replace <==> soh < 60.0
  {
    tier := Good;
    if soh >= 80.0 {
      // the page only colours the figure green here
    } else if soh >= 60.0 {
      tier := Inspect;
    } else {
      tier := Replace;
    }
  }

  /** Primary ageing causes, with the page's label for each. */
  datatype Cause = NaturalAgeing | FrequentCycling | DeepDischarge | HeatAcceleration | FastCharge

  function Label(c: Cause): string {
    match c
    case NaturalAgeing => "정상적인 자연 노화"
    case FrequentCycling => "잦은 충방전 및 과다 사용"
    case DeepDischarge => "심방전(과방전)에 의한 손상"
    case HeatAcceleration => "고온 환경에 의한 열화 가속"
    case FastCharge => "급속 충전에 의한 스트레스"
  }

  /** Distinct causes are reported under distinct labels. */
  lemma LabelsDistinct(c: Cause, d: Cause)
    requires c != d
    ensures Label(c) != Label(d)
  {
    match c
    case NaturalAgeing =>
    case FrequentCycling =>
    case DeepDischarge =>
    case HeatAcceleration =>
    case FastCharge =>
  }

  /** A cause rule: whether it applies, and the cause it reports. */
  datatype Rule = Rule(applies: bool, cause: Cause)

  /** The page's four cause rules, in the order it evaluates them. */
  function Rules(typeKey: string, dodPercent: real, tempC: real, cRate: real,
                 calLoss: real, cycLoss: real): seq<Rule>
  {
    [ Rule(cycLoss > calLoss * 1.5, FrequentCycling),
      Rule(dodPercent > 90.0 && typeKey == "lead", DeepDischarge),
      Rule(tempC > 35.0, HeatAcceleration),
      Rule(cRate > 1.0, FastCharge) ]
  }

  /** Sequential override: the rules are applied in order, and each one that
      applies overwrites the current cause. */
  function Overwrite(current: Cause, rules: seq<Rule>): Cause
    decreases |rules|
  {
    if rules == [] then current
    else Overwrite(if rules[0].applies then rules[0].cause else current, rules[1..])
  }

  /** First match: the cause of the first rule that applies, else the default. */
  function FirstMatch(rules: seq<Rule>, default: Cause): Cause
    decreases |rules|
  {
    if rules == [] then default
    else if rules[0].applies then rules[0].cause
    else FirstMatch(rules[1..], default)
  }

  function Reverse(rules: seq<Rule>): (r: seq<Rule>)
    ensures |r| == |rules|
    decreases |rules|
  {
    if rules == [] then [] else Reverse(rules[1..]) + [rules[0]]
  }

  /** A rule appended at the end of a first-match list only acts as the
      default of the rest. */
  lemma {:induction false} FirstMatchAppend(rules: seq<Rule>, last: Rule, default: Cause)
    ensures FirstMatch(rules + [last], default)
         == FirstMatch(rules, if last.applies then last.cause else default)
    decreases |rules|
  {
    if rules != [] {
      assert (rules + [last])[1..] == rules[1..] + [last];
      FirstMatchAppend(rules[1..], last, default);
    }
  }

  /** Last write wins: overwriting in order gives the same cause as taking
      the first applicable rule of the reversed list, with the starting cause
      as the default. */
  lemma {:induction false} OverwriteIsLastMatch(current: Cause, rules: seq<Rule>)
    ensures Overwrite(current, rules) == FirstMatch(Reverse(rules), current)
    decreases |rules|
  {
    if rules != [] {
      var next := if rules[0].applies then rules[0].cause else current;
      OverwriteIsLastMatch(next, rules[1..]);
      FirstMatchAppend(Reverse(rules[1..]), rules[0], current);
    }
  }

  /** A reference reading of the cause rules as a priority list, highest
      priority first: fast charge, heat, deep discharge of lead-acid,
      frequent cycling, and natural ageing when nothing applies. */
  function CauseByPriority(typeKey: string, dodPercent: real, tempC: real, cRate: real,
                           calLoss: real, cycLoss: real): Cause
  {
    if cRate > 1.0 then FastCharge
    else if tempC > 35.0 then HeatAcceleration
    else if dodPercent > 90.0 && typeKey == "lead" then DeepDischarge
    else if cycLoss > calLoss * 1.5 then FrequentCycling
    else NaturalAgeing
  }

  /** The page's override sequence, started from natural ageing, agrees with
      the priority list on every input. */
  lemma {:induction false} OverwriteAgreesWithPriority(typeKey: string, dodPercent: real, tempC: real,
                                                      cRate: real, calLoss: real, cycLoss: real)
    ensures Overwrite(NaturalAgeing, Rules(typeKey, dodPercent, tempC, cRate, calLoss, cycLoss))
         == CauseByPriority(typeKey, dodPercent, tempC, cRate, calLoss, cycLoss)
  {
    var rules := Rules(typeKey, dodPercent, tempC, cRate, calLoss, cycLoss);
    OverwriteIsLastMatch(NaturalAgeing, rules);
    assert rules[3..][1..] == [] && rules[2..][1..] == rules[3..] && rules[1..][1..] == rules[2..];
    assert Reverse(rules[3..]) == [rules[3]];
    assert Reverse(rules[2..]) == [rules[3], rules[2]];
    assert Reverse(rules[1..]) == [rules[3], rules[2], rules[1]];
    var rev := [rules[3], rules[2], rules[1], rules[0]];
    assert Reverse(rules) == rev;
    assert rev[1..] == [rules[2], rules[1], rules[0]] && rev[1..][1..] == [rules[1], rules[0]];
    assert rev[1..][1..][1..] == [rules[0]] && rev[1..][1..][1..][1..] == [];
    var afterCycling := if rules[0].applies then FrequentCycling else NaturalAgeing;
    assert FirstMatch([rules[0]], NaturalAgeing) == afterCycling;
    var afterDeep := if rules[1].applies then DeepDischarge else afterCycling;
    assert FirstMatch([rules[1], rules[0]], NaturalAgeing) == afterDeep;
    var afterHeat := if rules[2].applies then HeatAcceleration else afterDeep;
    assert FirstMatch([rules[2], rules[1], rules[0]], NaturalAgeing) == afterHeat;
  }

  /** Cause classification as the page does it: a default label and four
      independent rules, each of which overwrites the label when it applies,
      so the last rule that applies decides. */
  method PrimaryCause(typeKey: string, dodPercent: real, tempC: real, cRate: real,
                      calLoss: real, cycLoss: real) returns (reason: Cause)
    ensures reason == Overwrite(NaturalAgeing, Rules(typeKey, dodPercent, tempC, cRate, calLoss, cycLoss))
    ensures reason == CauseByPriority(typeKey, dodPercent, tempC, cRate, calLoss, cycLoss)
    ensures reason == FastCharge <==> cRate > 1.0
    ensures reason == HeatAcceleration <==> tempC > 35.0 && cRate <= 1.0
    ensures reason == DeepDischarge <==>
      typeKey == "lead" && dodPercent > 90.0 && tempC <= 35.0 && cRate <= 1.0
    ensures reason == FrequentCycling <==>
      cycLoss > calLoss * 1.5 && !(typeKey == "lead" && dodPercent > 90.0)
      && tempC <= 35.0 && cRate <= 1.0
    ensures reason == NaturalAgeing <==>
      !(cycLoss > calLoss * 1.5) && !(dodPercent > 90.0 && typeKey == "lead")
      && !(tempC > 35.0) && !(cRate > 1.0)
  {
    reason := NaturalAgeing;
    if cycLoss > calLoss * 1.5 {
      reason := FrequentCycling;
    }
    if dodPercent > 90.0 && typeKey == "lead" {
      reason := DeepDischarge;
    }
    if tempC > 35.0 {
      reason := HeatAcceleration;
    }
    if cRate > 1.0 {
      reason := FastCharge;
    }
    OverwriteAgreesWithPriority(typeKey, dodPercent, tempC, cRate, calLoss, cycLoss);
  }

  /** Full-scale loss of a bar, in percent. */
  const BarScale: real := 40.0

  /** Width in percent of a loss bar: the loss against a 40 percent full
      scale, capped at a full bar. */
  method BarWidth(val: real) returns (width: real)
    ensures width <= 100.0
    ensures val <= BarScale ==> width == val * 100.0 / BarScale
    ensures val >= BarScale ==> width == 100.0
    ensures val >= 0.0 ==> width >= 0.0
  {
    width := (val / BarScale) * 100.0;
    if width > 100.0 {
      width := 100.0;
    }
  }
}
