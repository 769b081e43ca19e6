# Battery state-of-health estimator — Dafny model

This project models the decision logic of a single-page battery state-of-health
(SOH) estimator. The page reads a chemistry (lead-acid, NMC or LFP), a design
capacity, an age in months, a cycle count, an ambient temperature, a depth of
discharge and a charge rate. It then estimates:

- the calendar loss and the cycle loss, from an empirical ageing law with
  Arrhenius temperature stress;
- the SOH as 100 % minus the total loss, floored at zero;
- the remaining capacity;
- a status tier;
- a primary ageing cause;
- the widths of two loss bars.

Modules:

- `Wrappers` (`wrappers.dfy`): `Option` for form fields that may fail to parse and `Result` for refusals.
- `Chemistry` (`chemistry.dfy`): the immutable chemistry table, keyed by `"lead"`, `"nmc"` and `"lfp"`.
- `Ageing` (`ageing.dfy`): temperature stress, calendar and cycle loss, the SOH clamp and the capacity.
- `Classify` (`classify.dfy`): the status tier, the primary cause and the bar width.
- `Estimator` (`estimator.dfy`): one press of the calculate button. It checks the input, looks up the chemistry, computes the losses, the SOH and the classifications, and returns the figures the page shows.

The page computes `Math.exp`, `Math.sqrt` and `Math.pow` in floating point.
Here they are a `Math` record of real functions passed in as a parameter. The
predicate `Sound` states the only facts the proofs use about them:

- `exp(x) >= 0` and `exp(0) = 1`;
- `sqrt(0) = 0`, and `sqrt(x) >= 0` for `x >= 0`;
- `pow(b, e) >= 0` for `b >= 0`.

Other modelling choices:

- The steps that reassign local variables are methods with the same assignments in the same order: the SOH clamp, the status variables, the four cause overrides and the bar-width cap.
- The pure formulas are functions.
- Labels and status messages are the page's own strings.

Modelling notes:

- The page does not check that the design capacity is positive, that age, cycles or charge rate are non-negative, or that depth of discharge is within 0–100. The model accepts any reals. Range results are stated under the hypotheses they need.
- The cause rules are independent `if`s that each overwrite the label, so the LAST rule that applies decides. `Classify.PrimaryCause` keeps this order literally. Its contract states the result both as the in-order overwrite of the four rules and as a priority list read from the last rule to the first, with an "exactly when" clause per label. Separately, `Classify.OverwriteIsLastMatch` proves for any list of rules that overwriting in order is the same as taking the first match in reverse order.
- A chemistry key that is not in the table and is not the name of an inherited object property makes the page fail when it reads the profile (script.js:56-61). The model returns `Err(UnknownChemistry)` for every key outside the table.
- Zero loss does not imply zero history: SOH is 100 whenever both losses are 0. That also happens at zero depth of discharge with no age (`pow(0, e) = 0`), or at absolute zero. So the contract states only "no age and no cycles gives SOH 100", not the converse.
- At exactly absolute zero (`tempC = -273.15`) the page divides by zero. In floating point the stress factor then comes out as `exp(-Infinity) = 0`, and `Ageing.TempStress` returns 0 there.

## Model

| member | source | states |
|---|---|---|
| `Chemistry.Lookup` | script.js:2-27 | a key has a profile exactly when it is `lead`, `nmc` or `lfp`, and every profile found has positive coefficients and a depth-of-discharge exponent of at least 1 |
| `Chemistry.TableWellFormed` | script.js:2-27 | the table has exactly the three keys and every entry is well formed |
| `Chemistry.RateFactorAtLeastOne` | script.js:73 | for every table chemistry and a non-negative charge rate, `1 + cRate * rate_stress >= 1`, with equality exactly at charge rate 0 |
| `Ageing.TempStress` | script.js:57-61 | the Arrhenius stress factor is never negative, including the absolute-zero case |
| `Ageing.ReferenceTemperatureNeutral` | script.js:57-61 | at 25 °C (298.15 K) the temperature stress factor is exactly 1 |
| `Ageing.CalendarLossNonNegative` | script.js:65 | a non-negative age gives a non-negative calendar loss for every well-formed profile, at any temperature |
| `Ageing.CycleLossNonNegative` | script.js:69-75 | non-negative cycles, depth of discharge and charge rate give a non-negative cycle loss |
| `Ageing.NoHistoryNoLoss` | script.js:65-75 | with zero age and zero cycles both losses are exactly 0, whatever the chemistry, temperature, depth of discharge and charge rate |
| `Ageing.SohFromLosses` | script.js:78-80 | total loss is the sum of the two losses; SOH is `100 - totalLoss` when that is not negative and 0 otherwise; it is never negative; it is at most 100 when both losses are non-negative |
| `Ageing.Capacity` | script.js:81 | with a non-negative design capacity and an SOH in [0, 100], the capacity lies in [0, designCap]; it equals designCap at SOH 100 and 0 at SOH 0 |
| `Classify.ClassifyStatus` | script.js:93-109 | the tier is good exactly when SOH >= 80, inspect exactly when 60 <= SOH < 80 and replace exactly when SOH < 60 (80 and 60 are inclusive lower bounds) |
| `Classify.LabelsDistinct` | script.js:119-123 | the five cause labels are pairwise different strings |
| `Classify.OverwriteIsLastMatch` | script.js:119-123 | for any list of rules and any starting label, applying the rules in order with each applicable one overwriting the label gives the first applicable rule of the reversed list, with the starting label as the fallback (last write wins) |
| `Classify.OverwriteAgreesWithPriority` | script.js:119-123 | the page's four overrides, started from natural ageing, agree on every input with the priority list fast charge > heat > lead deep discharge > frequent cycling > natural ageing |
| `Classify.PrimaryCause` | script.js:119-123 | the four successive overwrites give the sequential-override result and the priority-list result; fast charge exactly when cRate > 1; heat exactly when tempC > 35 and cRate <= 1; deep discharge exactly for lead with DOD > 90, tempC <= 35 and cRate <= 1; frequent cycling exactly when its rule holds and no later rule does; natural ageing exactly when no rule holds |
| `Classify.BarWidth` | script.js:151-154 | the width is at most 100; it equals `val * 100 / 40` for `val <= 40` and 100 for `val >= 40`; it is non-negative for a non-negative loss |
| `Estimator.CalculateProfessionalSoh` | script.js:50-123 | refuses exactly when a basic field fails to parse, or the chemistry is unknown; otherwise the losses come from the ageing law, the SOH is floored at 0 and the capacity is `designCap * soh / 100`; the tier follows the 80/60 thresholds and the health message is its icon and text; the cause is the priority-list result and the reason text is its label; each bar width is at most 100, is `loss * 100 / 40` for a loss of at most 40 and exactly 100 for a loss of 40 or more; with sound transcendentals and non-negative inputs SOH is in [0, 100] and capacity in [0, designCap]; with no age and no cycles SOH is 100, capacity is designCap and the tier is good |

## Left out

- DOM reads and writes are not modelled: element lookups, text and colour updates, showing the result box and scrolling. The parsed form is a parameter and the displayed figures are the returned record.
- The `alert` on missing input is not modelled; it becomes the `Err(MissingBasicInput)` result.
- `resetForm` (page reload) is not modelled; it is a side effect only.
- `copyReport` is not modelled; it is clipboard I/O with a fallback copy command.
- The report text is not modelled: number formatting with `toFixed`, the date from `toLocaleDateString`, and the free-text memo. Those are locale-dependent formatting.
- Floating point is not modelled: values are unbounded reals. Rounding, overflow to Infinity and NaN propagation are not captured, except for the absolute-zero division described above.
- Chemistry keys that name inherited object properties (`toString`, `constructor`, `__proto__`, …) are not modelled as the page treats them. There the page reads `undefined` coefficients and shows NaN figures, a replace tier (`NaN >= 80` and `NaN >= 60` are false) and a cause from the DOD, temperature and charge-rate rules. The model refuses these keys with `Err(UnknownChemistry)`. The page's selector only offers the three table keys.
- NaN in the unguarded depth-of-discharge and charge-rate fields is not modelled. Those are slider values that always parse.
- NaN from `sqrt` of a negative age, or from `pow` of a negative ratio, is not modelled. There the model's transcendentals return some unconstrained real.
- Monotonicity of SOH in age, cycles, temperature, depth of discharge and charge rate is not proved. It needs properties of `exp`, `sqrt` and `pow` beyond the minimal facts in `Sound`.
- The worked numeric example (lead-acid, 12 months, 200 cycles, SOH about 90.6 %) is not reproduced. It needs numeric values of `sqrt(12)` and `0.8^2.3`.
