# FraudGuard transaction risk scorer — verified model

FraudGuard is a single-page form that scores a card transaction for fraud
risk. Pressing "Analyze Transaction" runs `analyzeTransaction`. This function
reads the three numeric fields (distance from home, distance from the last
transaction, ratio to the median purchase price) and the select fields
(online order, used PIN, used chip; repeat retailer is collected but never
read). It then runs five fixed threshold rules in order. Each rule that fires
adds its points, a reason text and a `{feature, value}` contribution. The
total is capped at 95, and the capped score picks one of three tiers:
Low Risk / Allow, Medium Risk / Review, High Risk / Flag.

The model has four modules:

- `FraudForm` (`form.dfy`): the submitted form. A numeric field is a `Num`,
  the possible outcomes of JavaScript's `Number(...)`: a finite real, either
  infinity, or NaN. `Exceeds` is JavaScript's `>` against a constant, so any
  comparison with NaN is false. The select fields stay as the `"0"`/`"1"`
  strings the form holds.
- `FraudRules` (`rules.dfy`): the rule table. It gives each rule's firing
  condition, points, reason text and feature label, plus the order the rules
  are evaluated in.
- `RiskScorer` (`scorer.dfy`): `Analyze`, the pure scorer. It is a left fold
  of one rule step over the rule table, then the cap, then `Classify`. Its
  contract ties it to reference definitions: the rules that fire, in order
  (`Fired`), and what they report (`Reasons`, `Contributions`, `Total`).
  The lemmas of this module prove the scorer's properties.
- `ImperativeScorer` (`mirror.dfy`): `AnalyzeTransaction`, the scorer in the
  page's imperative style. It keeps a running score and two lists that each
  firing rule extends, then applies the cap and the tier `if`/`else if`. It
  is proved equal to `Analyze` on every input.

The rules test the select fields against the exact strings `"1"` and `"0"`;
any other value never fires a rule.

## Model

| member | source | states |
|---|---|---|
| FraudForm.ExceedsIsStrict | Frontend/App.js:26-30 | a field's numeric comparison is strict: a value equal to the bound does not exceed it, NaN never does, and +Infinity always does |
| FraudRules.ReasonIdentifiesRule | Frontend/App.js:32-59 | no two rules push the same reason text |
| FraudRules.FeatureIdentifiesRule | Frontend/App.js:33-60 | no two rules push the same feature label or the same contribution |
| RiskScorer.FiredAmong | Frontend/App.js:30-61 | the rules that fire are exactly the listed rules whose condition holds, and they keep their evaluation order |
| RiskScorer.Accumulate | Frontend/App.js:22-61 | evaluating the rules one after another, starting from a given score and lists, adds exactly the points of the rules that fire and appends exactly their reasons and their contributions, in order |
| RiskScorer.Classify | Frontend/App.js:65-74 | High/Flag exactly when score >= 70, Medium/Review exactly when 40 <= score < 70, Low/Allow exactly when score < 40; the decision follows the tier one to one |
| RiskScorer.ReportsAt | Frontend/App.js:32-60 | for any list of rules, entry i of the reasons and of the contributions they push is the reason and the contribution of rule i |
| RiskScorer.Analyze | Frontend/App.js:21-83 | score in [0, 95]; score = min(95, sum of the contribution values); the reasons and contributions are exactly those the fired rules report, in rule order; the tier and decision are the ones the thresholds pick for the capped score |
| RiskScorer.ReportsAreParallel | Frontend/App.js:30-61 | there are as many reasons as contributions as fired rules, and position i of both lists belongs to the i-th fired rule |
| RiskScorer.TierThresholds | Frontend/App.js:65-74 | the assessment is High Risk / Flag exactly when its score is >= 70, Medium Risk / Review exactly when 40 <= score < 70, Low Risk / Allow exactly when score < 40 |
| RiskScorer.SumOfContributions | Frontend/App.js:31-60 | the values of the contributions pushed for some rules add up to the points those rules add to the score |
| RiskScorer.ScoreIsCappedTotal | Frontend/App.js:63 | the score is the sum of the points of the fired rules, capped at 95 |
| RiskScorer.ReportedInRuleOrder | Frontend/App.js:30-61 | the reported rules appear in strictly increasing rule order: ratio, last-distance, home-distance, online-without-PIN, no-chip |
| RiskScorer.ReasonsParallelContributions | Frontend/App.js:32-60 | entry i of the reasons is rule r's reason exactly when entry i of the contributions is rule r's contribution |
| RiskScorer.ReportedIffFires | Frontend/App.js:30-61 | a rule's contribution, and also its reason, is reported exactly when the rule fires |
| RiskScorer.ContributionValues | Frontend/App.js:33-60 | every contribution value is one of 30, 25, 20, 15, 10 |
| RiskScorer.PurchaseRatioRule | Frontend/App.js:30-34 | the 30-point "Purchase Ratio" contribution is present exactly when the ratio is above 3 |
| RiskScorer.DistanceFromLastRule | Frontend/App.js:36-43 | the 25-point "Distance from Last Transaction" contribution is present exactly when the last-distance is above 100 |
| RiskScorer.DistanceFromHomeRule | Frontend/App.js:45-49 | the 20-point "Distance from Home" contribution is present exactly when the home-distance is above 500 |
| RiskScorer.OnlineWithoutPinRule | Frontend/App.js:51-55 | the 15-point "Online w/o PIN" contribution is present exactly when online_order is `"1"` and used_pin_number is `"0"` |
| RiskScorer.NoChipRule | Frontend/App.js:57-61 | the 10-point "No Chip Used" contribution is present exactly when used_chip is `"0"`, whatever the other fields hold |
| RiskScorer.NumericThresholdsAreStrict | Frontend/App.js:26-45 | a ratio of exactly 3, a last-distance of exactly 100 or a home-distance of exactly 500, and NaN in any of these fields, adds nothing; 3.01, 100.01 and 500.01 each add their contribution |
| RiskScorer.TotalMonotone | Frontend/App.js:30-61 | if every rule firing on one transaction also fires on another, the second transaction's raw total is no lower |
| RiskScorer.Monotone | Frontend/App.js:30-63 | a transaction that fires a superset of another's rules has a score no lower |
| RiskScorer.TotalOfAllRules | Frontend/App.js:31-58 | the five weights add up to 100 |
| RiskScorer.AllFiredAmong | Frontend/App.js:30-61 | when every listed rule fires, all of them are reported, in order |
| RiskScorer.AllRulesFire | Frontend/App.js:30-74 | when all five rules fire the contributions add up to 100, the score is capped at 95, the result is High Risk / Flag, and there are five reasons |
| RiskScorer.NoneFiredAmong | Frontend/App.js:30-61 | when no listed rule fires, none is reported |
| RiskScorer.NoRuleFires | Frontend/App.js:22-24 | when no rule fires the score is 0, the result is Low Risk / Allow, and both lists are empty |
| RiskScorer.SameFiring | Frontend/App.js:30-61 | two transactions that fire the same rules report the same rules |
| RiskScorer.AssessmentDependsOnlyOnFiring | Frontend/App.js:30-74 | two transactions that fire the same rules get identical assessments |
| RiskScorer.RepeatRetailerIgnored | Frontend/App.js:12 | changing repeat_retailer changes nothing in the assessment: score, tier, decision, reasons and contributions |
| RiskScorer.ClassifyMonotone | Frontend/App.js:65-74 | a higher score never gets a lower tier |
| RiskScorer.TierMonotone | Frontend/App.js:63-74 | a transaction that fires a superset of another's rules is rated at least as risky |
| RiskScorer.DecisionMatchesRisk | Frontend/App.js:65-74 | two assessments have the same decision exactly when they have the same risk tier |
| ImperativeScorer.AccumulateUnfold | Frontend/App.js:30-61 | evaluating rule i and then the rules after it is the same as evaluating all the rules from i on |
| ImperativeScorer.ApplyRules | Frontend/App.js:22-61 | a loop over the rule table, one iteration per `if` block of App.js:30-61, on a running score and two lists: it adds exactly the points of the firing rules and pushes exactly their reasons and contributions |
| ImperativeScorer.AnalyzeTransaction | Frontend/App.js:21-83 | the imperative scorer (running score, pushes, cap, `if`/`else if` tiers) returns exactly the pure `Analyze` assessment on every input |

## Left out

- React state and event handling (`useState`, `handleChange`, `setForm`,
  `setResult`; Frontend/App.js:5-19, 76): this is UI plumbing, not scoring
  logic. The model takes the form as a value and returns the assessment.
- All JSX rendering (Frontend/App.js:85-240): the CSS class for the tier,
  the "No suspicious patterns detected" fallback and the bar width
  `value * 2`%. This is presentation.
- The string parsing done by `Number(...)` (Frontend/App.js:26-28): the
  model takes its outcome as a `Num`. In the source an empty field parses as
  0, and `"1e400"` parses as Infinity.
- IEEE-754 rounding: finite values are exact reals, so a decimal such as
  3.01 is compared as written.
- The `probability` string `` `${score}%` `` and the emoji decision strings
  (Frontend/App.js:66, 70, 73, 77): risk and decision are enums, and
  `score` is the number inside the percentage.
- Idempotence (the same input always gives the same output): every member
  is a mathematical function, so this holds by construction and needs no
  lemma.
