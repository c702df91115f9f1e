/**
 The fraud scorer: run the five rules in order, add up the points of those
 that fire, cap the total at 95 and map the capped score to a risk tier and
 a recommended decision.

 `Analyze` is written the way the scorer computes — a running score, reason
 list and contribution list that each firing rule extends — and its contract
 relates it to the reference definitions below it: the rules that fire, in
 rule order (`Fired`), and what they report (`Reasons`, `Contributions`,
 `Total`).
 */
module RiskScorer {
  import opened FraudForm
  import opened FraudRules

  /** The cap on the score. */
  const MaxScore: int := 95
  /** The lowest score rated High Risk. */
  const HighThreshold: int := 70
  /** The lowest score rated Medium Risk. */
  const MediumThreshold: int := 40

  datatype Risk = LowRisk | MediumRisk | HighRisk

  datatype Decision = Allow | Review | Flag

  /** The scorer's result. `score` is what the page shows as a percentage. */
  datatype Assessment = Assessment(
    score: int,
    risk: Risk,
    decision: Decision,
    reasons: seq<string>,
    contributions: seq<Contribution>)

  // ---------------------------------------------------------------------
  // Reference definitions

  /** Rules listed in strictly increasing rule order. */
  ghost predicate Ranked(rules: seq<Rule>)
  {
    forall i, j :: 0 <= i < j < |rules| ==> Rank(rules[i]) < Rank(rules[j])
  }

  /** The rules among `rules` that fire on `t`, in their original order. */
  function FiredAmong(rules: seq<Rule>, t: Transaction): (fired: seq<Rule>)
    ensures |fired| <= |rules|
    ensures forall r :: r in fired <==> r in rules && Fires(r, t)
    ensures Ranked(rules) ==> Ranked(fired)
  {
    if rules == [] then []
    else
      var rest := FiredAmong(rules[1..], t);
      assert Ranked(rules) ==> Ranked(rules[1..]) by {
        if Ranked(rules) {
          forall i, j | 0 <= i < j < |rules[1..]|
            ensures Rank(rules[1..][i]) < Rank(rules[1..][j])
          {
            assert rules[1..][i] == rules[i + 1] && rules[1..][j] == rules[j + 1];
          }
        }
      }
      if Fires(rules[0], t) then
        assert Ranked(rules) ==> Ranked([rules[0]] + rest) by {
          if Ranked(rules) {
            forall r | r in rest ensures Rank(rules[0]) < Rank(r) {
              var j :| 0 <= j < |rules[1..]| && rules[1..][j] == r;
              assert rules[j + 1] == r;
            }
          }
        }
        [rules[0]] + rest
      else
        rest
  }

  /** The rules that fire on `t`, in the order the scorer evaluates them. */
  function Fired(t: Transaction): seq<Rule>
  {
    FiredAmong(RuleOrder, t)
  }

  /** The sum of the points of `rules`. */
  function Total(rules: seq<Rule>): nat
  {
    if rules == [] then 0 else Points(rules[0]) + Total(rules[1..])
  }

  /** The reason texts of `rules`, in order. */
  function Reasons(rules: seq<Rule>): (texts: seq<string>)
    ensures |texts| == |rules|
  {
    if rules == [] then [] else [Reason(rules[0])] + Reasons(rules[1..])
  }

  /** The contributions of `rules`, in order. */
  function Contributions(rules: seq<Rule>): (cs: seq<Contribution>)
    ensures |cs| == |rules|
  {
    if rules == [] then [] else [ContributionOf(rules[0])] + Contributions(rules[1..])
  }

  /** Entry `i` of the reasons of `rules` is the reason of rule `i`, and
      likewise for the contributions. */
  lemma {:induction false} ReportsAt(rules: seq<Rule>, i: int)
    requires 0 <= i < |rules|
    ensures Reasons(rules)[i] == Reason(rules[i])
    ensures Contributions(rules)[i] == ContributionOf(rules[i])
  {
    if i > 0 {
      ReportsAt(rules[1..], i - 1);
    }
  }

  /** The sum of the `value`s of a list of contributions. */
  function SumValues(cs: seq<Contribution>): int
  {
    if cs == [] then 0 else cs[0].value + SumValues(cs[1..])
  }

  function Min(a: int, b: int): int
  {
    if a <= b then a else b
  }

  // ---------------------------------------------------------------------
  // The scorer

  /** The running state of the scorer: score so far, reasons, contributions. */
  datatype Tally = Tally(score: int, reasons: seq<string>, contributions: seq<Contribution>)

  /** Evaluate one rule: if it fires, add its points and append its reason
      and its contribution. */
  function Step(acc: Tally, r: Rule, t: Transaction): Tally
  {
    if Fires(r, t) then
      Tally(acc.score + Points(r), acc.reasons + [Reason(r)], acc.contributions + [ContributionOf(r)])
    else
      acc
  }

  /** Evaluate `rules` one after another, each unconditionally. The result
      extends `acc` by exactly the rules that fire, in order. */
  function Accumulate(rules: seq<Rule>, t: Transaction, acc: Tally): (out: Tally)
    ensures out.score == acc.score + Total(FiredAmong(rules, t))
    ensures out.reasons == acc.reasons + Reasons(FiredAmong(rules, t))
    ensures out.contributions == acc.contributions + Contributions(FiredAmong(rules, t))
  {
    if rules == [] then acc
    else
      var out := Accumulate(rules[1..], t, Step(acc, rules[0], t));
      var rest := FiredAmong(rules[1..], t);
      assert FiredAmong(rules, t) == if Fires(rules[0], t) then [rules[0]] + rest else rest;
      assert Fires(rules[0], t) ==> ([rules[0]] + rest)[1..] == rest;
      out
  }

  /** The risk tier and decision of a capped score. Both thresholds are
      inclusive, and the decision follows the tier one to one. */
  function Classify(score: int): (tier: (Risk, Decision))
    ensures tier.0 == HighRisk <==> score >= HighThreshold
    ensures tier.0 == MediumRisk <==> MediumThreshold <= score < HighThreshold
    ensures tier.0 == LowRisk <==> score < MediumThreshold
    ensures tier.1 == Flag <==> tier.0 == HighRisk
    ensures tier.1 == Review <==> tier.0 == MediumRisk
    ensures tier.1 == Allow <==> tier.0 == LowRisk
  {
    if score >= HighThreshold then (HighRisk, Flag)
    else if score >= MediumThreshold then (MediumRisk, Review)
    else (LowRisk, Allow)
  }

  /** Score one transaction: the capped total of the rules that fire, their
      reasons and contributions in rule order, and the tier of the capped
      score. */
  function Analyze(t: Transaction): (a: Assessment)
    ensures 0 <= a.score <= MaxScore
    ensures a.score == Min(MaxScore, SumValues(a.contributions))
    ensures a.reasons == Reasons(Fired(t))
    ensures a.contributions == Contributions(Fired(t))
    ensures (a.risk, a.decision) == Classify(a.score)
  {
    var tally := Accumulate(RuleOrder, t, Tally(0, [], []));
    assert tally == Tally(Total(Fired(t)), Reasons(Fired(t)), Contributions(Fired(t)));
    var score := if tally.score > MaxScore then MaxScore else tally.score;
    var tier := Classify(score);
    SumOfContributions(Fired(t));
    Assessment(score, tier.0, tier.1, tally.reasons, tally.contributions)
  }

  // ---------------------------------------------------------------------
  // Properties

  /** The reasons and the contributions are parallel lists, one entry per
      rule that fires. */
  lemma ReportsAreParallel(t: Transaction)
    ensures |Analyze(t).reasons| == |Analyze(t).contributions| == |Fired(t)|
    ensures forall i :: 0 <= i < |Fired(t)| ==>
              Analyze(t).reasons[i] == Reason(Fired(t)[i])
              && Analyze(t).contributions[i] == ContributionOf(Fired(t)[i])
  {
    forall i | 0 <= i < |Fired(t)|
      ensures Analyze(t).reasons[i] == Reason(Fired(t)[i])
      ensures Analyze(t).contributions[i] == ContributionOf(Fired(t)[i])
    {
      ReportsAt(Fired(t), i);
    }
  }

  /** The tier and decision agree with the inclusive 70 and 40 thresholds. */
  lemma TierThresholds(t: Transaction)
    ensures Analyze(t).risk == HighRisk && Analyze(t).decision == Flag <==> Analyze(t).score >= 70
    ensures Analyze(t).risk == MediumRisk && Analyze(t).decision == Review <==> 40 <= Analyze(t).score < 70
    ensures Analyze(t).risk == LowRisk && Analyze(t).decision == Allow <==> Analyze(t).score < 40
  {
  }

  /** The contributions of some rules add up to those rules' points. */
  lemma {:induction false} SumOfContributions(rules: seq<Rule>)
    ensures SumValues(Contributions(rules)) == Total(rules)
  {
    if rules != [] {
      assert Contributions(rules)[1..] == Contributions(rules[1..]);
      SumOfContributions(rules[1..]);
    }
  }

  /** The score is the sum of the points of the rules that fire, capped. */
  lemma ScoreIsCappedTotal(t: Transaction)
    ensures Analyze(t).score == Min(MaxScore, Total(Fired(t)))
  {
    SumOfContributions(Fired(t));
  }

  /** The reasons and contributions come in rule order. */
  lemma ReportedInRuleOrder(t: Transaction)
    ensures forall i, j :: 0 <= i < j < |Fired(t)| ==> Rank(Fired(t)[i]) < Rank(Fired(t)[j])
  {
    assert Ranked(RuleOrder);
  }

  /** Entry `i` of the reasons and entry `i` of the contributions name the
      same rule. */
  lemma ReasonsParallelContributions(t: Transaction, i: int, r: Rule)
    requires 0 <= i < |Analyze(t).reasons|
    ensures Analyze(t).reasons[i] == Reason(r) <==> Analyze(t).contributions[i].feature == Feature(r)
    ensures Analyze(t).reasons[i] == Reason(r) <==> Analyze(t).contributions[i] == ContributionOf(r)
  {
    ReportsAt(Fired(t), i);
    ReasonIdentifiesRule(Fired(t)[i], r);
    FeatureIdentifiesRule(Fired(t)[i], r);
  }

  /** A rule's contribution, or its reason, is among those of `rules`
      exactly when the rule is. */
  lemma ReportedIffListed(rules: seq<Rule>, r: Rule)
    ensures ContributionOf(r) in Contributions(rules) <==> r in rules
    ensures Reason(r) in Reasons(rules) <==> r in rules
  {
    if ContributionOf(r) in Contributions(rules) {
      var i :| 0 <= i < |rules| && Contributions(rules)[i] == ContributionOf(r);
      ReportsAt(rules, i);
      FeatureIdentifiesRule(rules[i], r);
    }
    if Reason(r) in Reasons(rules) {
      var i :| 0 <= i < |rules| && Reasons(rules)[i] == Reason(r);
      ReportsAt(rules, i);
      ReasonIdentifiesRule(rules[i], r);
    }
    if r in rules {
      var i :| 0 <= i < |rules| && rules[i] == r;
      ReportsAt(rules, i);
    }
  }

  /** A rule is reported — by its reason and by its contribution — exactly
      when it fires. */
  lemma ReportedIffFires(t: Transaction, r: Rule)
    ensures ContributionOf(r) in Analyze(t).contributions <==> Fires(r, t)
    ensures Reason(r) in Analyze(t).reasons <==> Fires(r, t)
  {
    assert r in RuleOrder by { assert RuleOrder[Rank(r)] == r; }
    ReportedIffListed(Fired(t), r);
  }

  /** Every contribution is worth one of the five rule weights. */
  lemma ContributionValues(t: Transaction)
    ensures forall c :: c in Analyze(t).contributions ==> c.value in {30, 25, 20, 15, 10}
  {
    var cs := Analyze(t).contributions;
    forall c | c in cs ensures c.value in {30, 25, 20, 15, 10} {
      var i :| 0 <= i < |cs| && cs[i] == c;
      ReportsAt(Fired(t), i);
    }
  }

  /** The purchase-ratio rule adds 30 points exactly when the ratio is
      above 3. */
  lemma PurchaseRatioRule(t: Transaction)
    ensures ContributionOf(PurchaseRatio) in Analyze(t).contributions
            <==> Exceeds(t.ratioToMedianPurchasePrice, 3.0)
  {
    ReportedIffFires(t, PurchaseRatio);
  }

  /** The last-distance rule adds 25 points exactly when the distance is
      above 100. */
  lemma DistanceFromLastRule(t: Transaction)
    ensures ContributionOf(DistanceFromLast) in Analyze(t).contributions
            <==> Exceeds(t.distanceFromLastTransaction, 100.0)
  {
    ReportedIffFires(t, DistanceFromLast);
  }

  /** The home-distance rule adds 20 points exactly when the distance is
      above 500. */
  lemma DistanceFromHomeRule(t: Transaction)
    ensures ContributionOf(DistanceFromHome) in Analyze(t).contributions
            <==> Exceeds(t.distanceFromHome, 500.0)
  {
    ReportedIffFires(t, DistanceFromHome);
  }

  /** The online-without-PIN rule adds 15 points exactly when the order is
      online (`"1"`) and no PIN was used (`"0"`). */
  lemma OnlineWithoutPinRule(t: Transaction)
    ensures ContributionOf(OnlineWithoutPin) in Analyze(t).contributions
            <==> t.onlineOrder == "1" && t.usedPinNumber == "0"
  {
    ReportedIffFires(t, OnlineWithoutPin);
  }

  /** The no-chip rule adds 10 points exactly when no chip was used (`"0"`),
      whatever the other fields hold. */
  lemma NoChipRule(t: Transaction)
    ensures ContributionOf(NoChip) in Analyze(t).contributions <==> t.usedChip == "0"
  {
    ReportedIffFires(t, NoChip);
  }

  /** The numeric thresholds are strict: a value exactly at the threshold,
      or NaN, adds nothing, and a value just above it does. */
  lemma NumericThresholdsAreStrict(t: Transaction)
    ensures t.ratioToMedianPurchasePrice in {Finite(3.0), NaN}
            ==> ContributionOf(PurchaseRatio) !in Analyze(t).contributions
    ensures t.ratioToMedianPurchasePrice == Finite(3.01)
            ==> ContributionOf(PurchaseRatio) in Analyze(t).contributions
    ensures t.distanceFromLastTransaction in {Finite(100.0), NaN}
            ==> ContributionOf(DistanceFromLast) !in Analyze(t).contributions
    ensures t.distanceFromLastTransaction == Finite(100.01)
            ==> ContributionOf(DistanceFromLast) in Analyze(t).contributions
    ensures t.distanceFromHome in {Finite(500.0), NaN}
            ==> ContributionOf(DistanceFromHome) !in Analyze(t).contributions
    ensures t.distanceFromHome == Finite(500.01)
            ==> ContributionOf(DistanceFromHome) in Analyze(t).contributions
  {
    PurchaseRatioRule(t);
    DistanceFromLastRule(t);
    DistanceFromHomeRule(t);
  }

  /** Firing more rules never lowers the total. */
  lemma {:induction false} TotalMonotone(rules: seq<Rule>, t: Transaction, u: Transaction)
    requires forall r :: r in rules && Fires(r, t) ==> Fires(r, u)
    ensures Total(FiredAmong(rules, t)) <= Total(FiredAmong(rules, u))
  {
    if rules != [] {
      TotalMonotone(rules[1..], t, u);
    }
  }

  /** A transaction that fires every rule another one fires scores at least
      as high. */
  lemma Monotone(t: Transaction, u: Transaction)
    requires forall r :: Fires(r, t) ==> Fires(r, u)
    ensures Analyze(t).score <= Analyze(u).score
  {
    TotalMonotone(RuleOrder, t, u);
    ScoreIsCappedTotal(t);
    ScoreIsCappedTotal(u);
  }

  /** When all five rules fire the points add up to 100, the score is
      capped at 95, and the transaction is flagged as High Risk. */
  lemma AllRulesFire(t: Transaction)
    requires forall r :: Fires(r, t)
    ensures SumValues(Analyze(t).contributions) == 100
    ensures Analyze(t).score == 95
    ensures Analyze(t).risk == HighRisk && Analyze(t).decision == Flag
    ensures |Analyze(t).reasons| == 5
  {
    assert Fired(t) == RuleOrder by {
      AllFiredAmong(RuleOrder, t);
    }
    SumOfContributions(RuleOrder);
    TotalOfAllRules();
  }

  /** The five weights add up to 100. */
  lemma TotalOfAllRules()
    ensures Total(RuleOrder) == 100
  {
  }

  lemma {:induction false} AllFiredAmong(rules: seq<Rule>, t: Transaction)
    requires forall r :: r in rules ==> Fires(r, t)
    ensures FiredAmong(rules, t) == rules
  {
    if rules != [] {
      AllFiredAmong(rules[1..], t);
    }
  }

  /** When no rule fires the score is 0, the transaction is allowed as Low
      Risk, and nothing is reported. */
  lemma NoRuleFires(t: Transaction)
    requires forall r :: !Fires(r, t)
    ensures Analyze(t).score == 0
    ensures Analyze(t).risk == LowRisk && Analyze(t).decision == Allow
    ensures Analyze(t).reasons == [] && Analyze(t).contributions == []
  {
    NoneFiredAmong(RuleOrder, t);
  }

  lemma {:induction false} NoneFiredAmong(rules: seq<Rule>, t: Transaction)
    requires forall r :: r in rules ==> !Fires(r, t)
    ensures FiredAmong(rules, t) == []
  {
    if rules != [] {
      NoneFiredAmong(rules[1..], t);
    }
  }

  /** The rules that fire depend only on which rules fire. */
  lemma {:induction false} SameFiring(rules: seq<Rule>, t: Transaction, u: Transaction)
    requires forall r :: Fires(r, t) <==> Fires(r, u)
    ensures FiredAmong(rules, t) == FiredAmong(rules, u)
  {
    if rules != [] {
      SameFiring(rules[1..], t, u);
    }
  }

  /** Two transactions that fire the same rules get the same assessment. */
  lemma AssessmentDependsOnlyOnFiring(t: Transaction, u: Transaction)
    requires forall r :: Fires(r, t) <==> Fires(r, u)
    ensures Analyze(t) == Analyze(u)
  {
    SameFiring(RuleOrder, t, u);
  }

  /** `repeatRetailer` has no effect on the assessment. */
  lemma RepeatRetailerIgnored(t: Transaction, v: string)
    ensures Analyze(t.(repeatRetailer := v)) == Analyze(t)
  {
    AssessmentDependsOnlyOnFiring(t.(repeatRetailer := v), t);
  }

  /** The order of the tiers, Low below Medium below High. */
  function Severity(risk: Risk): nat
  {
    match risk
    case LowRisk => 0
    case MediumRisk => 1
    case HighRisk => 2
  }

  /** A higher score never gets a lower tier. */
  lemma ClassifyMonotone(s: int, s': int)
    requires s <= s'
    ensures Severity(Classify(s).0) <= Severity(Classify(s').0)
  {
  }

  /** A transaction that fires every rule another one fires is rated at
      least as risky. */
  lemma TierMonotone(t: Transaction, u: Transaction)
    requires forall r :: Fires(r, t) ==> Fires(r, u)
    ensures Severity(Analyze(t).risk) <= Severity(Analyze(u).risk)
  {
    Monotone(t, u);
  }

  /** Equal decisions mean equal risk tiers and conversely. */
  lemma DecisionMatchesRisk(t: Transaction, u: Transaction)
    ensures Analyze(t).decision == Analyze(u).decision <==> Analyze(t).risk == Analyze(u).risk
  {
  }
}
