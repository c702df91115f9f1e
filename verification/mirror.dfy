/**
 The scorer in the page's imperative style: a running score and two lists
 that each firing rule extends by `score += points`, a pushed reason and a
 pushed contribution, then the cap and the tier selection. The five `if`
 blocks of the page are the five iterations of the loop over the rule
 table. It is proved to compute exactly what `RiskScorer.Analyze` computes.
 */
module ImperativeScorer {
  import opened FraudForm
  import opened FraudRules
  import opened RiskScorer

  /** Evaluating rule `i` and then the ones after it is evaluating them all
      from `i` on. */
  lemma AccumulateUnfold(rules: seq<Rule>, i: nat, t: Transaction, acc: Tally)
    requires i < |rules|
    ensures Accumulate(rules[i..], t, acc) == Accumulate(rules[i + 1..], t, Step(acc, rules[i], t))
  {
    assert rules[i..][0] == rules[i];
    assert rules[i..][1..] == rules[i + 1..];
  }

  /** The five rule blocks: each rule, in table order, that fires adds its
      points and pushes its reason and its contribution. */
  method ApplyRules(t: Transaction) returns (score: int, reasons: seq<string>, contributions: seq<Contribution>)
    ensures Tally(score, reasons, contributions) == Accumulate(RuleOrder, t, Tally(0, [], []))
  {
    score := 0;
    reasons := [];
    contributions := [];

    var i := 0;
    while i < |RuleOrder|
      invariant 0 <= i <= |RuleOrder|
      invariant Accumulate(RuleOrder[i..], t, Tally(score, reasons, contributions))
                == Accumulate(RuleOrder, t, Tally(0, [], []))
    {
      var rule := RuleOrder[i];
      AccumulateUnfold(RuleOrder, i, t, Tally(score, reasons, contributions));
      if Fires(rule, t) {
        score := score + Points(rule);
        reasons := reasons + [Reason(rule)];
        contributions := contributions + [ContributionOf(rule)];
      }
      i := i + 1;
    }
    assert RuleOrder[i..] == [];
  }

  /** The whole scorer: the rule blocks, the cap at 95, then the tier
      selection with its inclusive thresholds. */
  method AnalyzeTransaction(t: Transaction) returns (result: Assessment)
    ensures result == Analyze(t)
  {
    var score, reasons, contributions := ApplyRules(t);

    if score > MaxScore {
      score := MaxScore;
    }

    var risk := LowRisk;
    var decision := Allow;
    if score >= HighThreshold {
      risk := HighRisk;
      decision := Flag;
    } else if score >= MediumThreshold {
      risk := MediumRisk;
      decision := Review;
    }

    assert (risk, decision) == Classify(score);
    result := Assessment(score, risk, decision, reasons, contributions);
  }
}
