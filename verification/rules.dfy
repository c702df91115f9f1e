/**
 The five scoring rules of the fraud scorer as a table: when each one fires,
 how many points it adds, and the reason text and feature label it reports.
 */
module FraudRules {
  import opened FraudForm

  datatype Rule = PurchaseRatio | DistanceFromLast | DistanceFromHome | OnlineWithoutPin | NoChip

  /** The fixed order in which the scorer evaluates the rules. */
  const RuleOrder: seq<Rule> := [PurchaseRatio, DistanceFromLast, DistanceFromHome, OnlineWithoutPin, NoChip]

  /** The position of a rule in `RuleOrder`. */
  function Rank(r: Rule): (k: nat)
    ensures k < |RuleOrder| && RuleOrder[k] == r
  {
    match r
    case PurchaseRatio => 0
    case DistanceFromLast => 1
    case DistanceFromHome => 2
    case OnlineWithoutPin => 3
    case NoChip => 4
  }

  /** When a rule fires. The three numeric rules use a strict `>`; the two
      select rules test the exact strings `"1"` and `"0"`. */
  predicate Fires(r: Rule, t: Transaction)
  {
    match r
    case PurchaseRatio => Exceeds(t.ratioToMedianPurchasePrice, 3.0)
    case DistanceFromLast => Exceeds(t.distanceFromLastTransaction, 100.0)
    case DistanceFromHome => Exceeds(t.distanceFromHome, 500.0)
    case OnlineWithoutPin => t.onlineOrder == "1" && t.usedPinNumber == "0"
    case NoChip => t.usedChip == "0"
  }

  function Points(r: Rule): nat
  {
    match r
    case PurchaseRatio => 30
    case DistanceFromLast => 25
    case DistanceFromHome => 20
    case OnlineWithoutPin => 15
    case NoChip => 10
  }

  function Reason(r: Rule): string
  {
    match r
    case PurchaseRatio => "High purchase amount compared to normal behavior"
    case DistanceFromLast => "Large distance from last transaction"
    case DistanceFromHome => "Transaction far from home location"
    case OnlineWithoutPin => "Online transaction without PIN usage"
    case NoChip => "Transaction without chip authentication"
  }

  function Feature(r: Rule): string
  {
    match r
    case PurchaseRatio => "Purchase Ratio"
    case DistanceFromLast => "Distance from Last Transaction"
    case DistanceFromHome => "Distance from Home"
    case OnlineWithoutPin => "Online w/o PIN"
    case NoChip => "No Chip Used"
  }

  /** One bar of the breakdown chart: a feature label and its points. */
  datatype Contribution = Contribution(feature: string, value: int)

  function ContributionOf(r: Rule): Contribution
  {
    Contribution(Feature(r), Points(r))
  }

  /** No two rules share a reason text, so each reported reason identifies
      the rule it came from. */
  lemma ReasonIdentifiesRule(r: Rule, s: Rule)
    ensures Reason(r) == Reason(s) ==> r == s
  {
  }

  /** No two rules share a feature label or a weight, so each reported
      contribution identifies the rule it came from. */
  lemma FeatureIdentifiesRule(r: Rule, s: Rule)
    ensures Feature(r) == Feature(s) ==> r == s
    ensures ContributionOf(r) == ContributionOf(s) ==> r == s
  {
  }
}
