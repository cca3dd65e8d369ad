/** The risk bucketer of the prediction service (`get_risk_level` in main.py). */
module Risk {

  datatype Tier = Low | Medium | High

  /** The order Low < Medium < High. */
  function Rank(t: Tier): nat {
    match t
    case Low => 0
    case Medium => 1
    case High => 2
  }

  /** The name the service returns in the `risk_level` field. */
  function Name(t: Tier): (r: string)
    ensures (t == Low <==> r == "Low") && (t == Medium <==> r == "Medium") && (t == High <==> r == "High")
  {
    match t
    case Low => "Low"
    case Medium => "Medium"
    case High => "High"
  }

  /**
   * The three bands, each closed at its lower end: below 0.3 is Low, from 0.3
   * up to (not including) 0.7 is Medium, 0.7 and above is High.
   */
  function RiskLevel(p: real): (t: Tier)
    ensures t == Low <==> p < 0.3
    ensures t == Medium <==> 0.3 <= p < 0.7
    ensures t == High <==> 0.7 <= p
  {
    if p < 0.3 then Low
    else if p < 0.7 then Medium
    else High
  }

  /** The boundaries belong to the upper band. */
  lemma Boundaries()
    ensures RiskLevel(0.3) == Medium && RiskLevel(0.7) == High
    ensures RiskLevel(0.29999) == Low && RiskLevel(0.70001) == High
  {
  }

  /** A higher probability never gives a lower tier. */
  lemma Monotone(p: real, q: real)
    requires p <= q
    ensures Rank(RiskLevel(p)) <= Rank(RiskLevel(q))
  {
  }

  /** The tier names are distinct, so the returned string determines the tier. */
  lemma NamesDistinct(s: Tier, t: Tier)
    ensures Name(s) == Name(t) <==> s == t
  {
  }
}
