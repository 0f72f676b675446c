/** The four-tier risk classification shared by every calculator (`riskLvl`). */
module Risk {
  import opened Arith

  datatype Market = TW | US

  datatype RiskLevel = Safe | Caution | Danger | Critical

  /** 0 for safe up to 3 for critical. */
  function Severity(l: RiskLevel): nat
  {
    match l
    case Safe => 0
    case Caution => 1
    case Danger => 2
    case Critical => 3
  }

  /**
   * `riskLvl(v, s, c, d)`: safe at or above `s`, else caution at or above
   * `c`, else danger at or above `d`, else critical. The thresholds are
   * tried in that order, so a threshold that is out of order is skipped.
   */
  function RiskLvl(v: real, s: real, c: real, d: real): (r: RiskLevel)
    ensures r == Safe <==> v >= s
    ensures r == Critical <==> v < s && v < c && v < d
    ensures s >= c >= d ==> (r == Caution <==> c <= v < s) && (r == Danger <==> d <= v < c)
  {
    if v >= s then Safe else if v >= c then Caution else if v >= d then Danger else Critical
  }

  /** A larger ratio is never classified as more severe. */
  lemma RiskLvlMonotone(v: real, w: real, s: real, c: real, d: real)
    requires v <= w
    ensures Severity(RiskLvl(w, s, c, d)) <= Severity(RiskLvl(v, s, c, d))
  {
  }

  /** A stress-table price: `base` moved by `p` percent. */
  function StepPrice(base: real, p: int): real
  {
    base * (1.0 + p as real / 100.0)
  }

  lemma StepPriceNonZero(base: real, p: int)
    requires base != 0.0 && p > -100
    ensures StepPrice(base, p) != 0.0
  {
    MulNonZero(base, 1.0 + p as real / 100.0);
  }

  /** For a positive base, a larger move gives a larger, still positive, price. */
  lemma StepPriceMonotone(base: real, p: int, q: int)
    requires base > 0.0 && -100 < p < q
    ensures 0.0 < StepPrice(base, p) < StepPrice(base, q)
  {
    assert 0.0 < 1.0 + p as real / 100.0 < 1.0 + q as real / 100.0;
  }
}
