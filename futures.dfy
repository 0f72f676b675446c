/**
 * The futures risk calculator (`calcFutures`): required margins, equity
 * and the risk index of a long or short futures position, the index
 * levels at which the broker calls for margin and liquidates, and a stress
 * table of index moves.
 */
module FuturesCalc {
  import opened Base
  import opened JsNum
  import opened Risk
  import opened Arith

  /**
   * The form of the futures calculator. Numeric inputs are read with `gV`,
   * except `equity`, which is read raw: an empty field means "three times
   * the initial margin", while an entered 0 is a 0. `taxRate` comes from a
   * select box.
   */
  datatype FuturesInput = FuturesInput(
    market: Market, long: bool,
    entry: Field, qty: Field, im: Field, mm: Field, mul: Field,
    current: Field, comm: Field, taxRate: real, equity: Field)

  /** The inputs without which the calculator shows its placeholder. */
  predicate HasInputs(inp: FuturesInput)
  {
    GV(inp.entry) != 0.0 && GV(inp.qty) != 0.0 && GV(inp.im) != 0.0 && GV(inp.mul) != 0.0
  }

  /** The current index level, which defaults to the entry level when it reads as 0. */
  function Current(inp: FuturesInput): real
  {
    if GV(inp.current) != 0.0 then GV(inp.current) else GV(inp.entry)
  }

  /** Required initial and maintenance margin for the whole position. */
  function TotalIM(inp: FuturesInput): real { GV(inp.im) * GV(inp.qty) }

  function TotalMM(inp: FuturesInput): real { GV(inp.mm) * GV(inp.qty) }

  /** The initial equity: the entered amount, or three times the initial margin when the field is empty. */
  function InitialEquity(inp: FuturesInput): real
  {
    match inp.equity
    case Some(v) => v
    case None => TotalIM(inp) * 3.0
  }

  /** Profit or loss a point of the index: multiplier times quantity. */
  function PerPoint(inp: FuturesInput): real { GV(inp.mul) * GV(inp.qty) }

  /** Index points gained at `level`: up for a long position, down for a short one. */
  function PointGain(inp: FuturesInput, level: real): real
  {
    if inp.long then level - GV(inp.entry) else GV(inp.entry) - level
  }

  function PnLAt(inp: FuturesInput, level: real): real
  {
    (PointGain(inp, level) * GV(inp.mul)) * GV(inp.qty)
  }

  /** Equity at `level`: initial equity plus the profit or loss. */
  function EquityAt(inp: FuturesInput, level: real): real
  {
    InitialEquity(inp) + PnLAt(inp, level)
  }

  /** The risk index, equity over required initial margin in percent; 0 when that margin is not positive. */
  function RiskIndex(inp: FuturesInput, eq: real): real
  {
    if TotalIM(inp) > 0.0 then eq / TotalIM(inp) * 100.0 else 0.0
  }

  /**
   * The four tiers, tried in this order: a risk index of at most 25% is
   * critical (forced liquidation), else equity at or below the maintenance
   * margin is danger (margin call; the comparison is not strict), else a
   * risk index of at most 50% is caution, else safe.
   */
  function FuturesLevel(ri: real, eq: real, tMM: real): (r: RiskLevel)
    ensures r == Critical <==> ri <= 25.0
    ensures r == Danger <==> ri > 25.0 && eq <= tMM
    ensures r == Caution <==> ri > 25.0 && eq > tMM && ri <= 50.0
    ensures r == Safe <==> ri > 50.0 && eq > tMM
  {
    if ri <= 25.0 then Critical
    else if eq <= tMM then Danger
    else if ri <= 50.0 then Caution
    else Safe
  }

  /** How many points the index can move against the position before equity falls to `target`. */
  function PointsTo(inp: FuturesInput, target: real): real
  {
    if PerPoint(inp) > 0.0 then (InitialEquity(inp) - target) / PerPoint(inp) else 0.0
  }

  /** The index level `PointsTo(target)` points against the position. */
  function LevelFor(inp: FuturesInput, target: real): real
  {
    if inp.long then GV(inp.entry) - PointsTo(inp, target) else GV(inp.entry) + PointsTo(inp, target)
  }

  /** The margin-call level: equity reaches the maintenance margin there. */
  function CallLevel(inp: FuturesInput): real { LevelFor(inp, TotalMM(inp)) }

  /** The forced-liquidation level: the risk index reaches 25% there. */
  function ForcedLevel(inp: FuturesInput): real { LevelFor(inp, 0.25 * TotalIM(inp)) }

  /** How far the current level still is from `level`, measured in the direction of a loss; not positive once it is reached. */
  function DistanceTo(inp: FuturesInput, level: real): real
  {
    if inp.long then Current(inp) - level else level - Current(inp)
  }

  datatype FuturesOverview = FuturesOverview(
    totalIM: real, totalMM: real, initialEquity: real, excessMargin: real,
    pointGain: real, unrealized: real, equity: real, riskIndex: real, perPoint: real,
    maxLossToCall: real, pointsToCall: real, callLevel: real,
    maxLossToForced: real, pointsToForced: real, forcedLevel: real,
    distToCall: real, distToForced: real,
    commTotal: real, taxTotal: real, fees: real, netPL: real, level: RiskLevel)

  /** Commission on both legs, and the transaction tax on the entry and the current notional. */
  function CommTotal(inp: FuturesInput): real { (GV(inp.comm) * GV(inp.qty)) * 2.0 }

  function TaxOn(inp: FuturesInput, level: real): real
  {
    ((level * GV(inp.mul)) * GV(inp.qty)) * inp.taxRate
  }

  /** The overview of a futures position (js/app.js:1389-1434). */
  function FuturesCalc(inp: FuturesInput): (r: FuturesOverview)
    requires HasInputs(inp)
    ensures r.equity == EquityAt(inp, Current(inp))
    ensures r.riskIndex == RiskIndex(inp, r.equity)
    ensures r.level == FuturesLevel(r.riskIndex, r.equity, TotalMM(inp))
    ensures r.callLevel == CallLevel(inp) && r.forcedLevel == ForcedLevel(inp)
    ensures r.fees == CommTotal(inp) + TaxOn(inp, GV(inp.entry)) + TaxOn(inp, Current(inp))
  {
    var tIM, tMM, initEq := TotalIM(inp), TotalMM(inp), InitialEquity(inp);
    var curr := Current(inp);
    var eq := EquityAt(inp, curr);
    var ri := RiskIndex(inp, eq);
    var callLvl, forcedLvl := CallLevel(inp), ForcedLevel(inp);
    var taxTotal := TaxOn(inp, GV(inp.entry)) + TaxOn(inp, curr);
    var fees := CommTotal(inp) + taxTotal;
    var upl := PnLAt(inp, curr);
    FuturesOverview(
      tIM, tMM, initEq, initEq - tIM,
      PointGain(inp, curr), upl, eq, ri, PerPoint(inp),
      initEq - tMM, PointsTo(inp, tMM), callLvl,
      initEq - 0.25 * tIM, PointsTo(inp, 0.25 * tIM), forcedLvl,
      DistanceTo(inp, callLvl), DistanceTo(inp, forcedLvl),
      CommTotal(inp), taxTotal, fees, upl - fees,
      FuturesLevel(ri, eq, tMM))
  }

  /** At `LevelFor(target)` the position has lost exactly the initial equity above `target`. */
  lemma EquityAtLevelFor(inp: FuturesInput, target: real)
    requires PerPoint(inp) > 0.0
    ensures EquityAt(inp, LevelFor(inp, target)) == target
  {
    var x := InitialEquity(inp) - target;
    var pt := PointsTo(inp, target);
    assert PointGain(inp, LevelFor(inp, target)) == -pt;
    LossCancels(GV(inp.entry), x, GV(inp.mul), GV(inp.qty), inp.long);
  }

  lemma LossCancels(e: real, x: real, m: real, q: real, long: bool)
    requires m * q > 0.0
    ensures var pt := x / (m * q);
      var lvl := if long then e - pt else e + pt;
      ((if long then lvl - e else e - lvl) * m) * q == -x
  {
    var pt := x / (m * q);
    assert pt * (m * q) == x;
    assert ((-pt) * m) * q == -x;
  }

  /**
   * At the margin-call level equity equals the maintenance margin, for long
   * and short positions alike (js/app.js:1416-1420).
   */
  lemma CallLevelMeetsMaintenance(inp: FuturesInput)
    requires PerPoint(inp) > 0.0
    ensures EquityAt(inp, CallLevel(inp)) == TotalMM(inp)
  {
    EquityAtLevelFor(inp, TotalMM(inp));
  }

  /** At the forced-liquidation level the risk index is exactly 25% (js/app.js:1422-1425). */
  lemma ForcedLevelRiskIndex(inp: FuturesInput)
    requires PerPoint(inp) > 0.0 && TotalIM(inp) > 0.0
    ensures RiskIndex(inp, EquityAt(inp, ForcedLevel(inp))) == 25.0
  {
    EquityAtLevelFor(inp, 0.25 * TotalIM(inp));
    assert EquityAt(inp, ForcedLevel(inp)) == 0.25 * TotalIM(inp);
    DivUnique(0.25 * TotalIM(inp), TotalIM(inp), 0.25);
  }

  /** When the field is empty the initial equity is three times the required initial margin. */
  lemma DefaultInitialEquity(inp: FuturesInput)
    requires inp.equity.None? && HasInputs(inp)
    ensures FuturesCalc(inp).initialEquity == 3.0 * FuturesCalc(inp).totalIM
    ensures FuturesCalc(inp).excessMargin == 2.0 * FuturesCalc(inp).totalIM
  {
  }

  /** With a positive initial margin, more equity is never classified as more severe. */
  lemma FuturesLevelMonotone(inp: FuturesInput, e1: real, e2: real)
    requires TotalIM(inp) > 0.0 && e1 <= e2
    ensures Severity(FuturesLevel(RiskIndex(inp, e2), e2, TotalMM(inp)))
         <= Severity(FuturesLevel(RiskIndex(inp, e1), e1, TotalMM(inp)))
  {
    DivMonotone(e1, e2, TotalIM(inp));
  }

  lemma DivMonotone(a: real, b: real, d: real)
    requires d > 0.0 && a <= b
    ensures a / d * 100.0 <= b / d * 100.0
  {
    assert (b - a) / d >= 0.0;
    DivSub(b, a, d);
  }

  // ---------------------------------------------------------------- stress

  datatype FuturesStressRow = FuturesStressRow(
    pct: int, level: real, diff: real, pnl: real, equity: real, riskIndex: real,
    status: RiskLevel, current: bool)

  /** The index moves of the stress table, in percent of the entry level. */
  const FuturesSteps: seq<int> := [10, 8, 6, 5, 4, 3, 2, 1, 0, -1, -2, -3, -4, -5, -6, -8, -10, -12, -15, -20]

  /** One row of the stress table (js/app.js:1464-1478), classified exactly as the overview is. */
  function FuturesStressRowAt(inp: FuturesInput, p: int): (row: FuturesStressRow)
    ensures row.level == StepPrice(GV(inp.entry), p)
    ensures row.equity == EquityAt(inp, row.level)
    ensures row.riskIndex == RiskIndex(inp, row.equity)
    ensures row.status == FuturesLevel(row.riskIndex, row.equity, TotalMM(inp))
    ensures row.current <==> p == 0
  {
    var lv := StepPrice(GV(inp.entry), p);
    var e2 := EquityAt(inp, lv);
    var r2 := RiskIndex(inp, e2);
    FuturesStressRow(p, lv, lv - GV(inp.entry), PnLAt(inp, lv), e2, r2, FuturesLevel(r2, e2, TotalMM(inp)), p == 0)
  }

  /** The stress table: one row per step, in the order of the steps. */
  method FuturesStressTable(inp: FuturesInput) returns (rows: seq<FuturesStressRow>)
    ensures |rows| == |FuturesSteps|
    ensures forall i :: 0 <= i < |rows| ==> rows[i] == FuturesStressRowAt(inp, FuturesSteps[i])
  {
    rows := [];
    for k := 0 to |FuturesSteps|
      invariant |rows| == k
      invariant forall i :: 0 <= i < k ==> rows[i] == FuturesStressRowAt(inp, FuturesSteps[i])
    {
      rows := rows + [FuturesStressRowAt(inp, FuturesSteps[k])];
    }
  }

  /**
   * The 0% row agrees with the overview when no current level is entered:
   * same equity, same risk index, same classification.
   */
  lemma StressCurrentRowMatches(inp: FuturesInput)
    requires HasInputs(inp) && GV(inp.current) == 0.0
    ensures FuturesStressRowAt(inp, 0).current
    ensures FuturesStressRowAt(inp, 0).equity == FuturesCalc(inp).equity
    ensures FuturesStressRowAt(inp, 0).status == FuturesCalc(inp).level
  {
    assert StepPrice(GV(inp.entry), 0) == GV(inp.entry);
  }

  /**
   * For a long position with positive entry, multiplier and quantity, each
   * row of the stress table is at least as severe as the one above it.
   */
  lemma LongStressSeverityGrows(inp: FuturesInput, i: int, j: int)
    requires inp.long && GV(inp.entry) > 0.0 && GV(inp.mul) > 0.0 && GV(inp.qty) > 0.0 && TotalIM(inp) > 0.0
    requires 0 <= i < j < |FuturesSteps|
    ensures Severity(FuturesStressRowAt(inp, FuturesSteps[i]).status)
         <= Severity(FuturesStressRowAt(inp, FuturesSteps[j]).status)
  {
    var pi, pj := FuturesSteps[i], FuturesSteps[j];
    assert -20 <= pj < pi <= 10;
    StepPriceMonotone(GV(inp.entry), pj, pi);
    var li, lj := StepPrice(GV(inp.entry), pi), StepPrice(GV(inp.entry), pj);
    PnLMonotone(inp, lj, li);
    FuturesLevelMonotone(inp, EquityAt(inp, lj), EquityAt(inp, li));
  }

  /** A long position gains with the index level. */
  lemma PnLMonotone(inp: FuturesInput, l1: real, l2: real)
    requires inp.long && GV(inp.mul) > 0.0 && GV(inp.qty) > 0.0 && l1 <= l2
    ensures PnLAt(inp, l1) <= PnLAt(inp, l2)
  {
    ProductMonotone(PointGain(inp, l1), PointGain(inp, l2), GV(inp.mul), GV(inp.qty));
  }

  lemma ProductMonotone(a: real, b: real, m: real, q: real)
    requires a <= b && m > 0.0 && q > 0.0
    ensures (a * m) * q <= (b * m) * q
  {
    assert a * m <= b * m;
  }

  // -------------------------------------------------------------- examples

  /** One long TX (大台) contract at 20000 with the exchange's margins and no entered equity. */
  function TxLongExample(current: real): FuturesInput
  {
    FuturesInput(TW, true, Some(20000.0), Some(1.0), Some(184000.0), Some(141000.0), Some(200.0),
      Some(current), None, 0.00002, None)
  }

  /**
   * Initial equity 552000 (three times 184000); the margin call comes after
   * (552000 - 141000) / 200 = 2055 points and the forced liquidation after
   * (552000 - 46000) / 200 = 2530 points.
   */
  lemma TxLongWorkedExample()
    ensures FuturesCalc(TxLongExample(20000.0)).initialEquity == 552000.0
    ensures FuturesCalc(TxLongExample(20000.0)).callLevel == 17945.0
    ensures FuturesCalc(TxLongExample(20000.0)).forcedLevel == 17470.0
    ensures FuturesCalc(TxLongExample(20000.0)).level == Safe
    ensures FuturesCalc(TxLongExample(17900.0)).level == Danger
  {
    var a, b := TxLongExample(20000.0), TxLongExample(17900.0);
    assert PointsTo(a, TotalMM(a)) == 2055.0;
    assert PointsTo(a, 0.25 * TotalIM(a)) == 2530.0;
    assert RiskIndex(a, EquityAt(a, Current(a))) == 300.0;
    assert EquityAt(b, Current(b)) == 132000.0;
    assert RiskIndex(b, 132000.0) == 132000.0 / 184000.0 * 100.0;
  }

  // ------------------------------------------------------------ calculator

  datatype FuturesResult = Placeholder | Result(overview: FuturesOverview, stress: seq<FuturesStressRow>)

  /**
   * `calcFutures`: the placeholder, before any division, when the entry
   * level, quantity, initial margin or multiplier reads as 0; otherwise the
   * overview and the stress table.
   */
  method CalcFutures(inp: FuturesInput) returns (res: FuturesResult)
    ensures res.Placeholder? <==> !HasInputs(inp)
    ensures res.Result? ==>
      && HasInputs(inp) && res.overview == FuturesCalc(inp)
      && |res.stress| == |FuturesSteps|
      && forall i :: 0 <= i < |FuturesSteps| ==> res.stress[i] == FuturesStressRowAt(inp, FuturesSteps[i])
  {
    if !HasInputs(inp) {
      return Placeholder;
    }
    var rows := FuturesStressTable(inp);
    res := Result(FuturesCalc(inp), rows);
  }
}
