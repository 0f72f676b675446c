/**
 * The options calculator (`calcOptions`, `buildOptionsStress`): intrinsic,
 * time and out-of-the-money value, moneyness, breakeven, expiry profit and
 * loss, fees, the seller's margin and the expiry scenario table.
 */
module OptionsCalc {
  import opened Base
  import opened JsNum
  import opened Risk
  import opened Sorting

  /**
   * The form of the options calculator. `riskRatio` and `minRatio` are the
   * seller's percentages; `settle` is the optional expiry settlement price.
   */
  datatype OptionsInput = OptionsInput(
    market: Market, buyer: bool, isCall: bool,
    ul: Field, strike: Field, prem: Field, qty: Field, mul: Field,
    comm: Field, taxRate: real, settle: Field, riskRatio: Field, minRatio: Field)

  /** The inputs without which the calculator shows its placeholder. */
  predicate HasInputs(inp: OptionsInput)
  {
    GV(inp.ul) != 0.0 && GV(inp.strike) != 0.0 && GV(inp.prem) != 0.0 && GV(inp.qty) != 0.0 && GV(inp.mul) != 0.0
  }

  datatype Moneyness = ITM | ATM | OTM

  function MoneynessOf(isCall: bool, ul: real, strike: real): Moneyness
  {
    if isCall then (if ul > strike then ITM else if ul == strike then ATM else OTM)
    else (if ul < strike then ITM else if ul == strike then ATM else OTM)
  }

  /** What exercising would be worth now: never negative, and positive exactly in the money. */
  function Intrinsic(isCall: bool, ul: real, strike: real): (r: real)
    ensures r >= 0.0
    ensures r > 0.0 <==> MoneynessOf(isCall, ul, strike) == ITM
  {
    if isCall then MaxR(0.0, ul - strike) else MaxR(0.0, strike - ul)
  }

  /** How far the option is out of the money: positive exactly out of the money. */
  function OutOfMoney(isCall: bool, ul: real, strike: real): (r: real)
    ensures r >= 0.0
    ensures r > 0.0 <==> MoneynessOf(isCall, ul, strike) == OTM
  {
    if isCall then MaxR(0.0, strike - ul) else MaxR(0.0, ul - strike)
  }

  /** The part of the premium above the intrinsic value, never negative. */
  function TimeValue(prem: real, iv: real): (r: real)
    ensures r >= 0.0 && r >= prem - iv
    ensures r == 0.0 || r + iv == prem
  {
    MaxR(0.0, prem - iv)
  }

  /** Intrinsic and out-of-the-money value are never both positive; they differ by the distance to the strike. */
  lemma ValueSplit(isCall: bool, ul: real, strike: real)
    ensures !(Intrinsic(isCall, ul, strike) > 0.0 && OutOfMoney(isCall, ul, strike) > 0.0)
    ensures Intrinsic(isCall, ul, strike) - OutOfMoney(isCall, ul, strike)
         == (if isCall then ul - strike else strike - ul)
    ensures MoneynessOf(isCall, ul, strike) == ATM
        <==> Intrinsic(isCall, ul, strike) == 0.0 && OutOfMoney(isCall, ul, strike) == 0.0
  {
  }

  function Breakeven(isCall: bool, strike: real, prem: real): real
  {
    if isCall then strike + prem else strike - prem
  }

  /** Profit or loss at expiry when the underlying settles at `settle` (js/app.js:1616-1619, 1738-1739). */
  function ExpiryPnL(inp: OptionsInput, settle: real): real
  {
    var eIv := Intrinsic(inp.isCall, settle, GV(inp.strike));
    if inp.buyer then ((eIv - GV(inp.prem)) * GV(inp.mul)) * GV(inp.qty)
    else ((GV(inp.prem) - eIv) * GV(inp.mul)) * GV(inp.qty)
  }

  function TotalPremium(inp: OptionsInput): real
  {
    (GV(inp.prem) * GV(inp.mul)) * GV(inp.qty)
  }

  /** The same input on the other side of the trade. */
  function Flip(inp: OptionsInput): OptionsInput
  {
    inp.(buyer := !inp.buyer)
  }

  lemma NegateProduct(a: real, b: real, m: real, q: real)
    ensures ((b - a) * m) * q == -(((a - b) * m) * q)
  {
  }

  /** The seller's expiry profit is exactly the buyer's loss. */
  lemma SellerMirrorsBuyer(inp: OptionsInput, settle: real)
    ensures ExpiryPnL(Flip(inp), settle) == -ExpiryPnL(inp, settle)
  {
    NegateProduct(Intrinsic(inp.isCall, settle, GV(inp.strike)), GV(inp.prem), GV(inp.mul), GV(inp.qty));
  }

  lemma LossAtMostPremium(e: real, p: real, m: real, q: real)
    requires e >= 0.0 && m > 0.0 && q > 0.0
    ensures ((e - p) * m) * q >= -((p * m) * q)
  {
    assert (e - p) * m >= -(p * m);
  }

  /** A buyer never loses more than the premium paid (for positive multiplier and quantity). */
  lemma BuyerLossBounded(inp: OptionsInput, settle: real)
    requires inp.buyer && GV(inp.mul) > 0.0 && GV(inp.qty) > 0.0
    ensures ExpiryPnL(inp, settle) >= -TotalPremium(inp)
  {
    LossAtMostPremium(Intrinsic(inp.isCall, settle, GV(inp.strike)), GV(inp.prem), GV(inp.mul), GV(inp.qty));
  }

  /** A seller never gains more than the premium received. */
  lemma SellerGainBounded(inp: OptionsInput, settle: real)
    requires !inp.buyer && GV(inp.mul) > 0.0 && GV(inp.qty) > 0.0
    ensures ExpiryPnL(inp, settle) <= TotalPremium(inp)
  {
    BuyerLossBounded(Flip(inp), settle);
    SellerMirrorsBuyer(Flip(inp), settle);
    assert Flip(Flip(inp)) == inp;
  }

  /** With a positive premium, settling at the breakeven price gives exactly zero, for either side. */
  lemma BreakevenIsFlat(inp: OptionsInput)
    requires GV(inp.prem) > 0.0
    ensures ExpiryPnL(inp, Breakeven(inp.isCall, GV(inp.strike), GV(inp.prem))) == 0.0
  {
    assert Intrinsic(inp.isCall, Breakeven(inp.isCall, GV(inp.strike), GV(inp.prem)), GV(inp.strike)) == GV(inp.prem);
  }

  /**
   * The put's bounded extreme, `(strike - premium) · mul · qty`: the buyer's
   * maximum profit and the seller's maximum loss. A call's is unbounded.
   */
  function PutExtreme(inp: OptionsInput): Option<real>
  {
    if inp.isCall then None else Some(((GV(inp.strike) - GV(inp.prem)) * GV(inp.mul)) * GV(inp.qty))
  }

  lemma GainAtMost(e: real, s: real, p: real, m: real, q: real)
    requires e <= s && m > 0.0 && q > 0.0
    ensures ((e - p) * m) * q <= ((s - p) * m) * q
  {
    assert (e - p) * m <= (s - p) * m;
  }

  /**
   * For a put with a positive strike and a settlement that is not negative,
   * the buyer gains at most `PutExtreme`, reached when the underlying
   * settles at 0.
   */
  lemma PutBuyerGainBounded(inp: OptionsInput, settle: real)
    requires inp.buyer && !inp.isCall && GV(inp.strike) > 0.0 && settle >= 0.0
    requires GV(inp.mul) > 0.0 && GV(inp.qty) > 0.0
    ensures ExpiryPnL(inp, settle) <= PutExtreme(inp).value
    ensures ExpiryPnL(inp, 0.0) == PutExtreme(inp).value
  {
    assert Intrinsic(false, 0.0, GV(inp.strike)) == GV(inp.strike);
    GainAtMost(Intrinsic(false, settle, GV(inp.strike)), GV(inp.strike), GV(inp.prem), GV(inp.mul), GV(inp.qty));
  }

  // ------------------------------------------------------------ the seller

  datatype SellerMargin = SellerMargin(a: real, b: real, perLot: real, total: real)

  /**
   * The seller's margin (js/app.js:1663-1667): `A = ul·mul·rr − oom·mul`,
   * `B = ul·mul·mr`, per lot `max(A, B)` plus the premium's value, and the
   * total is per lot times quantity.
   */
  function SellerMarginOf(inp: OptionsInput): (r: SellerMargin)
    ensures r.a == SellerA(inp) && r.b == SellerB(inp)
    ensures r.perLot >= r.a + GV(inp.prem) * GV(inp.mul) && r.perLot >= r.b + GV(inp.prem) * GV(inp.mul)
    ensures r.perLot == r.a + GV(inp.prem) * GV(inp.mul) || r.perLot == r.b + GV(inp.prem) * GV(inp.mul)
    ensures r.total == r.perLot * GV(inp.qty)
  {
    var a, b := SellerA(inp), SellerB(inp);
    var mpc := MaxR(a, b) + GV(inp.prem) * GV(inp.mul);
    SellerMargin(a, b, mpc, mpc * GV(inp.qty))
  }

  /** The risk-based margin `A`: the risk ratio of the underlying's value, less the out-of-the-money value. */
  function SellerA(inp: OptionsInput): real
  {
    (GV(inp.ul) * GV(inp.mul)) * (GV(inp.riskRatio) / 100.0) - OutOfMoney(inp.isCall, GV(inp.ul), GV(inp.strike)) * GV(inp.mul)
  }

  /** The minimum margin `B`: the minimum ratio of the underlying's value. */
  function SellerB(inp: OptionsInput): real
  {
    (GV(inp.ul) * GV(inp.mul)) * (GV(inp.minRatio) / 100.0)
  }

  /**
   * The seller always posts at least the minimum margin plus the premium's
   * value; at or in the money `A` takes the full risk ratio, and every
   * point out of the money lowers `A` by the multiplier.
   */
  lemma SellerMarginFloor(inp: OptionsInput)
    ensures SellerMarginOf(inp).perLot >= SellerB(inp) + GV(inp.prem) * GV(inp.mul)
    ensures MoneynessOf(inp.isCall, GV(inp.ul), GV(inp.strike)) != OTM ==>
      SellerA(inp) == (GV(inp.ul) * GV(inp.mul)) * (GV(inp.riskRatio) / 100.0)
    ensures SellerA(inp) + OutOfMoney(inp.isCall, GV(inp.ul), GV(inp.strike)) * GV(inp.mul)
      == (GV(inp.ul) * GV(inp.mul)) * (GV(inp.riskRatio) / 100.0)
  {
  }

  // -------------------------------------------------------------- overview

  datatype OptionsOverview = OptionsOverview(
    totalPremium: real, intrinsic: real, timeValue: real, outOfMoney: real,
    moneyness: Moneyness, breakeven: real, expiryPnL: Option<real>,
    commTotal: real, openTax: real, closeTax: real, fees: real, putExtreme: Option<real>)

  /** Commission on both legs; the tax is charged on the premium at opening and again, at the same premium, at closing. */
  function CommTotal(inp: OptionsInput): real { (GV(inp.comm) * GV(inp.qty)) * 2.0 }

  function PremiumTax(inp: OptionsInput): real { ((GV(inp.prem) * GV(inp.mul)) * GV(inp.qty)) * inp.taxRate }

  /** The overview both sides share (js/app.js:1599-1620). */
  function OptionsCalc(inp: OptionsInput): (r: OptionsOverview)
    requires HasInputs(inp)
    ensures r.totalPremium == TotalPremium(inp)
    ensures r.intrinsic == Intrinsic(inp.isCall, GV(inp.ul), GV(inp.strike))
    ensures r.timeValue == TimeValue(GV(inp.prem), r.intrinsic)
    ensures r.outOfMoney == OutOfMoney(inp.isCall, GV(inp.ul), GV(inp.strike))
    ensures r.moneyness == MoneynessOf(inp.isCall, GV(inp.ul), GV(inp.strike))
    ensures r.breakeven == Breakeven(inp.isCall, GV(inp.strike), GV(inp.prem))
    ensures r.intrinsic >= 0.0 && r.timeValue >= 0.0 && r.outOfMoney >= 0.0
    ensures !(r.intrinsic > 0.0 && r.outOfMoney > 0.0)
    ensures r.intrinsic > 0.0 <==> r.moneyness == ITM
    ensures r.expiryPnL.Some? <==> GV(inp.settle) != 0.0
    ensures r.expiryPnL.Some? ==> r.expiryPnL.value == ExpiryPnL(inp, GV(inp.settle))
    ensures r.fees == CommTotal(inp) + 2.0 * PremiumTax(inp)
  {
    var ul, strike, prem := GV(inp.ul), GV(inp.strike), GV(inp.prem);
    var iv := Intrinsic(inp.isCall, ul, strike);
    var expPL := if GV(inp.settle) != 0.0 then Some(ExpiryPnL(inp, GV(inp.settle))) else None;
    var tax := PremiumTax(inp);
    OptionsOverview(
      TotalPremium(inp), iv, TimeValue(prem, iv), OutOfMoney(inp.isCall, ul, strike),
      MoneynessOf(inp.isCall, ul, strike), Breakeven(inp.isCall, strike, prem), expPL,
      CommTotal(inp), tax, tax, CommTotal(inp) + tax + tax, PutExtreme(inp))
  }

  // ---------------------------------------------------------------- stress

  /** The ladder's step: a tenth of 15% of the underlying, rounded, and at least 1. */
  function LadderStep(ul: real): (r: int)
    ensures r >= 1
    ensures r >= Round(ul * 0.15 / 10.0)
    ensures r == 1 || r == Round(ul * 0.15 / 10.0)
  {
    var s := Round(ul * 0.15 / 10.0);
    if s >= 1 then s else 1
  }

  lemma FloorShift(x: real, n: int)
    ensures (x + n as real).Floor == x.Floor + n
  {
  }

  /** `Math.round(p)` for `p` from `p` up to `hi` in steps of `step`. */
  function LadderFrom(p: real, hi: real, step: int): seq<int>
    requires step >= 1
    decreases if p <= hi then (hi - p).Floor + 1 else 0
  {
    if p <= hi then
      FloorShift(hi - p - step as real, step);
      [Round(p)] + LadderFrom(p + step as real, hi, step)
    else []
  }

  /** The rounded ladder rises by whole steps, so it is strictly increasing and starts at or above `Round(p)`. */
  lemma {:induction false} LadderIncreasing(p: real, hi: real, step: int)
    requires step >= 1
    ensures StrictlyIncreasing(LadderFrom(p, hi, step))
    ensures forall k :: 0 <= k < |LadderFrom(p, hi, step)| ==> LadderFrom(p, hi, step)[k] >= Round(p)
    decreases if p <= hi then (hi - p).Floor + 1 else 0
  {
    if p <= hi {
      FloorShift(hi - p - step as real, step);
      var t := LadderFrom(p + step as real, hi, step);
      LadderIncreasing(p + step as real, hi, step);
      RoundShift(p, step);
      LadderCons(p, hi, step, t);
    }
  }

  lemma LadderCons(p: real, hi: real, step: int, t: seq<int>)
    requires step >= 1 && p <= hi && t == LadderFrom(p + step as real, hi, step)
    requires StrictlyIncreasing(t) && forall k :: 0 <= k < |t| ==> t[k] >= Round(p) + step
    ensures StrictlyIncreasing(LadderFrom(p, hi, step))
    ensures forall k :: 0 <= k < |LadderFrom(p, hi, step)| ==> LadderFrom(p, hi, step)[k] >= Round(p)
  {
    assert LadderFrom(p, hi, step) == [Round(p)] + t;
    ConsStrict(Round(p), t);
  }

  /** The ladder before sorting: the rounded steps, then the strike and the underlying when not already there. */
  function WithAnchors(ladder: seq<int>, strike: real, ul: real): seq<int>
  {
    var withStrike := if Round(strike) in ladder then ladder else ladder + [Round(strike)];
    if Round(ul) in withStrike then withStrike else withStrike + [Round(ul)]
  }

  /** The rounded ladder from 15% below to 15% above the underlying. */
  function Ladder(inp: OptionsInput): seq<int>
  {
    var ul := GV(inp.ul);
    LadderFrom(ul - ul * 0.15, ul + ul * 0.15, LadderStep(ul))
  }

  /** The settlement levels of the scenario table. */
  function StressLevels(inp: OptionsInput): seq<int>
  {
    SortAsc(WithAnchors(Ladder(inp), GV(inp.strike), GV(inp.ul)))
  }

  lemma IncreasingDistinct(s: seq<int>)
    requires StrictlyIncreasing(s)
    ensures Distinct(s)
  {
  }

  lemma AppendFresh(s: seq<int>, x: int)
    requires Distinct(s) && x !in s
    ensures Distinct(s + [x])
  {
    forall i, j | 0 <= i < j < |s + [x]|
      ensures (s + [x])[i] != (s + [x])[j]
    {
      if j == |s| {
        assert (s + [x])[i] == s[i];
      }
    }
  }

  /** Adding the anchors keeps the ladder free of duplicates and adds exactly the two anchors. */
  lemma WithAnchorsShape(ladder: seq<int>, strike: real, ul: real)
    requires Distinct(ladder)
    ensures Distinct(WithAnchors(ladder, strike, ul))
    ensures forall x :: x in WithAnchors(ladder, strike, ul) <==> x in ladder || x == Round(strike) || x == Round(ul)
  {
    var w1 := if Round(strike) in ladder then ladder else ladder + [Round(strike)];
    if Round(strike) !in ladder {
      AppendFresh(ladder, Round(strike));
    }
    if Round(ul) !in w1 {
      AppendFresh(w1, Round(ul));
    }
  }

  lemma SortAscElements(s: seq<int>)
    ensures forall x :: x in SortAsc(s) <==> x in s
  {
    forall x
      ensures x in SortAsc(s) <==> x in s
    {
      assert x in SortAsc(s) <==> x in multiset(SortAsc(s));
      assert x in s <==> x in multiset(s);
    }
  }

  /**
   * The scenario levels are strictly increasing, contain the rounded strike
   * and the rounded underlying, and are exactly the ladder and those two.
   */
  lemma StressLevelsShape(inp: OptionsInput)
    ensures StrictlyIncreasing(StressLevels(inp))
    ensures Round(GV(inp.strike)) in StressLevels(inp) && Round(GV(inp.ul)) in StressLevels(inp)
    ensures forall x :: x in StressLevels(inp) <==> x in Ladder(inp) || x == Round(GV(inp.strike)) || x == Round(GV(inp.ul))
  {
    var ul := GV(inp.ul);
    LadderIncreasing(ul - ul * 0.15, ul + ul * 0.15, LadderStep(ul));
    IncreasingDistinct(Ladder(inp));
    WithAnchorsShape(Ladder(inp), GV(inp.strike), ul);
    SortAscStrict(WithAnchors(Ladder(inp), GV(inp.strike), ul));
    SortAscElements(WithAnchors(Ladder(inp), GV(inp.strike), ul));
  }

  datatype OptionRow = OptionRow(level: int, intrinsic: real, pnl: real, current: bool, atStrike: bool, profit: bool)

  /** One scenario row: settlement at `lv`, marked when it is the current price or the strike. */
  function OptionRowAt(inp: OptionsInput, lv: int): (row: OptionRow)
    ensures row.pnl == ExpiryPnL(inp, lv as real)
    ensures row.profit <==> row.pnl >= 0.0
    ensures row.current <==> lv == Round(GV(inp.ul))
    ensures row.atStrike <==> lv == Round(GV(inp.strike))
  {
    var pl := ExpiryPnL(inp, lv as real);
    OptionRow(lv, Intrinsic(inp.isCall, lv as real, GV(inp.strike)), pl,
      lv == Round(GV(inp.ul)), lv == Round(GV(inp.strike)), pl >= 0.0)
  }

  /** The ladder loop of `buildOptionsStress`: push `Math.round(p)` while `p` has not passed `hi`. */
  method PushLadder(lo: real, hi: real, step: int) returns (levels: seq<int>)
    requires step >= 1
    ensures levels == LadderFrom(lo, hi, step)
  {
    levels := [];
    var p := lo;
    while p <= hi
      invariant levels + LadderFrom(p, hi, step) == LadderFrom(lo, hi, step)
      decreases if p <= hi then (hi - p).Floor + 1 else 0
    {
      FloorShift(hi - p - step as real, step);
      levels := levels + [Round(p)];
      p := p + step as real;
    }
  }

  /**
   * `buildOptionsStress`: push the rounded ladder, push the missing
   * anchors, sort, then one row per level.
   */
  method BuildOptionsStress(inp: OptionsInput) returns (levels: seq<int>, rows: seq<OptionRow>)
    ensures levels == StressLevels(inp)
    ensures |rows| == |levels|
    ensures forall i :: 0 <= i < |rows| ==> rows[i] == OptionRowAt(inp, levels[i])
  {
    var ul := GV(inp.ul);
    var range := ul * 0.15;
    levels := PushLadder(ul - range, ul + range, LadderStep(ul));
    assert levels == Ladder(inp);
    if Round(GV(inp.strike)) !in levels {
      levels := levels + [Round(GV(inp.strike))];
    }
    if Round(ul) !in levels {
      levels := levels + [Round(ul)];
    }
    assert levels == WithAnchors(Ladder(inp), GV(inp.strike), ul);
    levels := SortAsc(levels);
    rows := [];
    for k := 0 to |levels|
      invariant |rows| == k
      invariant forall i :: 0 <= i < k ==> rows[i] == OptionRowAt(inp, levels[i])
    {
      rows := rows + [OptionRowAt(inp, levels[k])];
    }
  }

  /** Every buyer row loses at most the premium paid. */
  lemma BuyerRowsBounded(inp: OptionsInput, levels: seq<int>, i: int)
    requires inp.buyer && GV(inp.mul) > 0.0 && GV(inp.qty) > 0.0 && 0 <= i < |levels|
    ensures OptionRowAt(inp, levels[i]).pnl >= -TotalPremium(inp)
  {
    BuyerLossBounded(inp, levels[i] as real);
  }

  // ------------------------------------------------------------ calculator

  datatype OptionsResult =
    | Placeholder
    | BuyerResult(overview: OptionsOverview, levels: seq<int>, stress: seq<OptionRow>)
    | SellerResult(overview: OptionsOverview, margin: SellerMargin, levels: seq<int>, stress: seq<OptionRow>)

  /**
   * `calcOptions`: the placeholder when the underlying, strike, premium,
   * quantity or multiplier reads as 0; otherwise the overview, the seller's
   * margin for a seller, and the scenario table.
   */
  method CalcOptions(inp: OptionsInput) returns (res: OptionsResult)
    ensures res.Placeholder? <==> !HasInputs(inp)
    ensures res.BuyerResult? <==> HasInputs(inp) && inp.buyer
    ensures !res.Placeholder? ==>
      && HasInputs(inp) && res.overview == OptionsCalc(inp) && res.levels == StressLevels(inp)
      && |res.stress| == |res.levels|
      && forall i :: 0 <= i < |res.stress| ==> res.stress[i] == OptionRowAt(inp, res.levels[i])
    ensures res.SellerResult? ==> res.margin == SellerMarginOf(inp)
  {
    if !HasInputs(inp) {
      return Placeholder;
    }
    var overview := OptionsCalc(inp);
    var levels, rows := BuildOptionsStress(inp);
    if inp.buyer {
      res := BuyerResult(overview, levels, rows);
    } else {
      res := SellerResult(overview, SellerMarginOf(inp), levels, rows);
    }
  }

  // -------------------------------------------------------------- examples

  /** A call seller: underlying 500, strike 520, premium 5, multiplier 100, ratios 15% and 10%. */
  function SellerCallExample(): OptionsInput
  {
    OptionsInput(TW, false, true, Some(500.0), Some(520.0), Some(5.0), Some(1.0), Some(100.0),
      None, 0.001, None, Some(15.0), Some(10.0))
  }

  /** A = 50000·0.15 − 20·100 = 5500, B = 50000·0.10 = 5000, per lot 5500 + 500 = 6000. */
  lemma SellerCallWorkedExample()
    ensures SellerMarginOf(SellerCallExample()) == SellerMargin(5500.0, 5000.0, 6000.0, 6000.0)
    ensures OptionsCalc(SellerCallExample()).moneyness == OTM
    ensures OptionsCalc(SellerCallExample()).outOfMoney == 20.0
  {
    assert OutOfMoney(true, 500.0, 520.0) == 20.0;
  }
}
