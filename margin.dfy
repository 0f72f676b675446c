/**
 * The margin-trading calculator (`calcMargin`): long positions bought on
 * margin and short positions sold on borrowed shares, under the Taiwan and
 * US conventions, with fees, taxes, interest and a stress table.
 */
module MarginCalc {
  import opened Base
  import opened JsNum
  import opened Risk
  import opened Arith

  datatype Product = Stock | Etf | LeveragedEtf

  /**
   * The form of the margin calculator. Numeric inputs are read with `gV`;
   * `marginRate` (long), `shortMarginRate` (short), `feeDisc` and `taxRate`
   * come from select boxes and are always set. `price` is the buy price of a long position or the sell
   * price of a short one; `callRate` and `forcedRate` are percentages.
   */
  datatype MarginInput = MarginInput(
    market: Market, long: bool, product: Product,
    qty: Field, callRate: Field, forcedRate: Field, etfLev: Field,
    holdDays: Field, intRate: Field,
    price: Field, marginRate: real, shortMarginRate: real, currentPrice: Field,
    feeDisc: real, taxRate: real, comm: Field)

  /** Taiwan brokerage: 0.1425% of the notional times the discount, at least NT$20 a leg. */
  const TwFeeRate: real := 0.001425
  const TwMinFee: real := 20.0
  /** US SEC fee on the sell notional. */
  const UsSecFeeRate: real := 0.0000278

  /** A Taiwan lot is 1000 shares; a US quantity is in shares. */
  function SharesPerLot(m: Market): real { if m == TW then 1000.0 else 1.0 }

  function Shares(inp: MarginInput): real { GV(inp.qty) * SharesPerLot(inp.market) }

  function CallLine(inp: MarginInput): real { GV(inp.callRate) / 100.0 }

  function ForcedLine(inp: MarginInput): real { GV(inp.forcedRate) / 100.0 }

  /** The leverage of a leveraged ETF (an empty or zero field reads as 1); 1 for other products. */
  function EtfLeverage(inp: MarginInput): real
  {
    if inp.product == LeveragedEtf then (if GV(inp.etfLev) != 0.0 then GV(inp.etfLev) else 1.0) else 1.0
  }

  /** The current price, which defaults to the entry price when it reads as 0. */
  function CurrentPrice(inp: MarginInput): real
  {
    if GV(inp.currentPrice) != 0.0 then GV(inp.currentPrice) else GV(inp.price)
  }

  /** The inputs without which the calculator shows its placeholder. */
  predicate HasInputs(inp: MarginInput) { GV(inp.price) != 0.0 && GV(inp.qty) != 0.0 }

  /** Interest or borrow fee on `principal`: annual rate (a percentage) times days / 365. */
  function Accrued(inp: MarginInput, principal: real): real
  {
    principal * (GV(inp.intRate) / 100.0) * GV(inp.holdDays) / 365.0
  }

  function TwTradeFee(inp: MarginInput, notional: real): real
  {
    MaxR(TwMinFee, notional * (TwFeeRate * inp.feeDisc))
  }

  // ---------------------------------------------------------------- long

  /**
   * The maintenance ratio of a long position worth `price` a share: market
   * value over loan (Taiwan), or equity over market value (US).
   */
  function LongRatioAt(market: Market, loan: real, shares: real, price: real): real
    requires market == TW ==> loan != 0.0
    requires market == US ==> price * shares != 0.0
  {
    if market == TW then price * shares / loan
    else (price * shares - loan) / (price * shares)
  }

  /**
   * The overview's classification of a long maintenance ratio `ratio`
   * against the call line `cr` (both fractions): safe from 166%, caution
   * from 140% (Taiwan); safe from 40%, caution from 30% (US); critical below
   * the call line.
   */
  function LongLevel(market: Market, ratio: real, cr: real): RiskLevel
  {
    if market == TW then RiskLvl(ratio * 100.0, 166.0, 140.0, cr * 100.0)
    else RiskLvl(ratio * 100.0, 40.0, 30.0, cr * 100.0)
  }

  /**
   * The long stress table's classification: the same safe thresholds, but
   * caution from ten (Taiwan) or five (US) points above the call line.
   */
  function LongStressLevel(market: Market, ratio: real, cr: real): RiskLevel
  {
    if market == TW then RiskLvl(ratio * 100.0, 166.0, cr * 100.0 + 10.0, cr * 100.0)
    else RiskLvl(ratio * 100.0, 40.0, cr * 100.0 + 5.0, cr * 100.0)
  }

  /**
   * The classification of a short maintenance ratio, in the overview and in
   * the stress table alike: 166 / 140 (Taiwan) or 50 / 35 (US).
   */
  function ShortLevel(market: Market, ratio: real, cr: real): RiskLevel
  {
    if market == TW then RiskLvl(ratio * 100.0, 166.0, 140.0, cr * 100.0)
    else RiskLvl(ratio * 100.0, 50.0, 35.0, cr * 100.0)
  }

  /** The long-position inputs every formula can be evaluated on. */
  predicate LongReady(inp: MarginInput)
  {
    HasInputs(inp) && inp.marginRate != 0.0 && inp.marginRate != 1.0
  }

  /** The fee, tax and interest legs of a round trip. */
  datatype Fees = Fees(openFee: real, closeFee: real, tax: real, interest: real)
  {
    function Total(): real { openFee + closeFee + tax + interest }
  }

  /**
   * The costs of a round trip with opening notional `openValue`, closing
   * notional `closeValue`, borrowed amount `principal` and a tax on `taxed`
   * (the sell leg): Taiwan brokerage is at least NT$20 a leg, the US charges
   * a flat commission a leg and the SEC fee on the sell notional.
   */
  function RoundTripFees(inp: MarginInput, openValue: real, closeValue: real, taxed: real, principal: real): (f: Fees)
    ensures inp.market == TW ==>
      && f.openFee == TwTradeFee(inp, openValue) >= TwMinFee
      && f.closeFee == TwTradeFee(inp, closeValue) >= TwMinFee
      && f.tax == taxed * inp.taxRate
    ensures inp.market == US ==>
      f.openFee == GV(inp.comm) && f.closeFee == GV(inp.comm) && f.tax == taxed * UsSecFeeRate
    ensures f.interest == Accrued(inp, principal)
  {
    if inp.market == TW then
      Fees(TwTradeFee(inp, openValue), TwTradeFee(inp, closeValue), taxed * inp.taxRate, Accrued(inp, principal))
    else
      Fees(GV(inp.comm), GV(inp.comm), taxed * UsSecFeeRate, Accrued(inp, principal))
  }

  /** How a long position is paid for: the broker's loan and the investor's own funds. */
  datatype LongFunding = LongFunding(
    loanPerShare: real, ownPerShare: real, loan: real, ownFunds: real, cost: real, leverage: real)

  datatype LongOverview = LongOverview(
    funding: LongFunding, value: real, unrealized: real, equity: real,
    fees: Fees, totalFees: real, netPL: real, effectiveLeverage: real,
    maint: real, level: RiskLevel,
    callPrice: Num, forcedPrice: Num, callDrop: Num, forcedDrop: Num, callRoom: Num)

  /** Cost over own funds is 1 / (1 - margin rate), whatever the price and the quantity. */
  lemma LeverageOfRate(bp: real, mr: real, ts: real)
    requires bp != 0.0 && ts != 0.0 && mr != 1.0
    ensures (bp * (1.0 - mr)) * ts != 0.0
    ensures (bp * ts) / ((bp * (1.0 - mr)) * ts) == 1.0 / (1.0 - mr)
  {
    var tc := bp * ts;
    MulNonZero(bp, 1.0 - mr);
    MulNonZero(bp * (1.0 - mr), ts);
    var te := (bp * (1.0 - mr)) * ts;
    assert te == tc * (1.0 - mr);
    assert (1.0 / (1.0 - mr)) * (1.0 - mr) == 1.0;
    assert (1.0 / (1.0 - mr)) * te == tc;
    DivUnique(tc, te, 1.0 / (1.0 - mr));
  }

  lemma SharesNonZero(inp: MarginInput)
    requires HasInputs(inp)
    ensures Shares(inp) != 0.0
  {
    MulNonZero(GV(inp.qty), SharesPerLot(inp.market));
  }

  /** The loan a share: the margin rate of the buy price. */
  function LoanPerShare(inp: MarginInput): real
  {
    GV(inp.price) * inp.marginRate
  }

  /** The amount borrowed on a long position. */
  function LongLoan(inp: MarginInput): real
  {
    LoanPerShare(inp) * Shares(inp)
  }

  lemma LongLoanNonZero(inp: MarginInput)
    requires LongReady(inp)
    ensures LoanPerShare(inp) != 0.0 && Shares(inp) != 0.0 && LongLoan(inp) != 0.0
  {
    SharesNonZero(inp);
    MulNonZero(GV(inp.price), inp.marginRate);
    MulNonZero(LoanPerShare(inp), Shares(inp));
  }

  /**
   * The funding of a long position (js/app.js:998-1019): loan plus own funds
   * is the cost, and the leverage, cost over own funds, is 1 / (1 - margin
   * rate) whatever the price and the quantity.
   */
  function LongFundingOf(inp: MarginInput): (f: LongFunding)
    requires LongReady(inp)
    ensures f.cost == GV(inp.price) * Shares(inp)
    ensures f.loan == LongLoan(inp) != 0.0 && f.loan == f.loanPerShare * Shares(inp)
    ensures f.loanPerShare == LoanPerShare(inp)
    ensures f.loan + f.ownFunds == f.cost
    ensures f.ownFunds != 0.0 && f.leverage == f.cost / f.ownFunds
    ensures f.leverage == 1.0 / (1.0 - inp.marginRate)
  {
    var bp, mr, ts := GV(inp.price), inp.marginRate, Shares(inp);
    SharesNonZero(inp);
    LeverageOfRate(bp, mr, ts);
    MulNonZero(bp, mr);
    MulNonZero(bp * mr, ts);
    var lps, eps := LoanPerShare(inp), bp * (1.0 - mr);
    LongFunding(lps, eps, LongLoan(inp), eps * ts, bp * ts, (bp * ts) / (eps * ts))
  }

  /**
   * The price at which a long position's maintenance ratio equals `line`:
   * loan a share times the line (Taiwan), or loan a share over 1 - line (US),
   * which is not a finite number when the line is 100%. At that price the
   * ratio is exactly the line.
   */
  function LongLinePrice(inp: MarginInput, line: real): Num
  {
    if inp.market == TW then Fin(LoanPerShare(inp) * line) else Div(LoanPerShare(inp), 1.0 - line)
  }

  /** At the long call (or forced) price the maintenance ratio is exactly the line. */
  lemma LongLinePriceHits(inp: MarginInput, line: real)
    requires LongReady(inp)
    ensures LongLinePrice(inp, line).Fin? <==> inp.market == TW || line != 1.0
    ensures LongLinePrice(inp, line).Fin? ==>
      && (inp.market == US ==> LongLinePrice(inp, line).v * Shares(inp) != 0.0)
      && LongRatioAt(inp.market, LongLoan(inp), Shares(inp), LongLinePrice(inp, line).v) == line
  {
    LongLoanNonZero(inp);
    if inp.market == TW {
      TwLinePriceHits(inp, line);
    } else if line != 1.0 {
      UsLinePriceHits(inp, line);
    } else {
      assert LongLinePrice(inp, line) == Div(LoanPerShare(inp), 0.0);
    }
  }

  lemma TwLinePriceHits(inp: MarginInput, line: real)
    requires inp.market == TW && LoanPerShare(inp) != 0.0 && Shares(inp) != 0.0
    ensures LongLoan(inp) != 0.0
    ensures LongLinePrice(inp, line).Fin?
    ensures LongRatioAt(TW, LongLoan(inp), Shares(inp), LongLinePrice(inp, line).v) == line
  {
    var lps, ts := LoanPerShare(inp), Shares(inp);
    TwLineRatio(lps, ts, line);
    assert LongRatioAt(TW, lps * ts, ts, lps * line) == line;
  }

  lemma UsLinePriceHits(inp: MarginInput, line: real)
    requires inp.market == US && LoanPerShare(inp) != 0.0 && Shares(inp) != 0.0 && line != 1.0
    ensures LongLinePrice(inp, line).Fin? && LongLinePrice(inp, line).v * Shares(inp) != 0.0
    ensures LongRatioAt(US, LongLoan(inp), Shares(inp), LongLinePrice(inp, line).v) == line
  {
    var lps, ts := LoanPerShare(inp), Shares(inp);
    UsLineRatio(lps, ts, line);
    var p := lps / (1.0 - line);
    assert LongLinePrice(inp, line) == Fin(p);
    assert LongRatioAt(US, lps * ts, ts, p) == line;
  }

  lemma TwLineRatio(lps: real, ts: real, line: real)
    requires lps != 0.0 && ts != 0.0
    ensures lps * ts != 0.0 && ((lps * line) * ts) / (lps * ts) == line
  {
    MulNonZero(lps, ts);
    DivUnique((lps * line) * ts, lps * ts, line);
  }

  lemma UsLineRatio(lps: real, ts: real, line: real)
    requires lps != 0.0 && ts != 0.0 && line != 1.0
    ensures (lps / (1.0 - line)) * ts != 0.0
    ensures ((lps / (1.0 - line)) * ts - lps * ts) / ((lps / (1.0 - line)) * ts) == line
  {
    var c := lps / (1.0 - line);
    assert c * (1.0 - line) == lps;
    MulNonZero(c, ts);
    var v := c * ts;
    assert v * (1.0 - line) == lps * ts;
    assert (v - lps * ts) == line * v;
    DivUnique(v - lps * ts, v, line);
  }

  /** The overview of a long margin position (js/app.js:994-1027). */
  function LongCalc(inp: MarginInput): (r: LongOverview)
    requires LongReady(inp)
    ensures r.funding == LongFundingOf(inp)
    ensures r.value == CurrentPrice(inp) * Shares(inp)
    ensures r.equity == r.value - r.funding.loan
    ensures r.unrealized == r.value - r.funding.cost
    ensures r.fees == RoundTripFees(inp, r.funding.cost, r.value, r.value, r.funding.loan)
    ensures r.totalFees == r.fees.Total() && r.netPL == r.unrealized - r.totalFees
    ensures r.effectiveLeverage == r.funding.leverage * AbsR(EtfLeverage(inp))
    ensures inp.market == US ==> CurrentPrice(inp) * Shares(inp) != 0.0
    ensures r.maint == LongRatioAt(inp.market, r.funding.loan, Shares(inp), CurrentPrice(inp))
    ensures r.level == LongLevel(inp.market, r.maint, CallLine(inp))
    ensures r.callPrice == LongLinePrice(inp, CallLine(inp)) && r.forcedPrice == LongLinePrice(inp, ForcedLine(inp))
    ensures r.callDrop == SubFrom(GV(inp.price), r.callPrice) && r.forcedDrop == SubFrom(GV(inp.price), r.forcedPrice)
    ensures r.callRoom == SubFrom(CurrentPrice(inp), r.callPrice)
  {
    var f := LongFundingOf(inp);
    var bp, cp, ts := GV(inp.price), CurrentPrice(inp), Shares(inp);
    var cr, fr := CallLine(inp), ForcedLine(inp);
    SharesNonZero(inp);
    MulNonZero(cp, ts);
    var cv := cp * ts;
    var upl := cv - f.cost;
    var fees := RoundTripFees(inp, f.cost, cv, cv, f.loan);
    var maint := LongRatioAt(inp.market, f.loan, ts, cp);
    var callP, forcedP := LongLinePrice(inp, cr), LongLinePrice(inp, fr);
    var rl := LongLevel(inp.market, maint, cr);
    LongOverview(f, cv, upl, cv - f.loan,
                 fees, fees.Total(), upl - fees.Total(), f.leverage * AbsR(EtfLeverage(inp)),
                 maint, rl, callP, forcedP, SubFrom(bp, callP), SubFrom(bp, forcedP), SubFrom(cp, callP))
  }

  lemma LongLoanPositive(inp: MarginInput)
    requires GV(inp.price) > 0.0 && GV(inp.qty) > 0.0 && inp.marginRate > 0.0
    ensures Shares(inp) > 0.0 && LongLoan(inp) > 0.0
  {
    assert LoanPerShare(inp) > 0.0;
  }

  /** Under a positive loan the maintenance ratio grows strictly with the price (both conventions). */
  lemma LongRatioMonotone(market: Market, loan: real, shares: real, p1: real, p2: real)
    requires loan > 0.0 && shares > 0.0 && 0.0 < p1 < p2
    ensures p1 * shares != 0.0 && p2 * shares != 0.0
    ensures LongRatioAt(market, loan, shares, p1) < LongRatioAt(market, loan, shares, p2)
  {
    var v1, v2 := p1 * shares, p2 * shares;
    assert 0.0 < v1 < v2;
    if market == TW {
      assert v1 / loan < v2 / loan;
    } else {
      RecipLess(loan, v1, v2);
      OneMinus(v1, loan);
      OneMinus(v2, loan);
    }
  }

  /** Whether a stress-table ratio is past the forced line, past the call line, or neither. */
  datatype Breach = Within | Call | Forced

  function BreachOf(ratio: real, cr: real, fr: real): Breach
  {
    if ratio < fr then Forced else if ratio < cr then Call else Within
  }

  datatype LongStressRow = LongStressRow(
    pct: int, price: real, diff: real, pnl: real, equity: real, ratio: real,
    breach: Breach, level: RiskLevel, current: bool)

  /** The price moves of the long stress table, in percent of the entry price. */
  const LongSteps: seq<int> := [30, 25, 20, 15, 10, 5, 0, -5, -10, -15, -20, -25, -30, -35, -40, -45, -50]

  /**
   * One row of the long stress table (js/app.js:1054-1066). Its caution
   * threshold is ten points (Taiwan) or five points (US) above the call
   * line, not the overview's fixed 140 or 30.
   */
  function LongStressRowAt(inp: MarginInput, p: int): (row: LongStressRow)
    requires LongReady(inp) && p > -100
    ensures row.price == StepPrice(GV(inp.price), p)
    ensures inp.market == US ==> row.price * Shares(inp) != 0.0
    ensures row.ratio == LongRatioAt(inp.market, LongLoan(inp), Shares(inp), row.price)
    ensures row.pnl == (row.price - GV(inp.price)) * Shares(inp)
    ensures row.equity == row.price * Shares(inp) - LongLoan(inp)
    ensures row.breach == BreachOf(row.ratio, CallLine(inp), ForcedLine(inp))
    ensures row.level == LongStressLevel(inp.market, row.ratio, CallLine(inp))
    ensures row.current <==> p == 0
  {
    var bp, ts, tl, cr := GV(inp.price), Shares(inp), LongLoan(inp), CallLine(inp);
    LongLoanNonZero(inp);
    var pr := StepPrice(bp, p);
    StepPriceNonZero(bp, p);
    MulNonZero(pr, ts);
    var v := pr * ts;
    var ratio := LongRatioAt(inp.market, tl, ts, pr);
    var lvl := LongStressLevel(inp.market, ratio, cr);
    LongStressRow(p, pr, pr - bp, (pr - bp) * ts, v - tl, ratio,
                  BreachOf(ratio, cr, ForcedLine(inp)), lvl, p == 0)
  }

  /** The long stress table: one row per step, in the order of the steps. */
  method LongStressTable(inp: MarginInput) returns (rows: seq<LongStressRow>)
    requires LongReady(inp)
    ensures |rows| == |LongSteps|
    ensures forall i :: 0 <= i < |rows| ==> rows[i] == LongStressRowAt(inp, LongSteps[i])
  {
    rows := [];
    for k := 0 to |LongSteps|
      invariant |rows| == k
      invariant forall i :: 0 <= i < k ==> rows[i] == LongStressRowAt(inp, LongSteps[i])
    {
      rows := rows + [LongStressRowAt(inp, LongSteps[k])];
    }
  }

  /**
   * With an ordinary long position (positive price and quantity, a margin
   * rate below 1), each row of the stress table has a lower maintenance
   * ratio than the one above it, since the steps fall.
   */
  lemma LongStressRatiosFall(inp: MarginInput, i: int, j: int)
    requires LongReady(inp) && GV(inp.price) > 0.0 && GV(inp.qty) > 0.0 && 0.0 < inp.marginRate < 1.0
    requires 0 <= i < j < |LongSteps|
    ensures LongStressRowAt(inp, LongSteps[j]).ratio < LongStressRowAt(inp, LongSteps[i]).ratio
  {
    var bp, ts := GV(inp.price), Shares(inp);
    var pi, pj := LongSteps[i], LongSteps[j];
    assert -50 <= pj < pi <= 30;
    StepPriceMonotone(bp, pj, pi);
    LongLoanPositive(inp);
    LongRatioMonotone(inp.market, LongLoan(inp), ts, StepPrice(bp, pj), StepPrice(bp, pi));
  }

  // --------------------------------------------------------------- short

  /** The short-position inputs every formula can be evaluated on. */
  predicate ShortReady(inp: MarginInput)
  {
    HasInputs(inp)
  }

  /**
   * The maintenance ratio of a short position with backing `backing` a
   * share (deposit plus sale proceeds) when the stock trades at `price`:
   * backing over price (Taiwan), or backing less price over price (US).
   */
  function ShortRatioAt(market: Market, backing: real, price: real): real
    requires price != 0.0
  {
    if market == TW then backing / price else (backing - price) / price
  }

  /** Deposit plus sale proceeds, per share: the sell price times 1 + the short margin rate. */
  function ShortBacking(inp: MarginInput): real
  {
    GV(inp.price) * inp.shortMarginRate + GV(inp.price)
  }

  /**
   * The price at which a short position's maintenance ratio equals `line`:
   * backing over the line (Taiwan) or over 1 + the line (US), which is not a
   * finite number when the line is 0 (Taiwan) or -100% (US). Unless there is
   * no backing at all, the ratio at that price is exactly the line.
   */
  function ShortLinePrice(inp: MarginInput, line: real): Num
  {
    var b := ShortBacking(inp);
    if inp.market == TW then Div(b, line) else Div(b, 1.0 + line)
  }

  /** Unless there is no backing at all, at the short call (or forced) price the ratio is exactly the line. */
  lemma ShortLinePriceHits(inp: MarginInput, line: real)
    requires ShortBacking(inp) != 0.0
    ensures var p := ShortLinePrice(inp, line);
      && (inp.market == TW ==> (p.Fin? <==> line != 0.0))
      && (inp.market == US ==> (p.Fin? <==> line != -1.0))
      && (p.Fin? ==> p.v != 0.0 && ShortRatioAt(inp.market, ShortBacking(inp), p.v) == line)
  {
    ShortLineAt(inp.market, ShortBacking(inp), line);
  }

  datatype ShortOverview = ShortOverview(
    deposit: real, proceeds: real, backing: real, value: real,
    unrealized: real, equity: real, fees: Fees, totalFees: real, netPL: real,
    maint: real, level: RiskLevel, callPrice: Num, forcedPrice: Num, callRise: Num)

  /**
   * The overview of a short position (js/app.js:1132-1162). The fees are
   * those of a round trip that sells at the sell price (the taxed leg, and
   * the notional the borrow fee is charged on) and buys back at the current
   * price; the US levels are 50/35, not the long side's 40/30.
   */
  function ShortCalc(inp: MarginInput): (r: ShortOverview)
    requires ShortReady(inp)
    ensures CurrentPrice(inp) != 0.0
    ensures r.fees == RoundTripFees(inp, r.proceeds, r.value, r.proceeds, r.proceeds)
    ensures r.totalFees == r.fees.Total() && r.netPL == r.unrealized - r.totalFees
    ensures r.maint == ShortRatioAt(inp.market, ShortBacking(inp), CurrentPrice(inp))
    ensures r.level == ShortLevel(inp.market, r.maint, CallLine(inp))
    ensures r.callPrice == ShortLinePrice(inp, CallLine(inp)) && r.forcedPrice == ShortLinePrice(inp, ForcedLine(inp))
    ensures r.callRise == SubReal(r.callPrice, GV(inp.price))
  {
    var sp, cp, ts := GV(inp.price), CurrentPrice(inp), Shares(inp);
    var cr, fr := CallLine(inp), ForcedLine(inp);
    var dep, b := sp * inp.shortMarginRate, ShortBacking(inp);
    var cv := cp * ts;
    var upl := (sp - cp) * ts;
    var fees := RoundTripFees(inp, sp * ts, cv, sp * ts, sp * ts);
    var maint := ShortRatioAt(inp.market, b, cp);
    var callP, forcedP := ShortLinePrice(inp, cr), ShortLinePrice(inp, fr);
    var rl := ShortLevel(inp.market, maint, cr);
    ShortOverview(dep * ts, sp * ts, b * ts, cv, upl, (b - cp) * ts,
                  fees, fees.Total(), upl - fees.Total(),
                  maint, rl, callP, forcedP, SubReal(callP, sp))
  }

  /**
   * The amounts of the short overview: the proceeds of the sale, the value
   * at the current price, the unrealised P&L, the deposit, and the backing
   * (deposit plus the proceeds held as collateral) and the equity left
   * after buying back, all for the whole position.
   */
  lemma ShortOverviewAmounts(inp: MarginInput)
    requires ShortReady(inp)
    ensures var r, sp, cp, ts := ShortCalc(inp), GV(inp.price), CurrentPrice(inp), Shares(inp);
      && r.proceeds == sp * ts && r.value == cp * ts
      && r.unrealized == (sp - cp) * ts
      && r.deposit == sp * inp.shortMarginRate * ts
      && r.backing == ShortBacking(inp) * ts && r.backing == r.deposit + r.proceeds
      && r.equity == (ShortBacking(inp) - cp) * ts && r.equity == r.backing - r.value
  {
    ShortTradeAmounts(inp);
    ShortBackingAmounts(inp);
  }

  lemma ShortTradeAmounts(inp: MarginInput)
    requires ShortReady(inp)
    ensures var r, sp, cp, ts := ShortCalc(inp), GV(inp.price), CurrentPrice(inp), Shares(inp);
      && r.proceeds == sp * ts && r.value == cp * ts
      && r.unrealized == (sp - cp) * ts
      && r.deposit == sp * inp.shortMarginRate * ts
  {
  }

  lemma ShortBackingAmounts(inp: MarginInput)
    requires ShortReady(inp)
    ensures var r, sp, cp, ts := ShortCalc(inp), GV(inp.price), CurrentPrice(inp), Shares(inp);
      && r.backing == ShortBacking(inp) * ts && r.backing == r.deposit + r.proceeds
      && r.equity == (ShortBacking(inp) - cp) * ts && r.equity == r.backing - r.value
  {
    var r, sp, cp, ts := ShortCalc(inp), GV(inp.price), CurrentPrice(inp), Shares(inp);
    ShortTradeAmounts(inp);
    AddTimes(sp * inp.shortMarginRate, sp, ts);
    SubTimes(ShortBacking(inp), cp, ts);
  }

  lemma ShortLineAt(market: Market, b: real, line: real)
    requires b != 0.0
    ensures var p := if market == TW then Div(b, line) else Div(b, 1.0 + line);
      && (market == TW ==> (p.Fin? <==> line != 0.0))
      && (market == US ==> (p.Fin? <==> line != -1.0))
      && (p.Fin? ==> p.v != 0.0 && ShortRatioAt(market, b, p.v) == line)
  {
    if market == TW && line != 0.0 {
      TwShortLine(b, line);
    } else if market == US && line != -1.0 {
      UsShortLine(b, line);
    }
  }

  lemma TwShortLine(b: real, line: real)
    requires b != 0.0 && line != 0.0
    ensures b / line != 0.0 && ShortRatioAt(TW, b, b / line) == line
  {
    var q := b / line;
    assert q * line == b;
    DivUnique(b, q, line);
  }

  lemma UsShortLine(b: real, line: real)
    requires b != 0.0 && line != -1.0
    ensures b / (1.0 + line) != 0.0 && ShortRatioAt(US, b, b / (1.0 + line)) == line
  {
    var q := b / (1.0 + line);
    assert q * (1.0 + line) == b;
    assert q != 0.0;
    DivUnique(b, q, 1.0 + line);
    DivSub(b, q, q);
  }

  /** Whatever the backing, the sell price times 1 + the short margin rate is the backing a share. */
  lemma ShortBackingNonZero(inp: MarginInput)
    requires HasInputs(inp) && inp.shortMarginRate != -1.0
    ensures ShortBacking(inp) != 0.0
  {
    assert ShortBacking(inp) == GV(inp.price) * (inp.shortMarginRate + 1.0);
    MulNonZero(GV(inp.price), inp.shortMarginRate + 1.0);
  }

  lemma ShortBackingPositive(inp: MarginInput)
    requires GV(inp.price) > 0.0 && inp.shortMarginRate > -1.0
    ensures ShortBacking(inp) > 0.0
  {
    assert ShortBacking(inp) == GV(inp.price) * (inp.shortMarginRate + 1.0);
  }

  /** Under positive backing the short maintenance ratio falls strictly as the price rises (both conventions). */
  lemma ShortRatioAntitone(market: Market, b: real, p1: real, p2: real)
    requires b > 0.0 && 0.0 < p1 < p2
    ensures ShortRatioAt(market, b, p2) < ShortRatioAt(market, b, p1)
  {
    RecipLess(b, p1, p2);
    if market == US {
      DivSub(b, p1, p1);
      DivSub(b, p2, p2);
    }
  }

  datatype ShortStressRow = ShortStressRow(
    pct: int, price: real, diff: real, pnl: real, ratio: real,
    breach: Breach, level: RiskLevel, current: bool)

  /** The price moves of the short stress table, in percent of the sell price. */
  const ShortSteps: seq<int> := [-30, -25, -20, -15, -10, -5, 0, 5, 10, 15, 20, 25, 30, 35, 40, 50, 60]

  /**
   * One row of the short stress table (js/app.js:1186-1197). Unlike the
   * long table it classifies with the overview's own thresholds.
   */
  function ShortStressRowAt(inp: MarginInput, p: int): (row: ShortStressRow)
    requires ShortReady(inp) && p > -100
    ensures row.price == StepPrice(GV(inp.price), p) != 0.0
    ensures row.ratio == ShortRatioAt(inp.market, ShortBacking(inp), row.price)
    ensures row.pnl == (GV(inp.price) - row.price) * Shares(inp)
    ensures row.breach == BreachOf(row.ratio, CallLine(inp), ForcedLine(inp))
    ensures row.level == ShortLevel(inp.market, row.ratio, CallLine(inp))
    ensures row.current <==> p == 0
  {
    var sp, ts, cr := GV(inp.price), Shares(inp), CallLine(inp);
    var pr := StepPrice(sp, p);
    StepPriceNonZero(sp, p);
    var ratio := ShortRatioAt(inp.market, ShortBacking(inp), pr);
    var lvl := ShortLevel(inp.market, ratio, cr);
    ShortStressRow(p, pr, pr - sp, (sp - pr) * ts, ratio, BreachOf(ratio, cr, ForcedLine(inp)), lvl, p == 0)
  }

  /** The short stress table: one row per step, in the order of the steps. */
  method ShortStressTable(inp: MarginInput) returns (rows: seq<ShortStressRow>)
    requires ShortReady(inp)
    ensures |rows| == |ShortSteps|
    ensures forall i :: 0 <= i < |rows| ==> rows[i] == ShortStressRowAt(inp, ShortSteps[i])
  {
    rows := [];
    for k := 0 to |ShortSteps|
      invariant |rows| == k
      invariant forall i :: 0 <= i < k ==> rows[i] == ShortStressRowAt(inp, ShortSteps[i])
    {
      rows := rows + [ShortStressRowAt(inp, ShortSteps[k])];
    }
  }

  /**
   * With a positive sell price and a short margin rate above -100%, each row
   * of the short stress table has a lower maintenance ratio than the one
   * above it, since the steps rise.
   */
  lemma ShortStressRatiosFall(inp: MarginInput, i: int, j: int)
    requires ShortReady(inp) && GV(inp.price) > 0.0 && inp.shortMarginRate > -1.0
    requires 0 <= i < j < |ShortSteps|
    ensures ShortStressRowAt(inp, ShortSteps[j]).ratio < ShortStressRowAt(inp, ShortSteps[i]).ratio
  {
    var sp := GV(inp.price);
    var pi, pj := ShortSteps[i], ShortSteps[j];
    assert -30 <= pi < pj <= 60;
    StepPriceMonotone(sp, pi, pj);
    ShortBackingPositive(inp);
    ShortRatioAntitone(inp.market, ShortBacking(inp), StepPrice(sp, pi), StepPrice(sp, pj));
  }

  /**
   * The 0% row of the short stress table carries the overview's risk level
   * when no current price is entered (it then defaults to the sell price).
   */
  lemma ShortStressCurrentRowMatches(inp: MarginInput)
    requires ShortReady(inp) && GV(inp.currentPrice) == 0.0
    ensures ShortStressRowAt(inp, 0).current
    ensures ShortStressRowAt(inp, 0).ratio == ShortCalc(inp).maint
    ensures ShortStressRowAt(inp, 0).level == ShortCalc(inp).level
  {
    assert ShortStressRowAt(inp, 0).price == GV(inp.price);
  }

  // ------------------------------------------------------------ calculator

  /** What the calculator shows: the placeholder, or an overview and a stress table. */
  datatype MarginResult =
    | Placeholder
    | LongResult(long: LongOverview, longStress: seq<LongStressRow>)
    | ShortResult(short: ShortOverview, shortStress: seq<ShortStressRow>)

  /** The margin rates the select boxes offer (js/app.js:908-911). */
  predicate SelectsOffered(inp: MarginInput)
  {
    if inp.long then
      (if inp.market == TW then inp.marginRate in {0.6, 0.5, 0.4} else inp.marginRate in {0.5, 0.7, 0.6})
    else
      (if inp.market == TW then inp.shortMarginRate in {0.9, 1.0, 1.2} else inp.shortMarginRate in {0.5, 0.6})
  }

  /**
   * `calcMargin` (js/app.js:993-1197): the placeholder when the price or
   * quantity reads as 0, before any division; otherwise the overview and
   * the stress table of the long or the short position.
   */
  method CalcMargin(inp: MarginInput) returns (res: MarginResult)
    requires SelectsOffered(inp)
    ensures res.Placeholder? <==> !HasInputs(inp)
    ensures res.LongResult? <==> HasInputs(inp) && inp.long
    ensures res.LongResult? ==>
      && LongReady(inp) && res.long == LongCalc(inp)
      && |res.longStress| == |LongSteps|
      && forall i :: 0 <= i < |LongSteps| ==> res.longStress[i] == LongStressRowAt(inp, LongSteps[i])
    ensures res.ShortResult? ==>
      && ShortReady(inp) && res.short == ShortCalc(inp)
      && |res.shortStress| == |ShortSteps|
      && forall i :: 0 <= i < |ShortSteps| ==> res.shortStress[i] == ShortStressRowAt(inp, ShortSteps[i])
  {
    if !HasInputs(inp) {
      return Placeholder;
    }
    if inp.long {
      var rows := LongStressTable(inp);
      res := LongResult(LongCalc(inp), rows);
    } else {
      var rows := ShortStressTable(inp);
      res := ShortResult(ShortCalc(inp), rows);
    }
  }

  /** The Taiwan long position of the worked check: 1 lot bought at 100 on a 60% margin. */
  function TwLongExample(currentPrice: Field, callRate: real): MarginInput
  {
    MarginInput(TW, true, Stock, Some(1.0), Some(callRate), Some(120.0), None,
                Some(30.0), Some(6.25), Some(100.0), 0.6, 0.9, currentPrice, 0.5, 0.003, None)
  }

  /**
   * Loan 60,000, own funds 40,000, leverage 2.5, maintenance ratio 100,000 /
   * 60,000 (about 166.67%), classified safe.
   */
  lemma TwLongWorkedExample()
    ensures LongReady(TwLongExample(None, 130.0))
    ensures var r := LongCalc(TwLongExample(None, 130.0));
      && r.funding.loan == 60000.0 && r.funding.ownFunds == 40000.0
      && r.funding.leverage == 2.5
      && r.maint == 100000.0 / 60000.0
      && r.level == Safe
  {
    var inp := TwLongExample(None, 130.0);
    assert Shares(inp) == 1000.0;
    assert LongLoan(inp) == 60000.0;
    var r := LongCalc(inp);
    assert r.funding.cost == 100000.0;
    assert r.maint == 100000.0 / 60000.0;
    assert r.maint * 100.0 >= 166.0;
  }

  /**
   * The long stress table's caution threshold differs from the overview's:
   * with a 145% call line and the price 10% below entry, the overview and
   * the -10% stress row see the same 150% ratio, yet the overview says
   * caution (150 >= 140) and the stress row danger (150 < 155).
   */
  lemma LongStressCautionQuirk()
    ensures LongReady(TwLongExample(Some(90.0), 145.0))
    ensures var inp := TwLongExample(Some(90.0), 145.0);
      && LongStressRowAt(inp, -10).ratio == LongCalc(inp).maint == 1.5
      && LongCalc(inp).level == Caution
      && LongStressRowAt(inp, -10).level == Danger
  {
    var inp := TwLongExample(Some(90.0), 145.0);
    assert Shares(inp) == 1000.0;
    assert LongLoan(inp) == 60000.0;
    assert StepPrice(100.0, -10) == 90.0;
    assert LongStressRowAt(inp, -10).ratio == 1.5;
    assert LongCalc(inp).maint == 1.5;
  }

  /** The 0% row of the long stress table is at the overview's ratio when no current price is entered. */
  lemma LongStressCurrentRowRatio(inp: MarginInput)
    requires LongReady(inp) && GV(inp.currentPrice) == 0.0
    ensures LongStressRowAt(inp, 0).current
    ensures LongStressRowAt(inp, 0).ratio == LongCalc(inp).maint
  {
    assert StepPrice(GV(inp.price), 0) == GV(inp.price);
  }
}
