# TradeGuard risk calculators and price service, in Dafny

TradeGuard is a browser dashboard for retail traders. It works out how close a
leveraged position is to a margin call or a forced liquidation. It also fetches
quotes for the prices it needs. This project models the computational core of
`js/app.js` and proves properties of it:

- **Risk classification** (`Risk`): `riskLvl` maps a ratio to safe, caution,
  danger or critical against three thresholds. Shared here are the stress
  ladders' step price `base · (1 + p/100)` and its monotonicity.
- **Margin trading** (`MarginCalc`): `calcMargin` for long positions bought on
  margin and short positions sold on borrowed shares.
  - It covers the Taiwan rules (maintenance ratio = value / loan, NT$20
    minimum brokerage, securities tax).
  - It covers the US rules (ratio = equity / value, flat commission, SEC fee).
  - It covers the call and forced prices, the classification and both
    17-row stress tables.
- **Futures** (`FuturesCalc`): `calcFutures`.
  - Equity is the initial equity plus the unrealised P&L.
  - The initial equity defaults to three times the total initial margin.
  - The risk index is equity over the total initial margin.
  - There are four tiers. Critical is at most 25%. Danger is equity at or
    below the maintenance margin. Caution is at most 50%.
  - It covers the call and forced-liquidation index levels and the 20-row
    stress table.
- **Options** (`OptionsCalc`, `Sorting`): `calcOptions` and
  `buildOptionsStress`.
  - Intrinsic value, time value, out-of-the-money value and moneyness.
  - Breakeven and P&L at expiry.
  - The seller's margin `max(A, B) + premium`.
  - The expiry ladder: ±15% of the underlying in rounded steps, plus the
    rounded strike and underlying, sorted.
- **Price service** (`Quotes`, `Tables`, `Routing`):
  - `_proxyFetch`: direct first with at most 4 s, then each CORS proxy.
  - The four providers' `formatSymbol` and quote extraction.
  - `_getProvider`, `fetchIndex` with its Yahoo fallback, `fetchAllIndices`
    and `fetchStockQuote`.
  - The static tables `INDEX_DEFS`, each provider's `INDEX_MAP` and the
    futures presets `FP`.
- **TAIFEX margins** (`Taifex`): `fetchTaifexMargins` parses the exchange's
  margin table, and the handler writes the new margins into the Taiwan
  futures presets in place.

## Modelling choices

- **Numbers.** JavaScript numbers are modelled as exact `real`s.
  - A form field read with `gV` is an `Option<real>`. An empty or unparsable
    field reads as 0, as `parseFloat(…) || 0` does.
  - Where the source divides by a user-entered quantity that can be zero
    (`lps / (1 - cr)`, `(dep + col) / cr`), the result is a `Num`: finite,
    ±Infinity or NaN, as JavaScript would give.
  - `Math.round` is `floor(x + 0.5)`.
- **Network, clock, JSON.** Each is handled as follows:
  - The network is a parameter `net: (url, timeout) -> Attempt`. An attempt
    either throws or answers with a status, an `ok` flag and a decoded body.
  - `Date.now()` is a parameter `now`.
  - JSON bodies are a datatype of the payload shapes the code reads.
- **State.** The preset table is a class, `Taifex.Presets`, with map fields
  that `ApplyMargins` updates in place. The loops of the source are methods
  with loop invariants, proved equal to specification functions:
  - the stress tables;
  - `_proxyFetch`;
  - the TAIFEX parse loop;
  - the options ladder;
  - `fetchAllIndices`.
- **Sorting.** `Array.prototype.sort` with `(a, b) => a - b` is modelled by
  an insertion sort. `Sorting.SortedPermutationUnique` proves that any
  sorted permutation of the input equals it, so nothing depends on the
  engine's algorithm.
- **Margin rates.** The margin rates of `calcMargin` come from select boxes
  (`js/app.js:908-911`). `CalcMargin` requires one of the offered values.
  Those values are what keep `1 - mr` and `mr + 1` away from zero.
- **The model follows the code on these points:**
  - The futures "danger" tier is `eq <= tMM`, so it includes equality.
  - The TAIFEX data date comes from the first mapped contract with a date,
    because unmapped rows are skipped before the date is read.
  - The long stress table's caution threshold is the call line plus 10 (Taiwan)
    or 5 (US), not the overview's 140 / 30. So a row can read "danger"
    where the overview at the same ratio reads "caution"
    (`MarginCalc.LongStressCautionQuirk`).

## Model

| member | source | states |
|---|---|---|
| Risk.RiskLvl | js/app.js:11 | Safe exactly when the value reaches the safe threshold; critical exactly when it is below all three; with ordered thresholds, caution and danger are exactly the two bands between |
| Risk.RiskLvlMonotone | js/app.js:11 | a higher value is never classified more severely |
| Risk.StepPriceNonZero | js/app.js:1055 | a step price above -100% of a non-zero base is non-zero (so the ratio divisions are defined) |
| Risk.StepPriceMonotone | js/app.js:1052-1055 | a larger percentage step gives a strictly larger, still positive, price |
| MarginCalc.RoundTripFees | js/app.js:1001-1017 | Taiwan legs are the discounted 0.1425% brokerage with a NT$20 floor and tax on the sell notional; US legs are the flat commission and the SEC fee; interest accrues on the principal for the holding days |
| MarginCalc.LeverageOfRate | js/app.js:998-1019 | cost over own funds is 1 / (1 - margin rate), whatever the price and quantity |
| MarginCalc.SharesNonZero | js/app.js:985-996 | once the placeholder check passes, the share count is non-zero |
| MarginCalc.LongLoanNonZero | js/app.js:994-998 | with a margin rate other than 0 and 1 the loan per share, share count and loan are non-zero |
| MarginCalc.LongFundingOf | js/app.js:998-1019 | loan plus own funds is the cost; the loan is the per-share loan times shares; leverage is cost over own funds and equals 1 / (1 - margin rate) |
| MarginCalc.LongLinePriceHits | js/app.js:1020-1022 | the call/forced price is finite except for a US line of 100%, and at that price the maintenance ratio is exactly the line |
| MarginCalc.TwLineRatio | js/app.js:1021 | at the Taiwan line price `lps · line` the ratio value / loan is the line |
| MarginCalc.UsLineRatio | js/app.js:1022 | at the US line price `lps / (1 - line)` the ratio equity / value is the line |
| MarginCalc.LongCalc | js/app.js:994-1027 | the long overview: value is the current price times shares, equity is value minus loan, net P&L is the unrealised P&L minus all fees, and the ratio is value/loan (TW) or equity/value (US) at the current price; the level uses 166/140 (TW) or 40/30 (US) against the call line |
| MarginCalc.LongLoanPositive | js/app.js:998 | positive price, quantity and margin rate give a positive loan |
| MarginCalc.LongRatioMonotone | js/app.js:1021-1022 | the long maintenance ratio rises strictly with the price, in both markets |
| MarginCalc.LongStressRowAt | js/app.js:1054-1066 | each long stress row prices the step, computes P&L, equity and ratio at that price, flags forced below the forced line and call below the call line, and marks the 0% row as current |
| MarginCalc.LongStressTable | js/app.js:1052-1066 | the loop produces one row per step, in order, each equal to its row function |
| MarginCalc.LongStressRatiosFall | js/app.js:1052-1058 | down the long table (prices falling) the maintenance ratio falls strictly |
| MarginCalc.ShortLinePriceHits | js/app.js:1156-1158 | the short call/forced price is finite unless the line is 0 (TW) or -100% (US), and at that price the short ratio equals the line |
| MarginCalc.ShortCalc | js/app.js:1132-1162 | the short overview: fees on the sale and the buy-back, with tax and borrow fee on the proceeds; net P&L is the unrealised P&L less the fees; ratio = backing / price (TW) or (backing - price) / price (US); the level uses 166/140 or 50/35 against the call line; call and forced prices are the line prices |
| MarginCalc.ShortOverviewAmounts | js/app.js:1136-1159 | the overview's proceeds are sell price times shares, its value current price times shares, its unrealised P&L their difference, its deposit the short margin rate of the proceeds, its backing the deposit plus the proceeds, and its equity the backing less the value |
| MarginCalc.ShortLineAt | js/app.js:1157-1158 | dividing the backing by the line (TW) or by 1 + line (US) gives the price at which the short ratio is exactly that line |
| MarginCalc.ShortBackingNonZero | js/app.js:1136 | the deposit plus collateral is non-zero for any short margin rate other than -100% |
| MarginCalc.ShortBackingPositive | js/app.js:1136 | a positive sell price and a rate above -100% give positive backing |
| MarginCalc.ShortRatioAntitone | js/app.js:1156-1158 | the short ratio falls strictly as the price rises |
| MarginCalc.ShortStressRowAt | js/app.js:1186-1197 | each short stress row prices the step, computes P&L and ratio, flags forced/call and classifies exactly as the overview does |
| MarginCalc.ShortStressTable | js/app.js:1184-1197 | the loop produces one row per step, in order |
| MarginCalc.ShortStressRatiosFall | js/app.js:1184-1188 | down the short table (prices rising) the ratio falls strictly |
| MarginCalc.ShortStressCurrentRowMatches | js/app.js:1160-1193 | with no current price entered, the 0% row has the overview's ratio and the overview's level |
| MarginCalc.CalcMargin | js/app.js:993-1197 | placeholder exactly when the price or quantity reads as 0; otherwise the long or short overview and its full stress table |
| MarginCalc.TwLongWorkedExample | js/app.js:998-1024 | one Taiwan lot bought at 100 with a 60% margin loan and a 130% call line, price unchanged: loan 60000, own funds 40000, leverage 2.5, ratio 166.7%, safe |
| MarginCalc.LongStressCautionQuirk | js/app.js:1024-1058 | the same lot now at 90 with a 145% call line: the overview and the -10% stress row share the ratio 150%, yet the overview says caution and the row says danger |
| MarginCalc.LongStressCurrentRowRatio | js/app.js:1021-1062 | with no current price entered, the 0% long row has the overview's ratio |
| FuturesCalc.FuturesLevel | js/app.js:1430-1434 | critical iff the risk index is at most 25; danger iff above 25 and equity at or below maintenance; caution iff above maintenance and index at most 50; safe otherwise |
| FuturesCalc.FuturesCalc | js/app.js:1389-1434 | equity is initial equity plus P&L at the current level; the risk index divides it by the total initial margin; the level, call level, forced level and fees follow |
| FuturesCalc.EquityAtLevelFor | js/app.js:1416-1425 | at the level computed for a target equity, equity is exactly that target, long or short |
| FuturesCalc.CallLevelMeetsMaintenance | js/app.js:1416-1420 | at the call level the equity equals the total maintenance margin |
| FuturesCalc.ForcedLevelRiskIndex | js/app.js:1422-1425 | at the forced level the risk index is exactly 25% |
| FuturesCalc.DefaultInitialEquity | js/app.js:1405-1408 | left empty, the initial equity is three times the total initial margin, so the excess is twice it |
| FuturesCalc.FuturesLevelMonotone | js/app.js:1413-1434 | more equity never gives a more severe tier |
| FuturesCalc.PnLMonotone | js/app.js:1410-1411 | a long position's P&L never falls as the level rises |
| FuturesCalc.FuturesStressRowAt | js/app.js:1464-1478 | each stress row moves the entry by the step, and its equity, risk index and tier are those of the overview at that level |
| FuturesCalc.FuturesStressTable | js/app.js:1461-1478 | the loop produces one row per step, in order |
| FuturesCalc.StressCurrentRowMatches | js/app.js:1464-1475 | with no current level entered, the 0% row has the overview's equity and tier |
| FuturesCalc.LongStressSeverityGrows | js/app.js:1462-1474 | down a long position's table, tiers never become less severe |
| FuturesCalc.TxLongWorkedExample | js/app.js:1402-1434 | one TX lot long at 20000 with the preset margins and default equity: initial equity 552000, call level 17945, forced level 17470; safe at 20000, danger at 17900 |
| FuturesCalc.CalcFutures | js/app.js:1385-1478 | placeholder exactly when entry, quantity, initial margin or multiplier reads as 0; otherwise the overview and the full stress table |
| OptionsCalc.Intrinsic | js/app.js:1608 | intrinsic value is never negative and is positive exactly when the option is in the money |
| OptionsCalc.OutOfMoney | js/app.js:1610 | the out-of-the-money amount is never negative and is positive exactly when the option is out of the money |
| OptionsCalc.TimeValue | js/app.js:1609 | time value is not negative, at least premium minus intrinsic, and is either 0 or exactly that difference |
| OptionsCalc.ValueSplit | js/app.js:1608-1612 | an option is never both in and out of the money; intrinsic minus out-of-money is the signed distance to the strike; at the money exactly when both are 0 |
| OptionsCalc.SellerMirrorsBuyer | js/app.js:1615-1620 | the seller's expiry P&L is the buyer's negated |
| OptionsCalc.BuyerLossBounded | js/app.js:1615-1624 | a buyer never loses more than the total premium |
| OptionsCalc.SellerGainBounded | js/app.js:1619 | a seller never gains more than the total premium |
| OptionsCalc.BreakevenIsFlat | js/app.js:1613-1619 | settling at the breakeven gives zero P&L |
| OptionsCalc.PutBuyerGainBounded | js/app.js:1631 | a put buyer's gain is at most `(strike - premium) · mul · qty`, reached at a settlement of 0 |
| OptionsCalc.SellerMarginOf | js/app.js:1664-1667 | A is the risk ratio of the underlying's value less the out-of-the-money value times the multiplier, B is the minimum ratio of the underlying's value; per lot is the larger of A and B plus the premium's value, and the total is per lot times quantity |
| OptionsCalc.SellerMarginFloor | js/app.js:1664-1667 | the seller posts at least B plus the premium's value a lot; at or in the money A is the full risk ratio of the underlying's value, and each point out of the money lowers A by the multiplier |
| OptionsCalc.OptionsCalc | js/app.js:1599-1620 | total premium, intrinsic value, time value, out-of-the-money value, moneyness and breakeven are those of their definitions, so intrinsic and out-of-the-money value are never both positive and intrinsic is positive exactly in the money; an expiry P&L exists exactly when the settlement field reads as a non-zero number, as `if (expP)` tests, and is the expiry P&L there; fees are the round-trip commission plus tax on the premium twice |
| OptionsCalc.LadderStep | js/app.js:1730 | the step is the larger of 1 and the rounded tenth of 15% of the underlying: at least both, and equal to one of them |
| OptionsCalc.LadderIncreasing | js/app.js:1732 | the pushed levels are strictly increasing and none is below the rounded start |
| OptionsCalc.StressLevelsShape | js/app.js:1730-1735 | the sorted levels are strictly increasing, include the rounded strike and underlying, and hold exactly the ladder plus those two |
| OptionsCalc.OptionRowAt | js/app.js:1737-1741 | each row's P&L is the expiry P&L at that level, shown as profit iff not negative, marked current and strike at the rounded underlying and strike |
| OptionsCalc.PushLadder | js/app.js:1732 | the loop pushes exactly the ladder from start to end in steps |
| OptionsCalc.BuildOptionsStress | js/app.js:1729-1739 | the levels are the sorted ladder with anchors, and there is one row per level |
| OptionsCalc.BuyerRowsBounded | js/app.js:1739 | no buyer's stress row loses more than the total premium |
| OptionsCalc.CalcOptions | js/app.js:1591-1667 | placeholder exactly when a required field reads as 0; buyer or seller by side; the overview and stress table always, the margin for a seller |
| OptionsCalc.SellerCallWorkedExample | js/app.js:1664-1667 | a call sold at 5 with strike 520 on an underlying of 500, multiplier 100, ratios 15% and 10%: A 5500, B 5000, 6000 a lot, out of the money by 20 |
| Sorting.SortAscSorted | js/app.js:1735 | the sort's result is sorted and a permutation of the input |
| Sorting.SortAscStrict | js/app.js:1735 | sorting distinct numbers gives a strictly increasing sequence |
| Sorting.SortedPermutationUnique | js/app.js:1735 | two sorted permutations of the same numbers are equal, so the result does not depend on the algorithm |
| Quotes.ProxyAttempts | js/app.js:33-51 | the attempts are the direct one with at most 4000 ms, then each proxy URL with the full timeout |
| Quotes.FirstOkChoice | js/app.js:45-51 | failure ("unreachable") iff every attempt throws or answers not-ok; on success the response is the first attempt that answered ok |
| Quotes.ProxyFetch | js/app.js:45-51 | the loop returns exactly what the first-ok specification gives |
| Quotes.YahooFormatIdempotent | js/app.js:72-76 | formatting a Yahoo symbol twice gives the same as once |
| Quotes.YahooFormatUs | js/app.js:72-76 | a US code is only trimmed |
| Quotes.TwseFormatIdempotent | js/app.js:93-97 | formatting a TWSE symbol twice gives the same as once |
| Quotes.TpexFormatIdempotent | js/app.js:115-119 | formatting a TPEX symbol twice gives the same as once |
| Quotes.FinnhubFormatIdempotent | js/app.js:135 | formatting a Finnhub symbol twice gives the same as once |
| Quotes.YahooFormat | js/app.js:72-76 | the trimmed code, with ".TW" appended exactly when the market is Taiwan and the trimmed code has no '.' and is one or more digits with at most one trailing letter; a US code is only trimmed |
| Quotes.TwseFormat | js/app.js:93-97 | the result differs from the trimmed code exactly when that is 4 to 6 digits with an optional letter, and then it is the `tse_` and `otc_` pair of channels |
| Quotes.TpexFormat | js/app.js:115-119 | the result differs from the trimmed code exactly when that is 4 to 6 digits with an optional letter, and then it is the `otc_…tw` channel |
| Quotes.FinnhubFormat | js/app.js:135 | the trimmed code with each character upper-cased |
| Quotes.YahooQuote | js/app.js:64-71 | "unreachable" when no attempt of the proxied fetch answers ok; otherwise the Yahoo extract of the first ok response's body |
| Quotes.MisQuote | js/app.js:82-92 | (TPEX at lines 103-114) "unreachable" when no attempt answers ok; otherwise the MIS extract of the first ok response's body |
| Quotes.FinnhubQuote | js/app.js:125-134 | "needs key" without a key; "network failure" when the direct request throws; an ok direct response gives the Finnhub extract of its body, and a quote comes only from one; a non-ok answer is the HTTP status error with its status |
| Quotes.YahooExtract | js/app.js:67-70 | a quote exactly when the payload has a `meta` whose `regularMarketPrice` is truthy; the price is that number; the previous close is `chartPreviousClose`, else `previousClose`, else the price; change and percent change follow from them; the name is `shortName`, else `symbol`; a failure is bad JSON exactly for a body that is not JSON, and otherwise "no data" |
| Quotes.PickItem | js/app.js:86 | (and line 108) nothing only for an empty list; an item with a trade is the first item that has one; an item without a trade is the first item, and then no item has a trade |
| Quotes.FirstTrade | js/app.js:86 | (and line 108) where `find` stops: every earlier item lacks a trade, and the item there, if any, has one |
| Quotes.MisPrice | js/app.js:87 | (and line 109) the last trade when it reads as a non-zero number, else the previous close when that does, and 0 exactly when neither does |
| Quotes.MisItemQuote | js/app.js:87-91 | (and lines 109-113) a quote exactly when the item's price is non-zero, "no trade" otherwise; the previous close is `y` when it reads as non-zero, else the price; the name is `nf`, else `n`, else the symbol; the currency is TWD |
| Quotes.MisExtract | js/app.js:85-91 | (TPEX repeats this code at lines 107-113) bad JSON exactly for a body that is not JSON; "not found" exactly when there is no item; otherwise the quote of the picked item, so a quote exactly when that item's price is non-zero |
| Quotes.FinnhubExtract | js/app.js:131-133 | a quote exactly for a payload whose `c` is truthy; the price is `c`, the previous close `pc`, the change `d` and the percent change `dp` (each 0 when absent), in USD with the symbol as name; a failure is bad JSON exactly for a body that is not JSON, and otherwise "no data" |
| Quotes.QuotePriceNonZero | js/app.js:64-134 | every provider's quote has a non-zero price |
| Quotes.OfflineErrors | js/app.js:45-134 | with every request throwing, every provider fails, and all but Finnhub with "unreachable" |
| Tables.IndexMapsCoverage | js/app.js:17-124 | Yahoo maps exactly the defined indices; TWSE and Finnhub map only defined indices of their own market; no symbol is empty |
| Tables.PresetsConsistent | js/app.js:360-377 | every preset's maintenance margin is between 0 and its initial margin; small and micro contracts ask the same margin per point as their full-size contract |
| Routing.GetProvider | js/app.js:139-142 | the provider named by the market's configured source, or Yahoo when it names none |
| Routing.OtherRegionsUseYahoo | js/app.js:144-158 | indices outside Taiwan and the US go to Yahoo, with no fallback |
| Routing.IndexProvider | js/app.js:145-146 | a defined Taiwan index uses the configured Taiwan source and a defined US index the configured US source; an index not in the definitions counts as US and uses the configured US source; a defined index outside Taiwan and the US uses Yahoo |
| Routing.FetchIndex | js/app.js:144-158 | the provider's quote when it maps the key and succeeds; Yahoo's when the provider does not map the key and Yahoo does; "unsupported" when neither maps it |
| Routing.FallbackOnlyFromOthers | js/app.js:148-153 | when the first provider fails, Yahoo is asked exactly when that provider is not Yahoo and Yahoo maps the key; otherwise the first error is thrown |
| Routing.DefinedIndicesSupported | js/app.js:144-158 | a defined index never ends in "unsupported" |
| Routing.FetchStockQuote | js/app.js:170-181 | the first provider's answer if it succeeds; when it fails and the provider is not Yahoo, Yahoo's answer with Yahoo's symbol whenever that succeeds; any failure is the first error |
| Routing.FetchAllIndices | js/app.js:160-168 | one entry per enabled index and no other, each the result of `fetchIndex` for it |
| JsText.TrimIdempotent | js/app.js:73 | trimmed text has no white space at either end, and trimming it again changes nothing |
| JsText.TrimStart | js/app.js:73 | drops exactly the leading white space: the result is a suffix, everything dropped is white space, and the result does not start with white space |
| JsText.TrimEnd | js/app.js:73 | drops exactly the trailing white space: the result is a prefix, everything dropped is white space, and the result does not end with white space |
| JsText.ParseIntOfNat | js/app.js:211-212 | `parseInt` of a natural number's decimal digits gives that number back |
| JsText.ParseFloatOfNat | js/app.js:88-89 | `parseFloat` of a natural number's decimal digits gives that number back |
| JsText.StripCommas | js/app.js:211-212 | the result has no commas, is no longer than the input, and text without commas is unchanged |
| JsText.StripCommasAppend | js/app.js:211-212 | stripping a concatenation strips each part, so every character other than a comma is kept, in order |
| JsText.StripCommasChar | js/app.js:211-212 | a single comma is removed and any other single character is kept |
| JsText.ToUpperAscii | js/app.js:135 | the result is as long as the input and upper-cases each ASCII letter in place |
| JsText.EncodeURIComponent | js/app.js:34-35 | the result holds only unreserved characters and `%`, is no shorter than the input, and text made of unreserved characters is unchanged |
| JsText.EncodeChar | js/app.js:34-35 | an unreserved character is kept; any other becomes the percent escapes of its UTF-8 bytes, 3 to 12 characters starting with `%` |
| JsText.EncodeAppend | js/app.js:34-35 | encoding a concatenation concatenates the encodings, so text is encoded character by character |
| JsText.EncodeSingle | js/app.js:34-35 | a one-character text encodes as that character's encoding |
| JsText.PercentBytesAppend | js/app.js:34-35 | bytes are escaped one after the other |
| JsText.PercentByte | js/app.js:34-35 | a byte is escaped as `%` and its two hexadecimal digits, high digit first |
| JsText.EncodeExamples | js/app.js:34-35 | a space is `%20`, a comma `%2C` and a bar `%7C` |
| Taifex.DateIsFirst | js/app.js:206-213 | the date the loop keeps is the date of the first mapped item that has one |
| Taifex.MarginField | js/app.js:211-212 | an empty field reads as 0; any other is `parseInt` of its text with the commas removed |
| Taifex.CodeOf | js/app.js:208-209 | a preset code exactly when the trimmed contract name is in the contract map, and then the code it maps to, which is a key of the Taiwan futures presets |
| Taifex.TaifexSpec | js/app.js:199-217 | "unreachable" when no attempt answers ok; an ok response holding a non-empty array gives the margins and date of its rows, and a result comes only from one; bad JSON exactly for a body that is not JSON; an empty table for any other ok body |
| Taifex.MarginsDomain | js/app.js:207-214 | a code has margins exactly when some item maps to it with a positive initial margin |
| Taifex.MarginsLastWins | js/app.js:214 | a code's margins come from the last such item, and its initial margin is positive |
| Taifex.MarginCodesMapped | js/app.js:191-209 | every code in the result is a preset code of the contract map and a key of the Taiwan futures presets |
| Taifex.ParseMargins | js/app.js:205-216 | the loop's margins and date are those of the fold specification |
| Taifex.FetchTaifexMargins | js/app.js:199-217 | fetches through the proxies with 12000 ms; a non-JSON body, a non-array or an empty array is an error; otherwise the parsed margins and date |
| Taifex.UpdatedKeeps | js/app.js:229-231 | the update keeps every code, name, multiplier and unit; a code with new margins gets the fetched initial margin and the fetched maintenance margin, NaN when that did not parse; a code without new margins is unchanged |
| Taifex.UpdatedIdempotent | js/app.js:229-231 | applying the same margins twice is the same as once |
| Taifex.Presets.constructor | js/app.js:360-377 | the preset table starts as the Taiwan and US presets |
| Taifex.Presets.ApplyMargins | js/app.js:229-231 | the Taiwan presets become their update with the fetched margins; US presets are unchanged |
| Taifex.ApplyExample | js/app.js:229-231 | new TX margins replace TX's im and mm and leave MTX as written |

## Left out

- Rendering: HTML, the alert boxes, the risk bar's fill, the formula tabs,
  number formatting (`fmt`, `fM`, `fP`, `toFixed`) and the row CSS classes.
  Only the values and classifications those show are modelled.
- Event wiring, timers, the debounce, `localStorage` settings, the form
  fields written after a TAIFEX update (`js/app.js:233-240`) and the
  `proxy.js` server. None of them compute anything the calculators use.
- `fetch`, `AbortController` and the timeouts. They become the `net`
  parameter, called with the URL and the timeout in milliseconds. `Date.now()`
  becomes the parameter `now`.
- Concurrency: `fetchAllIndices` runs its requests with `Promise.all`. They
  are independent and write distinct keys, so the model does them one after
  another.
- IEEE-754 floating point: rounding error, overflow, the half-way cases of
  `Math.round` on floats, and `parseFloat` reading "Infinity". The model uses
  exact reals.
- `toUpperCase`: only the ASCII letters are upper-cased; there is no Unicode
  case mapping. (`trim` removes the full JavaScript white-space and
  line-terminator set, and the regular expressions are ASCII in JavaScript too.)
- JSON decoding: a body is already one of the decoded shapes the code reads.
  Object lookups of names like `constructor` on `INDEX_MAP`, and a configured
  source naming a non-provider property of `PriceService`, are not modelled.
- Quotes.FinnhubExtract: assumes Finnhub's `pc` (previous close) is present.
  It does not model an `undefined` previous close.
- MarginCalc.CalcMargin: requires the margin rate to be one the select boxes
  offer. A rate typed into a tampered form, such as 1 or 0, is outside the
  model.
- MarginCalc.LongLinePriceHits: the US line of exactly 100% gives an
  infinite price in the source. It is modelled as `Num`, and the lemma
  states the ratio only for finite prices.
- `PROVIDER_INFO`, `fmtChg`, `ETF_PRESETS` and the other calculators of
  `js/app.js` (position sizing, the ETF panel) are not part of this model.
