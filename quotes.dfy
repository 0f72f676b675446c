/**
 * The quote providers of `PriceService`: how each one formats a symbol,
 * which URL it asks, how `_proxyFetch` tries the direct URL and then each
 * CORS proxy, and how each provider turns the decoded payload into a
 * quote or an error.
 *
 * The network is a parameter: `net(url, timeout)` is what one
 * `_fetchTimeout` call yields, either a thrown error or a response.
 */
module Quotes {
  import opened Base
  import opened JsText
  import opened Risk

  datatype Quote = Quote(price: real, prevClose: real, change: real, changePct: real, currency: string, name: string)

  /** The errors the providers and `_proxyFetch` throw. */
  datatype QuoteError =
    | Unreachable          // every attempt of `_proxyFetch` failed
    | NetworkFailure       // a direct `_fetchTimeout` threw
    | BadJson              // the body is not JSON
    | NoData               // Yahoo or Finnhub: no price in the payload
    | NotFound             // TWSE or TPEX: no item at all
    | NoTrade              // TWSE or TPEX: the price reads as 0
    | NeedsKey             // Finnhub without an API key
    | HttpStatus(code: int)
    | Unsupported(key: string)
    | EmptyTable           // TAIFEX: not an array, or an empty one

  // ------------------------------------------------------------- payloads

  /**
   * Yahoo's `chart.result[0].meta`. A number that is absent or null is
   * `None`; a string that is absent is "".
   */
  datatype YahooMeta = YahooMeta(
    regularMarketPrice: Option<real>, chartPreviousClose: Option<real>, previousClose: Option<real>,
    currency: string, shortName: string, symbol: string)

  /** One element of the TWSE/TPEX `msgArray`: last trade `z`, previous close `y`, names `nf` and `n`. */
  datatype MisItem = MisItem(z: Option<string>, y: Option<string>, nf: string, n: string)

  /** Finnhub's quote object: current `c`, previous close `pc`, change `d` and percent change `dp`. */
  datatype FinnhubData = FinnhubData(c: Option<real>, pc: real, d: Option<real>, dp: Option<real>)

  /** One row of the TAIFEX margin table; absent fields are "". */
  datatype TaifexItem = TaifexItem(contract: string, initialMargin: string, maintenanceMargin: string, date: string)

  /** What `r.json()` yields, by the shape the providers look for. */
  datatype Body =
    | NotJson
    | YahooChart(meta: Option<YahooMeta>)
    | MisPayload(msgArray: Option<seq<MisItem>>)
    | FinnhubPayload(data: FinnhubData)
    | TaifexArray(items: seq<TaifexItem>)
    | OtherJson

  datatype Response = Response(ok: bool, status: int, body: Body)

  /** The outcome of one `_fetchTimeout`: it threw (network error, abort at the timeout) or a response came. */
  datatype Attempt = Threw | Answered(response: Response)

  type Network = (string, int) -> Attempt

  predicate Succeeds(a: Attempt) { a.Answered? && a.response.ok }

  // ---------------------------------------------------------- _proxyFetch

  const DirectTimeoutCap: int := 4000
  const DefaultTimeout: int := 8000

  /** `PROXIES`: the two CORS relays, each given the target URL encoded as a query parameter. */
  const Proxies: seq<string -> string> := [
    u => "https://api.allorigins.win/raw?url=" + EncodeURIComponent(u),
    u => "https://corsproxy.io/?url=" + EncodeURIComponent(u)
  ]

  /** The attempts of `_proxyFetch`, in order: direct with at most 4 seconds, then each proxy with the full timeout. */
  function ProxyAttempts(url: string, timeout: int): (r: seq<(string, int)>)
    ensures |r| == 1 + |Proxies|
    ensures r[0] == (url, Min(timeout, DirectTimeoutCap))
    ensures forall i :: 1 <= i < |r| ==> r[i] == (Proxies[i - 1](url), timeout)
  {
    [(url, Min(timeout, DirectTimeoutCap))] + seq(|Proxies|, i requires 0 <= i < |Proxies| => (Proxies[i](url), timeout))
  }

  /** The first attempt that yields an `ok` response, else `Unreachable`. */
  function FirstOk(net: Network, attempts: seq<(string, int)>): Result<Response, QuoteError>
  {
    if attempts == [] then Err(Unreachable)
    else if Succeeds(net(attempts[0].0, attempts[0].1)) then Ok(net(attempts[0].0, attempts[0].1).response)
    else FirstOk(net, attempts[1..])
  }

  function ProxyFetchSpec(net: Network, url: string, timeout: int): Result<Response, QuoteError>
  {
    FirstOk(net, ProxyAttempts(url, timeout))
  }

  predicate AttemptOk(net: Network, attempts: seq<(string, int)>, i: int)
    requires 0 <= i < |attempts|
  {
    Succeeds(net(attempts[i].0, attempts[i].1))
  }

  /**
   * `FirstOk` fails only when every attempt fails, and otherwise returns
   * the response of an attempt that succeeded after all earlier ones failed.
   */
  lemma {:induction false} FirstOkChoice(net: Network, attempts: seq<(string, int)>)
    ensures FirstOk(net, attempts).Err? <==> forall i :: 0 <= i < |attempts| ==> !AttemptOk(net, attempts, i)
    ensures FirstOk(net, attempts).Err? ==> FirstOk(net, attempts).error == Unreachable
    ensures FirstOk(net, attempts).Ok? ==>
      exists i :: 0 <= i < |attempts| && AttemptOk(net, attempts, i)
        && net(attempts[i].0, attempts[i].1) == Answered(FirstOk(net, attempts).value)
        && forall j :: 0 <= j < i ==> !AttemptOk(net, attempts, j)
  {
    if attempts != [] {
      FirstOkChoice(net, attempts[1..]);
      if !AttemptOk(net, attempts, 0) {
        forall i | 1 <= i < |attempts|
          ensures AttemptOk(net, attempts, i) == AttemptOk(net, attempts[1..], i - 1)
        {
        }
        if FirstOk(net, attempts).Ok? {
          var k :| 0 <= k < |attempts[1..]| && AttemptOk(net, attempts[1..], k)
            && net(attempts[1..][k].0, attempts[1..][k].1) == Answered(FirstOk(net, attempts[1..]).value)
            && forall j :: 0 <= j < k ==> !AttemptOk(net, attempts[1..], j);
          assert AttemptOk(net, attempts, k + 1);
        }
      } else {
        assert AttemptOk(net, attempts, 0);
      }
    }
  }

  /**
   * `_proxyFetch`: try the URL directly, then through each proxy, and
   * return the first `ok` response; throw `Unreachable` when none is.
   */
  method ProxyFetch(net: Network, url: string, timeout: int) returns (res: Result<Response, QuoteError>)
    ensures res == ProxyFetchSpec(net, url, timeout)
  {
    var attempts := ProxyAttempts(url, timeout);
    var a := net(url, Min(timeout, DirectTimeoutCap));
    if Succeeds(a) {
      return Ok(a.response);
    }
    assert FirstOk(net, attempts) == FirstOk(net, attempts[1..]);
    for k := 0 to |Proxies|
      invariant FirstOk(net, attempts) == FirstOk(net, attempts[k + 1..])
    {
      var b := net(Proxies[k](url), timeout);
      assert attempts[k + 1..][0] == (Proxies[k](url), timeout);
      if Succeeds(b) {
        return Ok(b.response);
      }
      assert attempts[k + 1..][1..] == attempts[k + 2..];
    }
    assert attempts[|Proxies| + 1..] == [];
    res := Err(Unreachable);
  }

  // ------------------------------------------------------------ symbols

  predicate IsAsciiLetter(c: char) { 'A' <= c <= 'Z' || 'a' <= c <= 'z' }

  /**
   * `c` matches `^\d{lo,hi}[A-Za-z]?$`: a run of between `lo` and `hi`
   * ASCII digits, optionally followed by one ASCII letter.
   */
  predicate StockCode(c: string, lo: nat, hi: nat)
  {
    var k := if c != [] && IsAsciiLetter(c[|c| - 1]) then |c| - 1 else |c|;
    lo <= k <= hi && AllDigits(c[..k])
  }

  /** Yahoo: a Taiwan code of digits with an optional letter and no dot gets `.TW` appended. */
  function YahooFormat(code: string, market: Market): (r: string)
    ensures r == Trim(code) || r == Trim(code) + ".TW"
    ensures r != Trim(code) <==> market == TW && '.' !in Trim(code) && StockCode(Trim(code), 1, |Trim(code)|)
    ensures market == US ==> r == Trim(code)
  {
    var c := Trim(code);
    if NeedsTwSuffix(c, market) then c + ".TW" else c
  }

  predicate NeedsTwSuffix(c: string, market: Market)
  {
    market == TW && '.' !in c && StockCode(c, 1, |c|)
  }

  /** TWSE: a 4-6 digit code becomes the composite `tse_X.tw|otc_X.tw`, which asks both exchanges. */
  function TwseFormat(code: string): (r: string)
    ensures r != Trim(code) <==> StockCode(Trim(code), 4, 6)
    ensures r != Trim(code) ==> r == "tse_" + Trim(code) + ".tw|otc_" + Trim(code) + ".tw"
  {
    var c := Trim(code);
    if StockCode(c, 4, 6) then "tse_" + c + ".tw|otc_" + c + ".tw" else c
  }

  /** TPEX: a 4-6 digit code gets the `otc_` channel prefix. */
  function TpexFormat(code: string): (r: string)
    ensures r != Trim(code) <==> StockCode(Trim(code), 4, 6)
    ensures r != Trim(code) ==> r == "otc_" + Trim(code) + ".tw"
  {
    var c := Trim(code);
    if StockCode(c, 4, 6) then "otc_" + c + ".tw" else c
  }

  /** Finnhub: the trimmed code with its ASCII letters upper-cased. */
  function FinnhubFormat(code: string): (r: string)
    ensures |r| == |Trim(code)| && forall i :: 0 <= i < |r| ==> r[i] == UpperChar(Trim(code)[i])
  {
    ToUpperAscii(Trim(code))
  }

  lemma NoSpaceEnds(s: string)
    requires s != [] && !IsSpace(s[0]) && !IsSpace(s[|s| - 1])
    ensures Trim(s) == s
  {
    TrimNoop(s);
  }

  /** A code that already carries `.TW` is left alone, so formatting twice is formatting once. */
  lemma YahooFormatIdempotent(code: string, market: Market)
    ensures YahooFormat(YahooFormat(code, market), market) == YahooFormat(code, market)
  {
    TrimIdempotent(code);
    YahooTrimFirst(code, market);
    YahooFormatOfTrimmed(Trim(code), market);
  }

  lemma YahooTrimFirst(code: string, market: Market)
    ensures YahooFormat(code, market) == YahooFormat(Trim(code), market)
  {
    TrimIdempotent(code);
  }

  lemma YahooFormatOfTrimmed(c: string, market: Market)
    requires Trim(c) == c && (c == [] || !IsSpace(c[0]))
    ensures YahooFormat(YahooFormat(c, market), market) == YahooFormat(c, market)
  {
    if NeedsTwSuffix(c, market) {
      assert c != [];
      assert YahooFormat(c, market) == c + ".TW";
      YahooSuffixed(c, market);
    } else {
      assert YahooFormat(c, market) == c;
    }
  }

  lemma YahooSuffixed(c: string, market: Market)
    requires c != [] && !IsSpace(c[0])
    ensures YahooFormat(c + ".TW", market) == c + ".TW"
  {
    var f := c + ".TW";
    assert f[|f| - 1] == 'W' && f[0] == c[0];
    NoSpaceEnds(f);
    assert f[|f| - 3] == '.';
    assert !NeedsTwSuffix(f, market);
  }

  /** Outside Taiwan the Yahoo symbol is the trimmed code. */
  lemma YahooFormatUs(code: string)
    ensures YahooFormat(code, US) == Trim(code)
  {
  }

  lemma TaggedNotCode(f: string)
    requires f != [] && !IsDigit(f[0])
    ensures !StockCode(f, 4, 6)
  {
    var k := if f != [] && IsAsciiLetter(f[|f| - 1]) then |f| - 1 else |f|;
    if 4 <= k {
      assert f[..k][0] == f[0];
    }
  }

  /** The composite TWSE channel is not a code any more, so formatting twice is formatting once. */
  lemma TwseFormatIdempotent(code: string)
    ensures TwseFormat(TwseFormat(code)) == TwseFormat(code)
  {
    TrimIdempotent(code);
    TwseTrimFirst(code);
    TwseFormatOfTrimmed(Trim(code));
  }

  lemma TwseTrimFirst(code: string)
    ensures TwseFormat(code) == TwseFormat(Trim(code))
  {
    TrimIdempotent(code);
  }

  lemma TwseFormatOfTrimmed(c: string)
    requires Trim(c) == c
    ensures TwseFormat(TwseFormat(c)) == TwseFormat(c)
  {
    if StockCode(c, 4, 6) {
      var f := "tse_" + c + ".tw|otc_" + c + ".tw";
      assert TwseFormat(c) == f;
      assert f[0] == 't' && f[|f| - 1] == 'w';
      NoSpaceEnds(f);
      TaggedNotCode(f);
      assert TwseFormat(f) == f;
    } else {
      assert TwseFormat(c) == c;
    }
  }

  lemma TpexFormatIdempotent(code: string)
    ensures TpexFormat(TpexFormat(code)) == TpexFormat(code)
  {
    TrimIdempotent(code);
    TpexTrimFirst(code);
    TpexFormatOfTrimmed(Trim(code));
  }

  lemma TpexTrimFirst(code: string)
    ensures TpexFormat(code) == TpexFormat(Trim(code))
  {
    TrimIdempotent(code);
  }

  lemma TpexFormatOfTrimmed(c: string)
    requires Trim(c) == c
    ensures TpexFormat(TpexFormat(c)) == TpexFormat(c)
  {
    if StockCode(c, 4, 6) {
      var f := "otc_" + c + ".tw";
      assert TpexFormat(c) == f;
      assert f[0] == 'o' && f[|f| - 1] == 'w';
      NoSpaceEnds(f);
      TaggedNotCode(f);
      assert TpexFormat(f) == f;
    } else {
      assert TpexFormat(c) == c;
    }
  }

  lemma FinnhubFormatIdempotent(code: string)
    ensures FinnhubFormat(FinnhubFormat(code)) == FinnhubFormat(code)
  {
    TrimIdempotent(code);
    UpperKeepsEnds(Trim(code));
    UpperIdempotent(Trim(code));
  }

  /** Upper-casing a trimmed string leaves it trimmed. */
  lemma UpperKeepsEnds(c: string)
    requires c == [] || (!IsSpace(c[0]) && !IsSpace(c[|c| - 1]))
    ensures Trim(ToUpperAscii(c)) == ToUpperAscii(c)
  {
    var u := ToUpperAscii(c);
    if u != [] {
      assert u[0] == UpperChar(c[0]) && u[|u| - 1] == UpperChar(c[|c| - 1]);
      NoSpaceEnds(u);
    }
  }

  lemma UpperIdempotent(c: string)
    ensures ToUpperAscii(ToUpperAscii(c)) == ToUpperAscii(c)
  {
    var u := ToUpperAscii(c);
    forall i | 0 <= i < |u|
      ensures ToUpperAscii(u)[i] == u[i]
    {
      assert u[i] == UpperChar(c[i]);
    }
  }

  // ------------------------------------------------------------- payloads

  /** A JavaScript number used as a condition: absent, null and 0 are falsy. */
  predicate Truthy(o: Option<real>) { o.Some? && o.value != 0.0 }

  function OrZero(o: Option<real>): real { if o.Some? then o.value else 0.0 }

  /** `(price - prev) / prev * 100`, guarded, as `fetchQuote` guards it, by `prev ? … : 0`. */
  function ChangePct(price: real, prev: real): real
  {
    if prev != 0.0 then (price - prev) / prev * 100.0 else 0.0
  }

  /** The quote object both Yahoo and MIS return: the change and percent change follow from the price and the previous close. */
  function MakeQuote(price: real, prev: real, currency: string, name: string): (q: Quote)
    requires prev != 0.0
    ensures q.price == price && q.prevClose == prev && q.currency == currency && q.name == name
    ensures q.change == price - prev && q.changePct == (price - prev) / prev * 100.0
  {
    Quote(price, prev, price - prev, ChangePct(price, prev), currency, name)
  }

  /**
   * Yahoo's quote: no price, or a price of 0, is `NoData`; the previous
   * close falls back from `chartPreviousClose` to `previousClose` to the
   * price, so it is never 0.
   */
  function YahooExtract(body: Body): (r: Result<Quote, QuoteError>)
    ensures r.Ok? <==> body.YahooChart? && body.meta.Some? && Truthy(body.meta.value.regularMarketPrice)
    ensures r.Err? ==> (r.error == BadJson <==> body.NotJson?) && (r.error == BadJson || r.error == NoData)
    ensures r.Ok? && body.YahooChart? && body.meta.Some? ==>
      var m, q := body.meta.value, r.value;
      && q.price == m.regularMarketPrice.value
      && (Truthy(m.chartPreviousClose) ==> q.prevClose == m.chartPreviousClose.value)
      && (!Truthy(m.chartPreviousClose) && Truthy(m.previousClose) ==> q.prevClose == m.previousClose.value)
      && (!Truthy(m.chartPreviousClose) && !Truthy(m.previousClose) ==> q.prevClose == q.price)
      && q.currency == m.currency
      && q.name == (if m.shortName != "" then m.shortName else m.symbol)
    ensures r.Ok? ==> r.value.price != 0.0 && r.value.prevClose != 0.0
    ensures r.Ok? ==> r.value == MakeQuote(r.value.price, r.value.prevClose, r.value.currency, r.value.name)
  {
    match body
    case NotJson => Err(BadJson)
    case YahooChart(Some(m)) =>
      if !Truthy(m.regularMarketPrice) then Err(NoData)
      else
        var price := m.regularMarketPrice.value;
        var prev := if Truthy(m.chartPreviousClose) then m.chartPreviousClose.value
          else if Truthy(m.previousClose) then m.previousClose.value else price;
        var name := if m.shortName != "" then m.shortName else m.symbol;
        Ok(MakeQuote(price, prev, m.currency, name))
    case _ => Err(NoData)
  }

  function ParseOpt(o: Option<string>): Option<real>
  {
    match o
    case None => None
    case Some(s) => ParseFloat(s)
  }

  /** A MIS item with a last trade: `z` present, non-empty and not "-". */
  predicate HasTrade(it: MisItem) { it.z.Some? && it.z.value != "" && it.z.value != "-" }

  /** The index `items.find(i => i.z && i.z !== '-')` stops at: the first traded item, or the length when none is. */
  function FirstTrade(items: seq<MisItem>): (k: nat)
    ensures k <= |items|
    ensures k < |items| ==> HasTrade(items[k])
    ensures forall j :: 0 <= j < k ==> !HasTrade(items[j])
  {
    if items == [] || HasTrade(items[0]) then 0
    else
      var k := FirstTrade(items[1..]);
      assert forall j :: 1 <= j < k + 1 ==> items[j] == items[1..][j - 1];
      k + 1
  }

  /**
   * `items.find(i => i.z && i.z !== '-') || items[0]`: the first item with
   * a trade, and the first item when none has one.
   */
  function PickItem(items: seq<MisItem>): (r: Option<MisItem>)
    ensures r.None? <==> items == []
    ensures r.Some? ==> r.value in items
    ensures r.Some? && HasTrade(r.value) ==>
      exists i :: 0 <= i < |items| && items[i] == r.value && forall j :: 0 <= j < i ==> !HasTrade(items[j])
    ensures r.Some? && !HasTrade(r.value) ==> r.value == items[0] && forall i :: 0 <= i < |items| ==> !HasTrade(items[i])
  {
    if items == [] then None
    else
      var k := FirstTrade(items);
      if k < |items| then Some(items[k]) else Some(items[0])
  }

  /** The last trade when it is not "-" and reads as a non-zero number. */
  function TradePrice(it: MisItem): Option<real>
  {
    if it.z == Some("-") then None else ParseOpt(it.z)
  }

  /** The price: the last trade unless it is "-", else the previous close, else 0. */
  function MisPrice(it: MisItem): (r: real)
    ensures Truthy(TradePrice(it)) ==> r == TradePrice(it).value
    ensures !Truthy(TradePrice(it)) && Truthy(ParseOpt(it.y)) ==> r == ParseOpt(it.y).value
    ensures r == 0.0 <==> !Truthy(TradePrice(it)) && !Truthy(ParseOpt(it.y))
  {
    var zp, yp := TradePrice(it), ParseOpt(it.y);
    if Truthy(zp) then zp.value else if Truthy(yp) then yp.value else 0.0
  }

  /** `(await r.json())?.msgArray || []`. */
  function MisItems(body: Body): seq<MisItem>
  {
    if body.MisPayload? && body.msgArray.Some? then body.msgArray.value else []
  }

  /**
   * The quote of the item picked: a price that reads as 0 is `NoTrade`; the
   * previous close is `y` when it reads as a non-zero number, else the price;
   * the name is `nf`, else `n`, else the symbol.
   */
  function MisItemQuote(it: MisItem, symbol: string): (r: Result<Quote, QuoteError>)
    ensures r.Ok? <==> MisPrice(it) != 0.0
    ensures r.Err? ==> r.error == NoTrade
    ensures r.Ok? ==>
      var q := r.value;
      && q.price == MisPrice(it)
      && (Truthy(ParseOpt(it.y)) ==> q.prevClose == ParseOpt(it.y).value)
      && (!Truthy(ParseOpt(it.y)) ==> q.prevClose == q.price)
      && q.name == (if it.nf != "" then it.nf else if it.n != "" then it.n else symbol)
      && q.currency == "TWD"
    ensures r.Ok? ==> r.value.price != 0.0 && r.value.prevClose != 0.0
    ensures r.Ok? ==> r.value == MakeQuote(r.value.price, r.value.prevClose, r.value.currency, r.value.name)
  {
    var price := MisPrice(it);
    var yp := ParseOpt(it.y);
    var prev := if Truthy(yp) then yp.value else price;
    var name := if it.nf != "" then it.nf else if it.n != "" then it.n else symbol;
    if price == 0.0 then Err(NoTrade)
    else Ok(MakeQuote(price, prev, "TWD", name))
  }

  /**
   * The TWSE/TPEX quote (the two providers run the same code): a body that
   * is not JSON is `BadJson`, no item at all is `NotFound`, and otherwise
   * the quote of the picked item.
   */
  function MisExtract(body: Body, symbol: string): (r: Result<Quote, QuoteError>)
    ensures r.Err? ==> r.error in {BadJson, NotFound, NoTrade}
    ensures r.Err? ==> (r.error == BadJson <==> body.NotJson?)
    ensures r == Err(NotFound) <==> !body.NotJson? && MisItems(body) == []
    ensures !body.NotJson? && MisItems(body) != [] ==> r == MisItemQuote(PickItem(MisItems(body)).value, symbol)
    ensures r.Ok? <==> !body.NotJson? && MisItems(body) != [] && MisPrice(PickItem(MisItems(body)).value) != 0.0
  {
    if body.NotJson? then Err(BadJson)
    else
      match PickItem(MisItems(body))
      case None => Err(NotFound)
      case Some(it) => MisItemQuote(it, symbol)
  }

  /** Finnhub's quote: a current price that is absent or 0 is `NoData`; missing changes read as 0. */
  function FinnhubExtract(body: Body, symbol: string): (r: Result<Quote, QuoteError>)
    ensures r.Ok? <==> body.FinnhubPayload? && Truthy(body.data.c)
    ensures r.Err? ==> (r.error == BadJson <==> body.NotJson?) && (r.error == BadJson || r.error == NoData)
    ensures r.Ok? && body.FinnhubPayload? ==>
      && r.value.price == body.data.c.value && r.value.prevClose == body.data.pc
      && r.value.change == OrZero(body.data.d) && r.value.changePct == OrZero(body.data.dp)
    ensures r.Ok? ==> r.value.price != 0.0 && r.value.currency == "USD" && r.value.name == symbol
  {
    match body
    case NotJson => Err(BadJson)
    case FinnhubPayload(d) =>
      if !Truthy(d.c) then Err(NoData)
      else Ok(Quote(d.c.value, d.pc, OrZero(d.d), OrZero(d.dp), "USD", symbol))
    case _ => Err(NoData)
  }

  // ------------------------------------------------------------ providers

  datatype Provider = Yahoo | Twse | Tpex | Finnhub

  function YahooUrl(symbol: string): string
  {
    "https://query1.finance.yahoo.com/v8/finance/chart/" + EncodeURIComponent(symbol) + "?range=1d&interval=1d"
  }

  /** The MIS endpoint; `now` is `Date.now()`, appended to defeat caches. */
  function MisUrl(symbol: string, now: nat): string
  {
    "https://mis.twse.com.tw/stock/api/getStockInfo.jsp?ex_ch=" + EncodeURIComponent(symbol) + "&_=" + NatToString(now)
  }

  /** Finnhub's URL; the key is appended as it is. */
  function FinnhubUrl(symbol: string, key: string): string
  {
    "https://finnhub.io/api/v1/quote?symbol=" + EncodeURIComponent(symbol) + "&token=" + key
  }

  /** Yahoo's `fetchQuote`: through the proxies; when none answers, `Unreachable`, else the extract of the body. */
  function YahooQuote(net: Network, symbol: string): (r: Result<Quote, QuoteError>)
    ensures ProxyFetchSpec(net, YahooUrl(symbol), DefaultTimeout).Err? ==> r == Err(Unreachable)
    ensures ProxyFetchSpec(net, YahooUrl(symbol), DefaultTimeout).Ok? ==>
      r == YahooExtract(ProxyFetchSpec(net, YahooUrl(symbol), DefaultTimeout).value.body)
  {
    FirstOkChoice(net, ProxyAttempts(YahooUrl(symbol), DefaultTimeout));
    match ProxyFetchSpec(net, YahooUrl(symbol), DefaultTimeout)
    case Err(e) => Err(e)
    case Ok(r) => YahooExtract(r.body)
  }

  /** The MIS `fetchQuote` of TWSE and TPEX: through the proxies, then the MIS extract. */
  function MisQuote(net: Network, now: nat, symbol: string): (r: Result<Quote, QuoteError>)
    ensures ProxyFetchSpec(net, MisUrl(symbol, now), DefaultTimeout).Err? ==> r == Err(Unreachable)
    ensures ProxyFetchSpec(net, MisUrl(symbol, now), DefaultTimeout).Ok? ==>
      r == MisExtract(ProxyFetchSpec(net, MisUrl(symbol, now), DefaultTimeout).value.body, symbol)
  {
    FirstOkChoice(net, ProxyAttempts(MisUrl(symbol, now), DefaultTimeout));
    match ProxyFetchSpec(net, MisUrl(symbol, now), DefaultTimeout)
    case Err(e) => Err(e)
    case Ok(r) => MisExtract(r.body, symbol)
  }

  /** Finnhub is asked directly, without the proxies, and only with a key. */
  function FinnhubQuote(net: Network, key: string, symbol: string): (r: Result<Quote, QuoteError>)
    ensures key == "" ==> r == Err(NeedsKey)
    ensures key != "" && net(FinnhubUrl(symbol, key), DefaultTimeout) == Threw ==> r == Err(NetworkFailure)
    ensures r.Ok? ==>
      && key != "" && Succeeds(net(FinnhubUrl(symbol, key), DefaultTimeout))
      && r == FinnhubExtract(net(FinnhubUrl(symbol, key), DefaultTimeout).response.body, symbol)
    ensures key != "" && Succeeds(net(FinnhubUrl(symbol, key), DefaultTimeout)) ==>
      r == FinnhubExtract(net(FinnhubUrl(symbol, key), DefaultTimeout).response.body, symbol)
    ensures key != "" && net(FinnhubUrl(symbol, key), DefaultTimeout).Answered? && !net(FinnhubUrl(symbol, key), DefaultTimeout).response.ok ==>
      r == Err(HttpStatus(net(FinnhubUrl(symbol, key), DefaultTimeout).response.status))
  {
    if key == "" then Err(NeedsKey)
    else match net(FinnhubUrl(symbol, key), DefaultTimeout)
      case Threw => Err(NetworkFailure)
      case Answered(r) => if !r.ok then Err(HttpStatus(r.status)) else FinnhubExtract(r.body, symbol)
  }

  /** `provider.fetchQuote(symbol)`. */
  function FetchQuote(net: Network, key: string, now: nat, p: Provider, symbol: string): Result<Quote, QuoteError>
  {
    match p
    case Yahoo => YahooQuote(net, symbol)
    case Twse => MisQuote(net, now, symbol)
    case Tpex => MisQuote(net, now, symbol)
    case Finnhub => FinnhubQuote(net, key, symbol)
  }

  /** `provider.formatSymbol(code, market)`. */
  function FormatSymbol(p: Provider, code: string, market: Market): string
  {
    match p
    case Yahoo => YahooFormat(code, market)
    case Twse => TwseFormat(code)
    case Tpex => TpexFormat(code)
    case Finnhub => FinnhubFormat(code)
  }

  /** A quote any provider returns has a non-zero price. */
  lemma QuotePriceNonZero(net: Network, key: string, now: nat, p: Provider, symbol: string)
    ensures FetchQuote(net, key, now, p, symbol).Ok? ==> FetchQuote(net, key, now, p, symbol).value.price != 0.0
  {
  }

  /**
   * When every connection fails, the proxied providers report
   * `Unreachable` and Finnhub reports `NetworkFailure` (or `NeedsKey`).
   */
  lemma OfflineErrors(net: Network, key: string, now: nat, p: Provider, symbol: string)
    requires forall u: string, t: int :: net(u, t) == Threw
    ensures FetchQuote(net, key, now, p, symbol).Err?
    ensures p != Finnhub ==> FetchQuote(net, key, now, p, symbol).error == Unreachable
  {
    var url := if p == Yahoo then YahooUrl(symbol) else MisUrl(symbol, now);
    FirstOkChoice(net, ProxyAttempts(url, DefaultTimeout));
  }
}
