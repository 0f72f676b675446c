/**
 * Provider routing of `PriceService`: which provider serves a market, how
 * an index or a stock quote is asked for, and when Yahoo is tried as the
 * fallback.
 */
module Routing {
  import opened Base
  import opened Risk
  import opened Quotes
  import opened Tables

  /** The settings the routing reads: the chosen sources, the Finnhub key and which indices are shown. */
  datatype Config = Config(twSource: string, usSource: string, finnhubKey: string, indices: map<string, bool>)

  /** The provider objects of `PriceService`, by property name. */
  function ProviderNamed(name: string): Option<Provider>
  {
    if name == "yahoo" then Some(Yahoo)
    else if name == "twse" then Some(Twse)
    else if name == "tpex" then Some(Tpex)
    else if name == "finnhub" then Some(Finnhub)
    else None
  }

  /** `_getProvider`: the source configured for Taiwan or for every other market, Yahoo when it names no provider. */
  function GetProvider(cfg: Config, market: Market): (p: Provider)
    ensures ProviderNamed(if market == TW then cfg.twSource else cfg.usSource) == Some(p)
         || (ProviderNamed(if market == TW then cfg.twSource else cfg.usSource).None? && p == Yahoo)
  {
    var src := if market == TW then cfg.twSource else cfg.usSource;
    match ProviderNamed(src)
    case Some(p) => p
    case None => Yahoo
  }

  /** `INDEX_DEFS[key]?.market || 'us'`. */
  function IndexRegion(key: string): Region
  {
    if key in IndexDefs then IndexDefs[key].market else Us
  }

  /** The provider `fetchIndex` asks first: the configured one for Taiwan and US indices, Yahoo for the rest. */
  function IndexProvider(cfg: Config, key: string): (p: Provider)
    ensures key !in IndexDefs ==> p == GetProvider(cfg, US)
    ensures key in IndexDefs && IndexDefs[key].market == Tw ==> p == GetProvider(cfg, TW)
    ensures key in IndexDefs && IndexDefs[key].market == Us ==> p == GetProvider(cfg, US)
    ensures key in IndexDefs && IndexDefs[key].market !in {Tw, Us} ==> p == Yahoo
  {
    match IndexRegion(key)
    case Tw => GetProvider(cfg, TW)
    case Us => GetProvider(cfg, US)
    case _ => Yahoo
  }

  function YahooIndex(net: Network, cfg: Config, now: nat, key: string): Result<Quote, QuoteError>
    requires key in YahooIndexMap
  {
    FetchQuote(net, cfg.finnhubKey, now, Yahoo, YahooIndexMap[key])
  }

  /**
   * `fetchIndex`: ask the provider when it maps the key; if that fails, try
   * Yahoo when the provider was another one and Yahoo maps the key, else
   * rethrow. A provider without the key hands it to Yahoo directly.
   */
  function FetchIndex(net: Network, cfg: Config, now: nat, key: string): (r: Result<Quote, QuoteError>)
    ensures var p := IndexProvider(cfg, key);
      && (key in IndexMap(p) && FetchQuote(net, cfg.finnhubKey, now, p, IndexMap(p)[key]).Ok? ==>
            r == FetchQuote(net, cfg.finnhubKey, now, p, IndexMap(p)[key]))
      && (key !in IndexMap(p) && key in YahooIndexMap ==> r == YahooIndex(net, cfg, now, key))
      && (key !in IndexMap(p) && key !in YahooIndexMap ==> r == Err(Unsupported(key)))
  {
    var p := IndexProvider(cfg, key);
    if key in IndexMap(p) then
      match FetchQuote(net, cfg.finnhubKey, now, p, IndexMap(p)[key])
      case Ok(q) => Ok(q)
      case Err(e) =>
        if p != Yahoo && key in YahooIndexMap then YahooIndex(net, cfg, now, key) else Err(e)
    else if key in YahooIndexMap then YahooIndex(net, cfg, now, key)
    else Err(Unsupported(key))
  }

  /** Indices outside Taiwan and the US always go to Yahoo, with no second attempt. */
  lemma OtherRegionsUseYahoo(net: Network, cfg: Config, now: nat, key: string)
    requires IndexRegion(key) !in {Tw, Us}
    ensures IndexProvider(cfg, key) == Yahoo
    ensures FetchIndex(net, cfg, now, key)
         == if key in YahooIndexMap then FetchQuote(net, cfg.finnhubKey, now, Yahoo, YahooIndexMap[key]) else Err(Unsupported(key))
  {
  }

  /**
   * The Yahoo fallback: when the first provider maps the key and fails
   * with `e`, the answer is Yahoo's exactly when that provider is not
   * Yahoo and Yahoo maps the key; otherwise `e` itself.
   */
  lemma FallbackOnlyFromOthers(net: Network, cfg: Config, now: nat, key: string)
    requires var p := IndexProvider(cfg, key);
      key in IndexMap(p) && FetchQuote(net, cfg.finnhubKey, now, p, IndexMap(p)[key]).Err?
    ensures var p := IndexProvider(cfg, key);
      var e := FetchQuote(net, cfg.finnhubKey, now, p, IndexMap(p)[key]).error;
      (p != Yahoo && key in YahooIndexMap ==> FetchIndex(net, cfg, now, key) == YahooIndex(net, cfg, now, key))
      && (p == Yahoo || key !in YahooIndexMap ==> FetchIndex(net, cfg, now, key) == Err(e))
  {
  }

  /** No defined index is ever unsupported: Yahoo maps them all, and no provider reports `Unsupported`. */
  lemma DefinedIndicesSupported(net: Network, cfg: Config, now: nat, key: string)
    requires key in IndexDefs
    ensures FetchIndex(net, cfg, now, key) != Err(Unsupported(key))
  {
    DefinedInYahoo(key);
    FetchIndexCases(net, cfg, now, key);
    var p := IndexProvider(cfg, key);
    if key in IndexMap(p) {
      NeverUnsupported(net, cfg.finnhubKey, now, p, IndexMap(p)[key]);
    }
    NeverUnsupported(net, cfg.finnhubKey, now, Yahoo, YahooIndexMap[key]);
  }

  lemma DefinedInYahoo(key: string)
    requires key in IndexDefs
    ensures key in YahooIndexMap
  {
    YahooKeys();
  }

  /** For a key Yahoo maps, `fetchIndex` answers with the first provider's quote or with Yahoo's. */
  lemma FetchIndexCases(net: Network, cfg: Config, now: nat, key: string)
    requires key in YahooIndexMap
    ensures var p := IndexProvider(cfg, key);
      || FetchIndex(net, cfg, now, key) == YahooIndex(net, cfg, now, key)
      || (key in IndexMap(p) && FetchIndex(net, cfg, now, key) == FetchQuote(net, cfg.finnhubKey, now, p, IndexMap(p)[key]))
  {
  }

  lemma NeverUnsupported(net: Network, key: string, now: nat, p: Provider, symbol: string)
    ensures !FetchQuote(net, key, now, p, symbol).Err? || !FetchQuote(net, key, now, p, symbol).error.Unsupported?
  {
    var url := if p == Yahoo then YahooUrl(symbol) else MisUrl(symbol, now);
    FirstOkChoice(net, ProxyAttempts(url, DefaultTimeout));
  }

  /**
   * `fetchStockQuote`: ask the configured provider with its own symbol
   * format; when that fails and the provider is not Yahoo, try Yahoo with
   * Yahoo's format once, and if that fails too rethrow the FIRST error.
   */
  function FetchStockQuote(net: Network, cfg: Config, now: nat, code: string, market: Market): (r: Result<Quote, QuoteError>)
    ensures var p := GetProvider(cfg, market);
      var first := FetchQuote(net, cfg.finnhubKey, now, p, FormatSymbol(p, code, market));
      && (r.Err? ==> r == first)
      && (first.Ok? ==> r == first)
      && (r.Ok? && first.Err? ==> p != Yahoo && r == FetchQuote(net, cfg.finnhubKey, now, Yahoo, YahooFormat(code, market)))
      && (first.Err? && p != Yahoo && FetchQuote(net, cfg.finnhubKey, now, Yahoo, YahooFormat(code, market)).Ok? ==>
            r == FetchQuote(net, cfg.finnhubKey, now, Yahoo, YahooFormat(code, market)))
  {
    var p := GetProvider(cfg, market);
    var first := FetchQuote(net, cfg.finnhubKey, now, p, FormatSymbol(p, code, market));
    if first.Ok? then first
    else if p != Yahoo then
      var retry := FetchQuote(net, cfg.finnhubKey, now, Yahoo, YahooFormat(code, market));
      if retry.Ok? then retry else first
    else first
  }

  /** The indices `fetchAllIndices` asks for: those switched on in the settings. */
  predicate Enabled(cfg: Config, key: string)
  {
    key in cfg.indices && cfg.indices[key]
  }

  /**
   * `fetchAllIndices`: one entry per enabled index, holding its quote or
   * its error. The requests are independent, so they are made one after
   * the other here.
   */
  method FetchAllIndices(net: Network, cfg: Config, now: nat) returns (results: map<string, Result<Quote, QuoteError>>)
    ensures forall k :: k in results <==> Enabled(cfg, k)
    ensures forall k :: k in results ==> results[k] == FetchIndex(net, cfg, now, k)
  {
    var keys := set k | k in cfg.indices && cfg.indices[k];
    results := map[];
    while keys != {}
      invariant forall k :: k in results <==> Enabled(cfg, k) && k !in keys
      invariant forall k :: k in keys ==> Enabled(cfg, k)
      invariant forall k :: k in results ==> results[k] == FetchIndex(net, cfg, now, k)
      decreases keys
    {
      var key :| key in keys;
      results := results[key := FetchIndex(net, cfg, now, key)];
      keys := keys - {key};
    }
  }
}
