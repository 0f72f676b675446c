/**
 * The static tables: the indices the dashboard knows (`INDEX_DEFS`), each
 * provider's index symbols (`INDEX_MAP`) and the futures contract presets
 * (`FP`).
 */
module Tables {
  import opened JsNum
  import opened Quotes

  /** The `market` of an index definition. */
  datatype Region = Tw | Us | Jp | Kr | Cn | Hk

  datatype IndexDef = IndexDef(name: string, placeholder: string, market: Region, region: string, chart: string)

  const IndexDefs: map<string, IndexDef> := map[
    "taiex" := IndexDef("加權指數", "22000", Tw, "台灣", "TWSE:TAIEX"),
    "sp500" := IndexDef("S&P 500", "5800", Us, "美國", "SP:SPX"),
    "nasdaq" := IndexDef("Nasdaq", "18000", Us, "美國", "NASDAQ:NDX"),
    "dow" := IndexDef("道瓊", "42000", Us, "美國", "DJ:DJI"),
    "sox" := IndexDef("費半", "5000", Us, "美國", "NASDAQ:SOX"),
    "nikkei" := IndexDef("日經225", "38000", Jp, "亞洲", "TVC:NI225"),
    "kospi" := IndexDef("KOSPI", "2500", Kr, "亞洲", "KRX:KOSPI"),
    "shanghai" := IndexDef("上證指數", "3200", Cn, "亞洲", "SSE:000001"),
    "hsi" := IndexDef("恆生指數", "20000", Hk, "亞洲", "TVC:HSI")
  ]

  const YahooIndexMap: map<string, string> := map[
    "taiex" := "^TWII", "sp500" := "^GSPC", "nasdaq" := "^IXIC", "dow" := "^DJI", "sox" := "^SOX",
    "nikkei" := "^N225", "kospi" := "^KS11", "shanghai" := "000001.SS", "hsi" := "^HSI"
  ]

  const TwseIndexMap: map<string, string> := map["taiex" := "tse_t00.tw"]

  const TpexIndexMap: map<string, string> := map[]

  /** Finnhub quotes ETFs that track the US indices. */
  const FinnhubIndexMap: map<string, string> := map["sp500" := "SPY", "nasdaq" := "QQQ", "dow" := "DIA", "sox" := "SOXX"]

  /** `provider.INDEX_MAP`. */
  function IndexMap(p: Provider): map<string, string>
  {
    match p
    case Yahoo => YahooIndexMap
    case Twse => TwseIndexMap
    case Tpex => TpexIndexMap
    case Finnhub => FinnhubIndexMap
  }

  /** Yahoo knows every defined index, and each provider's map only holds defined indices of its own markets. */
  lemma IndexMapsCoverage()
    ensures IndexDefs.Keys == YahooIndexMap.Keys
    ensures forall k :: k in TwseIndexMap ==> k in IndexDefs && IndexDefs[k].market == Tw
    ensures forall k :: k in FinnhubIndexMap ==> k in IndexDefs && IndexDefs[k].market == Us
    ensures forall p: Provider, k :: k in IndexMap(p) ==> IndexMap(p)[k] != ""
  {
    YahooKeys();
    TwseRegions();
    FinnhubRegions();
    forall p: Provider, k | k in IndexMap(p)
      ensures IndexMap(p)[k] != ""
    {
      SymbolsNonEmpty(p, k);
    }
  }

  lemma YahooKeys()
    ensures IndexDefs.Keys == YahooIndexMap.Keys
  {
    assert IndexDefs.Keys == {"taiex", "sp500", "nasdaq", "dow", "sox", "nikkei", "kospi", "shanghai", "hsi"};
    assert YahooIndexMap.Keys == {"taiex", "sp500", "nasdaq", "dow", "sox", "nikkei", "kospi", "shanghai", "hsi"};
  }

  lemma TwseRegions()
    ensures forall k :: k in TwseIndexMap ==> k in IndexDefs && IndexDefs[k].market == Tw
  {
    assert TwseIndexMap.Keys == {"taiex"};
  }

  lemma FinnhubRegions()
    ensures forall k :: k in FinnhubIndexMap ==> k in IndexDefs && IndexDefs[k].market == Us
  {
    assert FinnhubIndexMap.Keys == {"sp500", "nasdaq", "dow", "sox"};
  }

  lemma SymbolsNonEmpty(p: Provider, k: string)
    requires k in IndexMap(p)
    ensures IndexMap(p)[k] != ""
  {
    assert forall v :: v in YahooIndexMap.Values ==> |v| > 0;
    assert forall v :: v in FinnhubIndexMap.Values ==> |v| > 0;
    assert IndexMap(p)[k] in IndexMap(p).Values;
  }

  /**
   * A futures preset. `mm` is a JavaScript number because a TAIFEX update
   * can store NaN there; every preset as written holds a finite one.
   */
  datatype Preset = Preset(name: string, mul: real, im: real, mm: Num, unit: string)

  const TwPresets: map<string, Preset> := map[
    "TX" := Preset("臺股期貨 (大台)", 200.0, 184000.0, Fin(141000.0), "點"),
    "MTX" := Preset("小型臺指 (小台)", 50.0, 46000.0, Fin(35250.0), "點"),
    "MXF" := Preset("微型臺指 (微台)", 10.0, 9200.0, Fin(7050.0), "點"),
    "TE" := Preset("電子期貨", 4000.0, 210000.0, Fin(161000.0), "點"),
    "TF" := Preset("金融期貨", 1000.0, 52500.0, Fin(40250.0), "點"),
    "STK" := Preset("股票期貨", 2000.0, 0.0, Fin(0.0), "元")
  ]

  const UsPresets: map<string, Preset> := map[
    "ES" := Preset("E-mini S&P 500", 50.0, 12650.0, Fin(11500.0), "pts"),
    "NQ" := Preset("E-mini Nasdaq 100", 20.0, 16500.0, Fin(15000.0), "pts"),
    "MES" := Preset("Micro E-mini S&P", 5.0, 1265.0, Fin(1150.0), "pts"),
    "MNQ" := Preset("Micro E-mini NQ", 2.0, 1650.0, Fin(1500.0), "pts"),
    "YM" := Preset("E-mini Dow", 5.0, 9000.0, Fin(8200.0), "pts"),
    "MYM" := Preset("Micro E-mini Dow", 0.5, 900.0, Fin(820.0), "pts")
  ]

  /** The maintenance margin is finite, not negative and never above the initial margin. */
  predicate MarginsOrdered(p: Preset)
  {
    p.mm.Fin? && 0.0 <= p.mm.v <= p.im
  }

  /**
   * The presets as written: every contract has ordered margins, and the
   * small and micro contracts ask for the same margin per index point as
   * their full-size contract (TX, MTX and MXF 920; ES and MES 253; NQ and
   * MNQ 825; YM and MYM 1800).
   */
  lemma PresetsConsistent()
    ensures forall c :: c in TwPresets ==> MarginsOrdered(TwPresets[c])
    ensures forall c :: c in UsPresets ==> MarginsOrdered(UsPresets[c])
    ensures TwPresets["MTX"].im / TwPresets["MTX"].mul == TwPresets["TX"].im / TwPresets["TX"].mul
    ensures TwPresets["MXF"].im / TwPresets["MXF"].mul == TwPresets["TX"].im / TwPresets["TX"].mul
    ensures UsPresets["MES"].im / UsPresets["MES"].mul == UsPresets["ES"].im / UsPresets["ES"].mul
    ensures UsPresets["MNQ"].im / UsPresets["MNQ"].mul == UsPresets["NQ"].im / UsPresets["NQ"].mul
    ensures UsPresets["MYM"].im / UsPresets["MYM"].mul == UsPresets["YM"].im / UsPresets["YM"].mul
  {
  }
}
