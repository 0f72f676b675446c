/**
 * Exchange margins from TAIFEX (`fetchTaifexMargins`) and their use to
 * refresh the futures presets in place (`fetchTaifexMarginBtn`).
 */
module Taifex {
  import opened Base
  import opened JsNum
  import opened JsText
  import opened Quotes
  import opened Tables

  /** `TAIFEX_CONTRACT_MAP`: the exchange's contract names and the preset codes they update. */
  const ContractMap: map<string, string> := map[
    "臺股期貨" := "TX",
    "小型臺指" := "MTX",
    "微型臺指期貨" := "MXF",
    "電子期貨" := "TE",
    "金融期貨" := "TF"
  ]

  const TaifexUrl: string := "https://openapi.taifex.com.tw/v1/IndexFuturesAndOptionsMargining"
  const TaifexTimeout: int := 12000

  /** A contract's margins; `mm` is `None` when the maintenance margin does not parse (NaN). */
  datatype Margin = Margin(im: int, mm: Option<int>)

  /** `parseInt(String(field || '0').replace(/,/g, ''))`. */
  function MarginField(f: string): (r: Option<int>)
    ensures f == "" ==> r == Some(0)
    ensures f != "" ==> r == ParseInt(StripCommas(f))
  {
    ParseIntOfNat(0);
    assert NatToString(0) == "0" && StripCommas("0") == "0";
    ParseInt(StripCommas(if f == "" then "0" else f))
  }

  /** The preset code an item updates, if its trimmed contract name is mapped. */
  function CodeOf(it: TaifexItem): (r: Option<string>)
    ensures r.Some? <==> Trim(it.contract) in ContractMap
    ensures r.Some? ==> r.value == ContractMap[Trim(it.contract)] && r.value in ContractMap.Values
    ensures r.Some? ==> r.value in TwPresets
  {
    var name := Trim(it.contract);
    if name in ContractMap then Some(ContractMap[name]) else None
  }

  /** What the loop reads from one item: its preset code, both margins and its date. */
  datatype Reading = Reading(code: Option<string>, im: Option<int>, mm: Option<int>, date: string)

  function ReadItem(it: TaifexItem): Reading
  {
    Reading(CodeOf(it), MarginField(it.initialMargin), MarginField(it.maintenanceMargin), it.date)
  }

  function Readings(items: seq<TaifexItem>): (rs: seq<Reading>)
    ensures |rs| == |items| && forall i :: 0 <= i < |items| ==> rs[i] == ReadItem(items[i])
  {
    seq(|items|, i requires 0 <= i < |items| => ReadItem(items[i]))
  }

  /** A reading that is kept for `code`: a mapped contract whose initial margin parses to a positive number. */
  predicate KeptAs(r: Reading, code: string)
  {
    r.code == Some(code) && r.im.Some? && r.im.value > 0
  }

  /** One step of the loop on the margins: a kept reading overwrites its code's entry. */
  function AddMargin(m: map<string, Margin>, r: Reading): map<string, Margin>
  {
    if r.code.Some? && KeptAs(r, r.code.value) then m[r.code.value := Margin(r.im.value, r.mm)] else m
  }

  /** One step of the loop on the date: set once, by a mapped item, and never changed. */
  function AddDate(d: string, r: Reading): string
  {
    if d == "" && r.code.Some? && r.date != "" then r.date else d
  }

  /** The margins after the loop has seen `rs`. */
  function MarginsOf(rs: seq<Reading>): map<string, Margin>
  {
    if rs == [] then map[] else AddMargin(MarginsOf(rs[..|rs| - 1]), rs[|rs| - 1])
  }

  /** The date after the loop has seen `rs`. */
  function DateOf(rs: seq<Reading>): string
  {
    if rs == [] then "" else AddDate(DateOf(rs[..|rs| - 1]), rs[|rs| - 1])
  }

  lemma FoldStep(rs: seq<Reading>, k: int)
    requires 0 <= k < |rs|
    ensures MarginsOf(rs[..k + 1]) == AddMargin(MarginsOf(rs[..k]), rs[k])
    ensures DateOf(rs[..k + 1]) == AddDate(DateOf(rs[..k]), rs[k])
  {
    assert rs[..k + 1][..k] == rs[..k];
  }

  /** An independent reading of the date: the first non-empty `Date` among mapped items. */
  function FirstDate(rs: seq<Reading>): string
  {
    if rs == [] then ""
    else if rs[0].code.Some? && rs[0].date != "" then rs[0].date
    else FirstDate(rs[1..])
  }

  lemma {:induction false} FirstDateSnoc(rs: seq<Reading>, x: Reading)
    ensures FirstDate(rs + [x]) == if FirstDate(rs) != "" then FirstDate(rs) else FirstDate([x])
  {
    if rs != [] {
      assert (rs + [x])[1..] == rs[1..] + [x];
      FirstDateSnoc(rs[1..], x);
    }
  }

  /** The loop's date is the first non-empty `Date` of a mapped item. */
  lemma {:induction false} DateIsFirst(rs: seq<Reading>)
    ensures DateOf(rs) == FirstDate(rs)
  {
    if rs != [] {
      var init, last := rs[..|rs| - 1], rs[|rs| - 1];
      DateIsFirst(init);
      assert rs == init + [last];
      FirstDateSnoc(init, last);
    }
  }

  /** A code has an entry exactly when some reading is kept for it. */
  lemma {:induction false} MarginsDomain(rs: seq<Reading>, code: string)
    ensures code in MarginsOf(rs) <==> exists i :: 0 <= i < |rs| && KeptAs(rs[i], code)
  {
    if rs != [] {
      var init := rs[..|rs| - 1];
      MarginsDomain(init, code);
      if !KeptAs(rs[|rs| - 1], code) {
        assert forall i :: 0 <= i < |init| ==> rs[i] == init[i];
      }
    }
  }

  /** The entry of a code comes from the last reading kept for it, so its initial margin is positive. */
  lemma {:induction false} MarginsLastWins(rs: seq<Reading>, code: string)
    requires code in MarginsOf(rs)
    ensures exists i :: (0 <= i < |rs| && KeptAs(rs[i], code)
      && MarginsOf(rs)[code] == Margin(rs[i].im.value, rs[i].mm)
      && (forall j :: i < j < |rs| ==> !KeptAs(rs[j], code)))
    ensures MarginsOf(rs)[code].im > 0
  {
    var init, last := rs[..|rs| - 1], rs[|rs| - 1];
    if KeptAs(last, code) {
      assert KeptAs(rs[|rs| - 1], code);
    } else {
      MarginsLastWins(init, code);
      var i :| 0 <= i < |init| && KeptAs(init[i], code) && MarginsOf(init)[code] == Margin(init[i].im.value, init[i].mm)
        && forall j :: i < j < |init| ==> !KeptAs(init[j], code);
      assert rs[i] == init[i];
      assert forall j :: i < j < |init| ==> rs[j] == init[j];
    }
  }

  /** Every code the parse yields is one of the contract map's preset codes. */
  lemma MarginCodesMapped(items: seq<TaifexItem>, code: string)
    requires code in MarginsOf(Readings(items))
    ensures code in ContractMap.Values && code in TwPresets
  {
    MarginsDomain(Readings(items), code);
    var i :| 0 <= i < |items| && KeptAs(Readings(items)[i], code);
    assert Readings(items)[i].code == CodeOf(items[i]);
  }

  /**
   * The loop of `fetchTaifexMargins`: skip unmapped contracts, take the
   * first date of a mapped item, keep the contracts whose initial margin
   * is positive.
   */
  method ParseMargins(items: seq<TaifexItem>) returns (margins: map<string, Margin>, date: string)
    ensures margins == MarginsOf(Readings(items)) && date == DateOf(Readings(items))
  {
    ghost var rs := Readings(items);
    margins, date := map[], "";
    for k := 0 to |items|
      invariant margins == MarginsOf(rs[..k]) && date == DateOf(rs[..k])
    {
      var it := items[k];
      FoldStep(rs, k);
      var code := CodeOf(it);
      assert rs[k].code == code;
      if code.Some? {
        var im := MarginField(it.initialMargin);
        var mm := MarginField(it.maintenanceMargin);
        assert rs[k].im == im && rs[k].mm == mm && rs[k].date == it.date;
        if date == "" && it.date != "" {
          date := it.date;
        }
        if im.Some? && im.value > 0 {
          margins := margins[code.value := Margin(im.value, mm)];
        }
      }
      assert margins == AddMargin(MarginsOf(rs[..k]), rs[k]) && date == AddDate(DateOf(rs[..k]), rs[k]);
    }
    assert rs[..|items|] == rs;
  }

  /** What `fetchTaifexMargins` returns: the margins and the date, or the error thrown. */
  function TaifexSpec(net: Network): (r: Result<(map<string, Margin>, string), QuoteError>)
    ensures ProxyFetchSpec(net, TaifexUrl, TaifexTimeout).Err? ==> r == Err(Unreachable)
    ensures r.Ok? ==>
      var resp := ProxyFetchSpec(net, TaifexUrl, TaifexTimeout);
      && resp.Ok? && resp.value.body.TaifexArray? && resp.value.body.items != []
      && r.value == (MarginsOf(Readings(resp.value.body.items)), DateOf(Readings(resp.value.body.items)))
    ensures r.Err? && ProxyFetchSpec(net, TaifexUrl, TaifexTimeout).Ok? ==> r.error in {BadJson, EmptyTable}
    ensures ProxyFetchSpec(net, TaifexUrl, TaifexTimeout).Ok? ==>
      var body := ProxyFetchSpec(net, TaifexUrl, TaifexTimeout).value.body;
      && (r == Err(BadJson) <==> body.NotJson?)
      && (body.TaifexArray? && body.items != [] ==> r == Ok((MarginsOf(Readings(body.items)), DateOf(Readings(body.items)))))
      && (!body.NotJson? && !(body.TaifexArray? && body.items != []) ==> r == Err(EmptyTable))
  {
    FirstOkChoice(net, ProxyAttempts(TaifexUrl, TaifexTimeout));
    match ProxyFetchSpec(net, TaifexUrl, TaifexTimeout)
    case Err(e) => Err(e)
    case Ok(r) =>
      match r.body
      case NotJson => Err(BadJson)
      case TaifexArray(items) => if items == [] then Err(EmptyTable) else Ok((MarginsOf(Readings(items)), DateOf(Readings(items))))
      case _ => Err(EmptyTable)
  }

  /** `fetchTaifexMargins`: fetch through `_proxyFetch` with a 12-second timeout, reject what is not a non-empty array, parse. */
  method FetchTaifexMargins(net: Network) returns (res: Result<(map<string, Margin>, string), QuoteError>)
    ensures res == TaifexSpec(net)
  {
    var r := ProxyFetch(net, TaifexUrl, TaifexTimeout);
    if r.Err? {
      return Err(r.error);
    }
    match r.value.body {
      case NotJson => res := Err(BadJson);
      case TaifexArray(items) =>
        if items == [] {
          res := Err(EmptyTable);
        } else {
          var margins, date := ParseMargins(items);
          res := Ok((margins, date));
        }
      case _ => res := Err(EmptyTable);
    }
  }

  // -------------------------------------------------------------- presets

  function MmValue(mm: Option<int>): Num
  {
    match mm
    case Some(v) => Fin(v as real)
    case None => NaN
  }

  /** The Taiwan presets after the update: codes present in both get the new `im` and `mm`, nothing else changes. */
  function Updated(tw: map<string, Preset>, margins: map<string, Margin>): map<string, Preset>
  {
    map code | code in tw :: if code in margins then tw[code].(im := margins[code].im as real, mm := MmValue(margins[code].mm)) else tw[code]
  }

  /**
   * The update overwrites only `im` and `mm` of existing codes: the codes,
   * and every name, multiplier and unit stay; codes without new margins
   * are untouched. A code with new margins takes the fetched initial
   * margin, and the fetched maintenance margin, which is NaN when the
   * exchange's text does not parse.
   */
  lemma UpdatedKeeps(tw: map<string, Preset>, margins: map<string, Margin>)
    ensures Updated(tw, margins).Keys == tw.Keys
    ensures forall c :: c in tw ==>
      (Updated(tw, margins)[c].name == tw[c].name && Updated(tw, margins)[c].mul == tw[c].mul
       && Updated(tw, margins)[c].unit == tw[c].unit)
    ensures forall c :: c in tw && c !in margins ==> Updated(tw, margins)[c] == tw[c]
    ensures forall c :: c in tw && c in margins ==> Updated(tw, margins)[c].im == margins[c].im as real
    ensures forall c :: c in tw && c in margins ==> Updated(tw, margins)[c].mm == MmValue(margins[c].mm)
    ensures forall c :: c in tw && c in margins ==>
      (margins[c].mm.Some? ==> Updated(tw, margins)[c].mm == Fin(margins[c].mm.value as real))
      && (margins[c].mm.None? ==> Updated(tw, margins)[c].mm == NaN)
  {
  }

  /** Updating with margins already in place changes nothing more: the update is idempotent. */
  lemma UpdatedIdempotent(tw: map<string, Preset>, margins: map<string, Margin>)
    ensures Updated(Updated(tw, margins), margins) == Updated(tw, margins)
  {
  }

  /** `FP`: the futures presets, which the TAIFEX update rewrites in place. */
  class Presets {
    var tw: map<string, Preset>
    var us: map<string, Preset>

    constructor()
      ensures tw == TwPresets && us == UsPresets
    {
      tw, us := TwPresets, UsPresets;
    }

    /**
     * `Object.entries(margins).forEach(...)`: for each code that `FP.tw`
     * has, overwrite its `im` and `mm`. `FP.us` is not touched.
     */
    method ApplyMargins(margins: map<string, Margin>)
      modifies this
      ensures tw == Updated(old(tw), margins)
      ensures us == old(us)
    {
      var pending := margins.Keys;
      ghost var done: set<string> := {};
      while pending != {}
        invariant pending + done == margins.Keys && pending !! done
        invariant tw.Keys == old(tw).Keys && us == old(us)
        invariant forall c :: c in tw ==> tw[c] == if c in done then Updated(old(tw), margins)[c] else old(tw)[c]
        decreases pending
      {
        var code :| code in pending;
        if code in tw {
          tw := tw[code := tw[code].(im := margins[code].im as real, mm := MmValue(margins[code].mm))];
        }
        pending, done := pending - {code}, done + {code};
      }
    }
  }

  /** The TX contract after an update from a table listing it at 200000/150000: the multiplier stays 200. */
  lemma ApplyExample()
    ensures Updated(TwPresets, map["TX" := Margin(200000, Some(150000))])["TX"]
         == Preset("臺股期貨 (大台)", 200.0, 200000.0, Fin(150000.0), "點")
    ensures Updated(TwPresets, map["TX" := Margin(200000, Some(150000))])["MTX"] == TwPresets["MTX"]
  {
  }
}
