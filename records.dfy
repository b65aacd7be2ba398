/**
 * The DR record every part of the service passes around, and the three ways
 * the scrape service builds one: from a SET API item, from a ThaiWarrant
 * table row, and from a raw legacy object (`processDRData`).
 *
 * A JavaScript value that may be missing is an `Option`; a string that may be
 * missing is the empty string, which is what the source's `||` treats it as.
 * Timestamps are the opaque input `now`.
 */
module Records {
  import opened Wrappers
  import opened Text
  import opened Numbers
  import opened Classify

  datatype Record = Record(
    symbol: string,
    name: string,
    underlying: string,
    market: string,
    country: string,
    sector: string,
    price: real,
    change: real,
    changePercent: real,
    volume: real,
    value: real,
    high: Option<real>,
    low: Option<real>,
    open: Option<real>,
    prevClose: Option<real>,
    bid: Option<real>,
    ask: Option<real>,
    pe: Option<real>,
    dividend: Option<real>,
    marketCap: Option<real>,
    issuer: string,
    issuerCode: Option<string>,
    ratio: string,
    tradingHours: string,
    tradingSession: Option<TradingSession>,
    lastUpdate: string)

  /** The classifier fields hold values from the classifiers' fixed sets. */
  predicate WellClassified(r: Record)
  {
    r.country in CountryCodes && r.sector in SectorNames
  }

  /** `s || alt` for a string. */
  function Or(s: string, alt: string): (r: string)
    ensures r == "" ==> s == "" && alt == ""
    ensures s != "" ==> r == s
  {
    if s != "" then s else alt
  }

  // ----- SET API --------------------------------------------------------------

  /**
   * One item of the SET DR search response; a missing number is 0, a missing
   * string empty, except the symbol, whose absence the mapping does not survive.
   */
  datatype SetItem = SetItem(
    symbol: Option<string>,
    securityName: string,
    underlyingName: string,
    exchange: string,
    last: real,
    change: real,
    percentChange: real,
    volume: real,
    value: real,
    high: real,
    low: real,
    open: real,
    prior: real,
    drRatio: string,
    marketCap: real)

  /** The record the SET mapping builds, classifiers applied to the mapped market and underlying. */
  function SetRecord(item: SetItem, now: string): (r: Record)
    requires item.symbol.Some?
    ensures WellClassified(r)
    ensures r.symbol == item.symbol.value
    ensures (r.name != "") <==> (item.symbol.value != "" || item.securityName != "")
    ensures r.issuerCode.Some? && r.issuerCode.value != ""
    ensures r.issuer != ""
    ensures r.tradingSession.Some? && r.tradingHours == r.tradingSession.value.session
    ensures r.value == item.value * 1000.0
    ensures r.marketCap == Some(item.marketCap * 1000000.0)
    ensures r.pe.None? && r.dividend.None? && r.bid.None? && r.ask.None?
  {
    var symbol := item.symbol.value;
    var name := Or(item.securityName, symbol);
    var underlying := Or(item.underlyingName, StripTrailingDigits(symbol));
    var market := Or(item.exchange, "N/A");
    var country := DetectCountry(market, underlying, symbol);
    var session := DetectTradingHours(market, country, underlying);
    var code := IssuerCodeFromSuffix(symbol);
    Record(
      symbol, name, underlying, market, country, DetectSector(name, underlying),
      item.last, item.change, item.percentChange, item.volume, item.value * 1000.0,
      Some(item.high), Some(item.low), Some(item.open), Some(item.prior),
      None, None, None, None, Some(item.marketCap * 1000000.0),
      IssuerName(Some(code)), Some(code), Or(item.drRatio, "100:1"),
      session.session, Some(session), now)
  }

  /**
   * A response the mapping gets through: a JSON array whose every item has a
   * symbol. On an item without one, the issuer-suffix lookup throws, and the
   * scraper's `catch` answers `null`.
   */
  predicate SetResponseUsable(response: Option<seq<SetItem>>)
  {
    response.Some? && forall i :: 0 <= i < |response.value| ==> response.value[i].symbol.Some?
  }

  /**
   * `scrapeSET`: `null` when the response is not a JSON array or an item has
   * no symbol, otherwise every item mapped.
   */
  function SetScrape(response: Option<seq<SetItem>>, now: string): (r: Option<seq<Record>>)
    ensures r.None? <==> response.None? || exists i :: 0 <= i < |response.value| && response.value[i].symbol.None?
    ensures r.Some? ==> |r.value| == |response.value|
    ensures r.Some? ==> forall i :: 0 <= i < |r.value| ==> response.value[i].symbol.Some? && r.value[i] == SetRecord(response.value[i], now)
  {
    if !SetResponseUsable(response) then None
    else
      var items := response.value;
      Some(seq(|items|, i requires 0 <= i < |items| => SetRecord(items[i], now)))
  }

  /** A SET record without an underlying name falls back to the symbol without its trailing digits. */
  lemma SetUnderlyingFallback(item: SetItem, now: string)
    requires item.symbol.Some? && item.underlyingName == ""
    ensures SetRecord(item, now).underlying + TrailingDigits(item.symbol.value) == item.symbol.value
  {
    TrailingDigitsSplit(item.symbol.value);
  }

  // ----- ThaiWarrant ----------------------------------------------------------

  /** The cells of one table row, each trimmed; only called on rows with at least 8 cells. */
  function WarrantRow(cells: seq<string>, now: string): (r: Record)
    requires |cells| >= 8
    ensures WellClassified(r)
    ensures r.symbol == Trim(cells[0]) && r.underlying == Trim(cells[6]) && r.market == Trim(cells[7])
    ensures r.issuerCode.Some? && r.tradingSession.None? && r.tradingHours == "N/A"
  {
    var symbol := Trim(cells[0]);
    var underlying := Trim(cells[6]);
    var market := Trim(cells[7]);
    var price := ParsePrice(Trim(cells[1]));
    var changePercent := ParseFloat(KeepNumeric(Trim(cells[2]))).GetOr(0.0);
    var value := ParseVolume(Trim(cells[3]));
    var volume := if price > 0.0 then Round(value / price) as real else 0.0;
    var code := IssuerCodeFromSuffix(symbol);
    Record(
      symbol, symbol + " (" + underlying + ")", underlying, market,
      DetectCountry(market, underlying, symbol), DetectSector(Trim(cells[5]), underlying),
      price, 0.0, changePercent, volume, value,
      Some(0.0), Some(0.0), Some(0.0), Some(0.0),
      None, None, Some(0.0), Some(0.0), Some(0.0),
      IssuerName(Some(code)), Some(code), Trim(cells[4]), "N/A", None, now)
  }

  /** Volume is value over price rounded to the nearest unit, and 0 when the price is not positive. */
  lemma WarrantVolume(cells: seq<string>, now: string)
    requires |cells| >= 8
    ensures var r := WarrantRow(cells, now);
      (r.price <= 0.0 ==> r.volume == 0.0) && (r.price > 0.0 ==> r.volume - 0.5 <= r.value / r.price < r.volume + 0.5)
  {
  }

  /** The change-percent column goes through the same cleaning and fallback as `parsePrice`. */
  lemma WarrantChangeIsPrice(cells: seq<string>, now: string)
    requires |cells| >= 8
    ensures WarrantRow(cells, now).changePercent == ParsePrice(Trim(cells[2]))
  {
    if Trim(cells[2]) == "" {
      assert KeepNumeric("") == "";
      assert TrimStart("") == "";
    }
  }

  /** What one data row contributes: its record, or nothing when it has fewer than 8 cells. */
  function RowRecords(cells: seq<string>, now: string): (r: seq<Record>)
    ensures |r| <= 1
    ensures r != [] <==> |cells| >= 8
    ensures r != [] ==> r[0] == WarrantRow(cells, now)
  {
    if |cells| >= 8 then [WarrantRow(cells, now)] else []
  }

  /** What every row after the header contributes, in row order. */
  function AfterHeader<R>(rows: seq<seq<string>>, f: seq<string> -> seq<R>): seq<R>
  {
    if |rows| <= 1 then [] else AfterHeader(rows[..|rows| - 1], f) + f(rows[|rows| - 1])
  }

  /** Extending the rows by one extends the output by what that row contributes, unless it is the header. */
  lemma AfterHeaderStep<R>(rows: seq<seq<string>>, i: nat, f: seq<string> -> seq<R>)
    requires i < |rows|
    ensures AfterHeader(rows[..i + 1], f) == AfterHeader(rows[..i], f) + (if i == 0 then [] else f(rows[i]))
  {
    assert rows[..i + 1][..i] == rows[..i];
  }

  /** An output element comes from some row after the header, and every such row's output is there. */
  lemma {:induction false} AfterHeaderMember<R>(rows: seq<seq<string>>, f: seq<string> -> seq<R>, x: R)
    ensures x in AfterHeader(rows, f) <==> exists i :: 1 <= i < |rows| && x in f(rows[i])
  {
    if |rows| > 1 {
      var n := |rows| - 1;
      var front := rows[..n];
      AfterHeaderMember(front, f, x);
      if exists i :: 1 <= i < |rows| && x in f(rows[i]) {
        var i :| 1 <= i < |rows| && x in f(rows[i]);
        if i < n { assert front[i] == rows[i]; }
      }
      if x in AfterHeader(front, f) {
        var i :| 1 <= i < |front| && x in f(front[i]);
        assert front[i] == rows[i];
      }
    }
  }

  /** Each row after the header adds at most one element, so the output is shorter than the table. */
  lemma {:induction false} AfterHeaderLength<R>(rows: seq<seq<string>>, f: seq<string> -> seq<R>)
    requires forall c :: |f(c)| <= 1
    ensures |AfterHeader(rows, f)| <= if |rows| == 0 then 0 else |rows| - 1
  {
    if |rows| > 1 {
      AfterHeaderLength(rows[..|rows| - 1], f);
    }
  }

  /** The records the row loop pushes: row 0 and rows with fewer than 8 cells are skipped. */
  function WarrantRecords(rows: seq<seq<string>>, now: string): seq<Record>
  {
    AfterHeader(rows, RowStep(now))
  }

  /** The row rule at a fixed timestamp. */
  function RowStep(now: string): seq<string> -> seq<Record>
  {
    (cells: seq<string>) => RowRecords(cells, now)
  }

  /**
   * A record is pushed exactly when it comes from a data row (not row 0) with
   * at least 8 cells, and there are fewer records than rows.
   */
  lemma WarrantRecordsSpec(rows: seq<seq<string>>, now: string, r: Record)
    ensures r in WarrantRecords(rows, now) <==> exists i :: 1 <= i < |rows| && |rows[i]| >= 8 && r == WarrantRow(rows[i], now)
    ensures |WarrantRecords(rows, now)| <= if |rows| == 0 then 0 else |rows| - 1
  {
    var f := RowStep(now);
    AfterHeaderMember(rows, f, r);
    AfterHeaderLength(rows, f);
    if exists i :: 1 <= i < |rows| && |rows[i]| >= 8 && r == WarrantRow(rows[i], now) {
      var i :| 1 <= i < |rows| && |rows[i]| >= 8 && r == WarrantRow(rows[i], now);
      assert r in f(rows[i]);
    }
  }

  /**
   * The row loop of `scrapeThaiWarrant`: the header row is skipped and every
   * other row's contribution is appended in order.
   */
  method CollectAfterHeader<R>(rows: seq<seq<string>>, f: seq<string> -> seq<R>) returns (list: seq<R>)
    ensures list == AfterHeader(rows, f)
  {
    list := [];
    var i := 0;
    while i < |rows|
      invariant 0 <= i <= |rows|
      invariant list == AfterHeader(rows[..i], f)
    {
      AfterHeaderStep(rows, i, f);
      if i != 0 {
        list := list + f(rows[i]);
      }
      i := i + 1;
    }
    assert rows[..i] == rows;
  }

  /**
   * `scrapeThaiWarrant` once the page is fetched. `None` stands for the table
   * being absent or the request failing, both of which return `null`.
   */
  method ScrapeThaiWarrant(table: Option<seq<seq<string>>>, now: string) returns (drList: Option<seq<Record>>)
    ensures drList.Some? <==> table.Some?
    ensures drList.Some? ==> drList.value == WarrantRecords(table.value, now)
  {
    if table.None? {
      return None;
    }
    var list := CollectAfterHeader(table.value, RowStep(now));
    return Some(list);
  }

  /** `scrapeThaiWarrant` as a value, for the specification of the loader. */
  function WarrantScrape(table: Option<seq<seq<string>>>, now: string): (r: Option<seq<Record>>)
    ensures r.Some? <==> table.Some?
  {
    match table
    case None => None
    case Some(rows) => Some(WarrantRecords(rows, now))
  }

  // ----- legacy objects -------------------------------------------------------

  /** A raw legacy object: property name to its text; an absent property is absent from the map. */
  type Raw = map<string, string>

  /** `raw.k1 || raw.k2 || ... || ''`: the first present, non-empty property. */
  function Field(raw: Raw, keys: seq<string>): (r: string)
    ensures r != "" ==> exists k :: 0 <= k < |keys| && keys[k] in raw && raw[keys[k]] == r
    ensures r == "" <==> forall k :: 0 <= k < |keys| ==> keys[k] !in raw || raw[keys[k]] == ""
  {
    if keys == [] then ""
    else if keys[0] in raw && raw[keys[0]] != "" then raw[keys[0]]
    else
      var r := Field(raw, keys[1..]);
      assert forall k :: 1 <= k < |keys| ==> keys[k] == keys[1..][k - 1];
      r
  }

  /** The first present, non-empty property wins over every later one. */
  lemma {:induction false} FieldFirst(raw: Raw, keys: seq<string>, k: nat)
    requires k < |keys| && keys[k] in raw && raw[keys[k]] != ""
    requires forall j :: 0 <= j < k ==> keys[j] !in raw || raw[keys[j]] == ""
    ensures Field(raw, keys) == raw[keys[k]]
  {
    if k > 0 {
      FieldFirst(raw, keys[1..], k - 1);
    }
  }

  /** `processDRData`. */
  function ProcessDRData(raw: Raw, now: string): (r: Record)
    ensures WellClassified(r)
    ensures r.symbol == Field(raw, ["symbol", "Symbol"])
    ensures r.issuerCode == IssuerCodeFromName(r.issuer)
    ensures r.issuer == "" ==> r.issuerCode.None?
    ensures r.tradingHours != "" && r.ratio != ""
    ensures r.tradingSession.None?
  {
    var symbol := Field(raw, ["symbol", "Symbol"]);
    var name := Field(raw, ["name", "Name", "companyName"]);
    var underlying := Or(Field(raw, ["underlying", "underlyingSymbol"]), StripTrailingDigits(symbol));
    var market := Field(raw, ["market", "exchange"]);
    var issuer := Field(raw, ["issuer", "issuerName"]);
    Record(
      symbol, name, underlying, market,
      DetectCountry(market, underlying, symbol), DetectSector(name, underlying),
      ParsePrice(Field(raw, ["last", "price", "lastPrice"])),
      ParsePrice(Field(raw, ["change", "priceChange"])),
      ParsePrice(Field(raw, ["percentChange", "changePercent", "pctChange"])),
      ParseVolume(Field(raw, ["volume", "totalVolume"])),
      ParseVolume(Field(raw, ["value", "totalValue"])),
      Some(ParsePrice(Field(raw, ["high"]))),
      Some(ParsePrice(Field(raw, ["low"]))),
      Some(ParsePrice(Field(raw, ["open"]))),
      Some(ParsePrice(Field(raw, ["prior", "prevClose"]))),
      Some(ParsePrice(Field(raw, ["bid", "bidPrice"]))),
      Some(ParsePrice(Field(raw, ["ask", "offerPrice"]))),
      Some(ParsePrice(Field(raw, ["pe", "peRatio"]))),
      Some(ParsePrice(Field(raw, ["dividendYield", "yield"]))),
      Some(ParseVolume(Field(raw, ["marketCap"]))),
      issuer, IssuerCodeFromName(issuer),
      Or(Field(raw, ["ratio", "drRatio"]), "1:1"),
      Or(Field(raw, ["tradingSession"]), "กลางวัน"),
      None, now)
  }

  /** A legacy object with no price property at all gets price 0. */
  lemma ProcessDRDataMissingPrice(raw: Raw, now: string)
    requires "last" !in raw && "price" !in raw && "lastPrice" !in raw
    ensures ProcessDRData(raw, now).price == 0.0
  {
    var keys := ["last", "price", "lastPrice"];
    assert forall k :: 0 <= k < |keys| ==> keys[k] !in raw;
  }

  // ----- what the live sources deliver ----------------------------------------

  /** Every SET record is classified and carries an issuer code. */
  lemma SetScrapeClassified(response: Option<seq<SetItem>>, now: string)
    ensures SetScrape(response, now).Some? ==>
      forall r :: r in SetScrape(response, now).value ==> WellClassified(r) && r.issuerCode.Some?
  {
  }

  /** Every ThaiWarrant record is classified and carries an issuer code. */
  lemma WarrantScrapeClassified(table: Option<seq<seq<string>>>, now: string)
    ensures WarrantScrape(table, now).Some? ==>
      forall r :: r in WarrantScrape(table, now).value ==> WellClassified(r) && r.issuerCode.Some?
  {
    if table.Some? {
      forall r | r in WarrantRecords(table.value, now) ensures WellClassified(r) && r.issuerCode.Some? {
        WarrantRecordsSpec(table.value, now, r);
      }
    }
  }
}
