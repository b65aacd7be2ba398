/**
 * The pure helpers of the single-page client (`App.jsx`): the trading-session
 * indicator, the trading-hours fallback, the TradingView symbol lookup, the
 * screener predicate, the related-DR lookup of the underlying-stocks page, the
 * home page's ranking fallback and the two compare selections.
 */
module Frontend {
  import opened Wrappers
  import opened Text
  import opened Numbers
  import opened Sorting
  import opened Cascade
  import opened Records
  import opened Snapshot
  import Classify
  import Routes

  // ----- trading session indicator -------------------------------------------

  /** What `checkSession` shows: the day session, the night session or closed. */
  datatype Session = DayOpen | NightOpen | Closed

  const DayStart := 600
  const DayEnd := 990
  const NightStart := 1140
  const NightEnd := 180

  /** Minutes since midnight in Bangkok (UTC+7) for a UTC clock reading. */
  function BangkokMinutes(utcHour: int, utcMinute: int): (t: int)
    requires 0 <= utcHour < 24 && 0 <= utcMinute < 60
    ensures 0 <= t < 1440
    ensures t == (utcHour * 60 + utcMinute + 420) % 1440
  {
    ((utcHour + 7) % 24) * 60 + utcMinute
  }

  /** `checkSession`: the day window wins, the night window wraps past midnight and needs night trading. */
  function SessionAt(utcHour: int, utcMinute: int, hasNightTrading: bool): Session
    requires 0 <= utcHour < 24 && 0 <= utcMinute < 60
  {
    var t := BangkokMinutes(utcHour, utcMinute);
    if DayStart <= t <= DayEnd then DayOpen
    else if hasNightTrading && (t >= NightStart || t <= NightEnd) then NightOpen
    else Closed
  }

  /** `isOpen` as the indicator sets it. */
  predicate IsOpen(s: Session) { s != Closed }

  /** The label the indicator shows. */
  function SessionLabel(s: Session): string
  {
    match s
    case DayOpen => "☀️ กลางวัน"
    case NightOpen => "🌙 กลางคืน"
    case Closed => "ปิดทำการ"
  }

  /**
   * The same indicator read on the UTC clock: the day session is 03:00-09:30
   * UTC whatever the DR, the night session 12:00-20:00 UTC for DRs with night
   * trading, and the two never overlap, so the day-first order hides nothing.
   */
  lemma SessionInUtc(utcHour: int, utcMinute: int, hasNightTrading: bool)
    requires 0 <= utcHour < 24 && 0 <= utcMinute < 60
    ensures var u := utcHour * 60 + utcMinute;
      SessionAt(utcHour, utcMinute, hasNightTrading) ==
        if 180 <= u <= 570 then DayOpen
        else if hasNightTrading && 720 <= u <= 1200 then NightOpen
        else Closed
  {
    var u := utcHour * 60 + utcMinute;
    var t := BangkokMinutes(utcHour, utcMinute);
    if u + 420 < 1440 {
      assert t == u + 420;
    } else {
      assert t == u + 420 - 1440;
    }
  }

  /** The day session does not depend on the night flag, and without night trading only the day session opens. */
  lemma SessionNightFlag(utcHour: int, utcMinute: int)
    requires 0 <= utcHour < 24 && 0 <= utcMinute < 60
    ensures SessionAt(utcHour, utcMinute, true) == DayOpen <==> SessionAt(utcHour, utcMinute, false) == DayOpen
    ensures SessionAt(utcHour, utcMinute, false) != NightOpen
    ensures IsOpen(SessionAt(utcHour, utcMinute, false)) ==> IsOpen(SessionAt(utcHour, utcMinute, true))
  {
  }

  /** 02:00 in Bangkok (19:00 UTC) is in the night session; 17:00 (10:00 UTC) is closed for every DR. */
  lemma SessionExamples(hasNightTrading: bool)
    ensures SessionAt(19, 0, true) == NightOpen
    ensures SessionAt(19, 0, false) == Closed
    ensures SessionAt(10, 0, hasNightTrading) == Closed
    ensures SessionAt(3, 0, hasNightTrading) == DayOpen
  {
  }

  // ----- getTradingHours -------------------------------------------------------

  /** The client's ticker prefixes: the scrape service's list plus the two ETFs. */
  const Etfs: seq<string> := ["QQQ", "SPY"]
  const ClientUsPatterns: seq<string> := Classify.UsStockPatterns + Etfs

  /** `hasNightTrading` of `getTradingHours`. */
  predicate ClientNightTrading(market: string, country: string, underlying: string)
  {
    || AnyNeedle(ToUpper(market), Classify.NightMarkets, Includes)
    || country == "US" || country == "EU"
    || AnyNeedle(ToUpper(underlying), ClientUsPatterns, Prefix)
  }

  /** `getTradingHours`: a set label other than `N/A` stands; otherwise it is derived from the venue. */
  function GetTradingHours(r: Record): (h: string)
    ensures r.tradingHours != "" && r.tradingHours != "N/A" ==> h == r.tradingHours
    ensures r.tradingHours == "" || r.tradingHours == "N/A" ==> h == Classify.DayAndNight || h == Classify.DayOnly
  {
    if r.tradingHours != "" && r.tradingHours != "N/A" then r.tradingHours
    else if ClientNightTrading(r.market, r.country, r.underlying) then Classify.DayAndNight
    else Classify.DayOnly
  }

  /** A needle list split in two matches when either half does. */
  lemma AnyNeedleAppend(s: string, a: seq<string>, b: seq<string>, test: Test)
    ensures AnyNeedle(s, a + b, test) <==> AnyNeedle(s, a, test) || AnyNeedle(s, b, test)
  {
    if AnyNeedle(s, a + b, test) {
      var k :| 0 <= k < |a + b| && NeedleMatches(s, (a + b)[k], test);
      if k >= |a| {
        assert b[k - |a|] == (a + b)[k];
      }
    }
    if AnyNeedle(s, a, test) {
      var k :| 0 <= k < |a| && NeedleMatches(s, a[k], test);
      assert (a + b)[k] == a[k];
    }
    if AnyNeedle(s, b, test) {
      var k :| 0 <= k < |b| && NeedleMatches(s, b[k], test);
      assert (a + b)[|a| + k] == b[k];
    }
  }

  /**
   * Where the label is missing, the client agrees with the scrape service's
   * `detectTradingHours` on every underlying that does not start with QQQ or SPY.
   */
  lemma TradingHoursAgreeWithScraper(r: Record)
    requires r.tradingHours == "" || r.tradingHours == "N/A"
    requires !AnyNeedle(ToUpper(r.underlying), Etfs, Prefix)
    ensures GetTradingHours(r) == Classify.DetectTradingHours(r.market, r.country, r.underlying).session
  {
    AnyNeedleAppend(ToUpper(r.underlying), Classify.UsStockPatterns, Etfs, Prefix);
  }

  /** The client alone counts the two ETFs as trading at night. */
  lemma TradingHoursEtfs(r: Record)
    requires r.tradingHours == "" || r.tradingHours == "N/A"
    requires StartsWith(ToUpper(r.underlying), "QQQ") || StartsWith(ToUpper(r.underlying), "SPY")
    ensures GetTradingHours(r) == Classify.DayAndNight
  {
    var u := ToUpper(r.underlying);
    if StartsWith(u, "QQQ") {
      assert NeedleMatches(u, Etfs[0], Prefix);
    } else {
      assert NeedleMatches(u, Etfs[1], Prefix);
    }
    AnyNeedleAppend(u, Classify.UsStockPatterns, Etfs, Prefix);
  }

  /**
   * ThaiWarrant rows arrive with the label `N/A`, so the client derives their
   * hours, and outside the two ETFs it derives what the scrape service would.
   */
  lemma WarrantHoursOnClient(cells: seq<string>, now: string)
    requires |cells| >= 8
    requires !AnyNeedle(ToUpper(Trim(cells[6])), Etfs, Prefix)
    ensures var r := WarrantRow(cells, now);
      GetTradingHours(r) == Classify.DetectTradingHours(r.market, r.country, r.underlying).session
  {
    TradingHoursAgreeWithScraper(WarrantRow(cells, now));
  }

  // ----- getTVSymbol -----------------------------------------------------------

  /** The exchange suffixes of `/\.(HK|T|PA|AS|SI)$/i`. */
  const ExchangeSuffixes: seq<string> := [".HK", ".T", ".PA", ".AS", ".SI"]

  /** Removes the first suffix of `suffixes` that ends `s`, if any. */
  function StripFirstSuffix(s: string, suffixes: seq<string>): (r: string)
    ensures (exists k :: 0 <= k < |suffixes| && EndsWith(s, suffixes[k]) && s == r + suffixes[k])
      || (r == s && forall k :: 0 <= k < |suffixes| ==> !EndsWith(s, suffixes[k]))
  {
    if suffixes == [] then s
    else if EndsWith(s, suffixes[0]) then
      EndsWithIff(s, suffixes[0]);
      assert s == s[..|s| - |suffixes[0]|] + suffixes[0];
      s[..|s| - |suffixes[0]|]
    else
      var r := StripFirstSuffix(s, suffixes[1..]);
      assert forall k :: 1 <= k < |suffixes| ==> suffixes[k] == suffixes[1..][k - 1];
      r
  }

  /**
   * `s.replace(/\.(HK|T|PA|AS|SI)$/i, '')` on an upper-cased string: a string
   * ends with at most one of the suffixes, so the table order does not matter.
   */
  function StripExchangeSuffix(s: string): string { StripFirstSuffix(s, ExchangeSuffixes) }

  /** A Hong Kong suffix is the one removed. */
  lemma StripHongKong(base: string)
    ensures StripExchangeSuffix(base + ".HK") == base
  {
    var s := base + ".HK";
    EndsWithIff(s, ".HK");
    assert s[|s| - 3..] == ".HK";
    assert s[..|s| - 3] == base;
  }

  /** `origU.includes(...)` after the map misses. */
  const SuffixRules: seq<Rule> := [
    Rule([".HK"], "HKEX"), Rule([".T"], "TSE"), Rule([".PA"], "EURONEXT"), Rule([".AS"], "EURONEXT"), Rule([".SI"], "SGX")
  ]

  /** `m.includes(...)` after the suffixes miss; `NASDAQ` is also the default. */
  const MarketRules: seq<Rule> := [
    Rule(["HKEX", "HK"], "HKEX"),
    Rule(["TSE", "TOKYO", "JAPAN"], "TSE"),
    Rule(["EURONEXT", "PARIS", "AMSTERDAM"], "EURONEXT"),
    Rule(["CPH", "OMX", "COPENHAGEN"], "OMXCOP"),
    Rule(["XETRA", "FRA"], "XETR"),
    Rule(["SGX", "SINGAPORE"], "SGX"),
    Rule(["HOSE", "VN", "VIETNAM"], "HOSE"),
    Rule(["NYSE"], "NYSE"),
    Rule(["NASDAQ"], "NASDAQ")
  ]

  /** `symbolMap[u]` is truthy. */
  predicate Mapped(table: map<string, string>, u: string) { u in table && table[u] != "" }

  /** The exchange once the table misses: a suffix anywhere in the underlying first, then the venue tokens. */
  function Exchange(origU: string, market: string): string
  {
    match FirstIndex(origU, SuffixRules, Includes)
    case Some(i) => SuffixRules[i].outcome
    case None => FirstOutcome(ToUpper(market), MarketRules, Includes, "NASDAQ")
  }

  /** A suffix in the underlying decides the exchange before the market field is read. */
  lemma ExchangeSuffixWins(origU: string, m1: string, m2: string, i: nat)
    requires i < |SuffixRules| && Contains(origU, SuffixRules[i].needles[0])
    requires forall j :: 0 <= j < i ==> !Contains(origU, SuffixRules[j].needles[0])
    ensures Exchange(origU, m1) == Exchange(origU, m2) == SuffixRules[i].outcome
  {
    assert RuleMatches(origU, SuffixRules[i], Includes) by {
      assert NeedleMatches(origU, SuffixRules[i].needles[0], Includes);
    }
    forall j | 0 <= j < i ensures !RuleMatches(origU, SuffixRules[j], Includes) {
      assert |SuffixRules[j].needles| == 1;
    }
    assert FirstIndex(origU, SuffixRules, Includes) == Some(i);
  }

  /** With no suffix and no venue token the exchange is NASDAQ. */
  lemma ExchangeDefault(origU: string, market: string)
    requires forall j :: 0 <= j < |SuffixRules| ==> !RuleMatches(origU, SuffixRules[j], Includes)
    requires forall j :: 0 <= j < |MarketRules| ==> !RuleMatches(ToUpper(market), MarketRules[j], Includes)
    ensures Exchange(origU, market) == "NASDAQ"
  {
    FirstOutcomeDefault(ToUpper(market), MarketRules, Includes, "NASDAQ");
  }

  /** `getTVSymbol` over a given symbol table. */
  function TVSymbolWith(table: map<string, string>, underlying: string, market: string): (r: string)
    ensures underlying == "" ==> r == "NASDAQ:AAPL"
    ensures underlying != "" && Mapped(table, StripExchangeSuffix(ToUpper(underlying))) ==>
      r == table[StripExchangeSuffix(ToUpper(underlying))]
    ensures underlying != "" && !Mapped(table, StripExchangeSuffix(ToUpper(underlying))) ==>
      EndsWith(r, ":" + StripExchangeSuffix(ToUpper(underlying)))
  {
    if underlying == "" then "NASDAQ:AAPL"
    else
      var origU := ToUpper(underlying);
      var u := StripExchangeSuffix(origU);
      if Mapped(table, u) then table[u]
      else
        var exchange := Exchange(origU, market);
        EndsWithIff(exchange + ":" + u, ":" + u);
        assert (exchange + ":" + u)[|exchange|..] == ":" + u;
        exchange + ":" + u
  }

  /** A suffix in the underlying outside the table fixes the symbol whatever the market field says. */
  lemma TVSymbolSuffixWins(table: map<string, string>, underlying: string, m1: string, m2: string, i: nat)
    requires underlying != "" && !Mapped(table, StripExchangeSuffix(ToUpper(underlying)))
    requires i < |SuffixRules| && Contains(ToUpper(underlying), SuffixRules[i].needles[0])
    requires forall j :: 0 <= j < i ==> !Contains(ToUpper(underlying), SuffixRules[j].needles[0])
    ensures TVSymbolWith(table, underlying, m1) == TVSymbolWith(table, underlying, m2)
      == SuffixRules[i].outcome + ":" + StripExchangeSuffix(ToUpper(underlying))
  {
    ExchangeSuffixWins(ToUpper(underlying), m1, m2, i);
  }

  /** An underlying ending in `.HK` is on HKEX. */
  lemma HongKongExchange(base: string, market: string)
    ensures Exchange(base + ".HK", market) == "HKEX"
  {
    var origU := base + ".HK";
    ContainsIff(origU, ".HK");
    assert origU[|base|..|base| + 3] == ".HK";
    assert WindowAt(origU, ".HK", |base|);
    ExchangeSuffixWins(origU, market, market, 0);
  }

  /** `0700.HK` style underlyings outside the table go to HKEX without the suffix. */
  lemma TVSymbolHongKong(table: map<string, string>, base: string, underlying: string, market: string)
    requires ToUpper(underlying) == base + ".HK" && !Mapped(table, base)
    ensures TVSymbolWith(table, underlying, market) == "HKEX:" + base
  {
    StripHongKong(base);
    HongKongExchange(base, market);
    assert underlying != [] by { assert |ToUpper(underlying)| == |base + ".HK"| > 0; }
  }

  /** With no table entry, no suffix and no venue token, the default is NASDAQ. */
  lemma TVSymbolDefault(table: map<string, string>, underlying: string, market: string)
    requires underlying != "" && !Mapped(table, StripExchangeSuffix(ToUpper(underlying)))
    requires forall j :: 0 <= j < |SuffixRules| ==> !RuleMatches(ToUpper(underlying), SuffixRules[j], Includes)
    requires forall j :: 0 <= j < |MarketRules| ==> !RuleMatches(ToUpper(market), MarketRules[j], Includes)
    ensures TVSymbolWith(table, underlying, market) == "NASDAQ:" + StripExchangeSuffix(ToUpper(underlying))
  {
    ExchangeDefault(ToUpper(underlying), market);
  }

  /** The client's symbol table. */
  const SymbolMap: map<string, string> := map[
    "AAPL" := "NASDAQ:AAPL", "MSFT" := "NASDAQ:MSFT", "GOOGL" := "NASDAQ:GOOGL", "GOOG" := "NASDAQ:GOOG",
    "META" := "NASDAQ:META", "AMZN" := "NASDAQ:AMZN", "NVDA" := "NASDAQ:NVDA", "TSLA" := "NASDAQ:TSLA",
    "NFLX" := "NASDAQ:NFLX", "AMD" := "NASDAQ:AMD", "INTC" := "NASDAQ:INTC", "COIN" := "NASDAQ:COIN",
    "PYPL" := "NASDAQ:PYPL", "ADBE" := "NASDAQ:ADBE", "PEP" := "NASDAQ:PEP", "SBUX" := "NASDAQ:SBUX",
    "COST" := "NASDAQ:COST", "QQQ" := "NASDAQ:QQQ", "AVGO" := "NASDAQ:AVGO", "JD" := "NASDAQ:JD",
    "PDD" := "NASDAQ:PDD", "BIDU" := "NASDAQ:BIDU", "LI" := "NASDAQ:LI", "GRAB" := "NASDAQ:GRAB",
    "PLTR" := "NYSE:PLTR", "UBER" := "NYSE:UBER", "CRM" := "NYSE:CRM", "ORCL" := "NYSE:ORCL",
    "DIS" := "NYSE:DIS", "V" := "NYSE:V", "MA" := "NYSE:MA", "JPM" := "NYSE:JPM", "BAC" := "NYSE:BAC",
    "WMT" := "NYSE:WMT", "JNJ" := "NYSE:JNJ", "PG" := "NYSE:PG", "KO" := "NYSE:KO", "MCD" := "NYSE:MCD",
    "NKE" := "NYSE:NKE", "NIO" := "NYSE:NIO", "XPEV" := "NYSE:XPEV", "SHOP" := "NYSE:SHOP",
    "SQ" := "NYSE:SQ", "BABA" := "NYSE:BABA", "ONON" := "NYSE:ONON", "SPY" := "AMEX:SPY",
    "0700" := "HKEX:700", "700" := "HKEX:700", "TENCENT" := "HKEX:700", "1211" := "HKEX:1211",
    "BYDCOM" := "HKEX:1211", "BYD" := "HKEX:1211", "1810" := "HKEX:1810", "XIAOMI" := "HKEX:1810",
    "3690" := "HKEX:3690", "MEITUAN" := "HKEX:3690", "9988" := "HKEX:9988", "2318" := "HKEX:2318",
    "939" := "HKEX:939", "1299" := "HKEX:1299", "3086" := "HKEX:3086", "3188" := "HKEX:3188",
    "2800" := "HKEX:2800", "3032" := "HKEX:3032", "6690" := "HKEX:6690", "HAIERS" := "HKEX:6690",
    "HAIER" := "HKEX:6690", "2020" := "HKEX:2020", "ANTA" := "HKEX:2020", "3347" := "HKEX:3347",
    "CNSEMI" := "HKEX:3347", "1157" := "HKEX:1157", "CNROBA" := "HKEX:1157", "992" := "HKEX:992",
    "LENOVO" := "HKEX:992", "7203" := "TSE:7203", "TOYOTA" := "TSE:7203", "6758" := "TSE:6758",
    "SONY" := "TSE:6758", "7974" := "TSE:7974", "NINTENDO" := "TSE:7974", "7267" := "TSE:7267",
    "HONDA" := "TSE:7267", "6861" := "TSE:6861", "KEYENCE" := "TSE:6861", "6857" := "TSE:6857",
    "ADVANT" := "TSE:6857", "ADVANTEST" := "TSE:6857", "MC" := "EURONEXT:MC", "LVMH" := "EURONEXT:MC",
    "RMS" := "EURONEXT:RMS", "HERMES" := "EURONEXT:RMS", "ASML" := "EURONEXT:ASML",
    "NOVOB" := "OMXCOP:NOVO_B", "NOVO" := "OMXCOP:NOVO_B", "NVO" := "OMXCOP:NOVO_B", "D05" := "SGX:D05",
    "DBS" := "SGX:D05", "U11" := "SGX:U11", "UOB" := "SGX:U11", "E1VFVN30" := "HOSE:E1VFVN30",
    "FUEVFVND" := "HOSE:FUEVFVND", "GOLD19" := "HKEX:2840"  ]

  /** `getTVSymbol` of the mini chart. */
  function TVSymbol(underlying: string, market: string): string { TVSymbolWith(SymbolMap, underlying, market) }

  // ----- screener --------------------------------------------------------------

  /** The screener form: numeric bounds as typed (`""` is unset), `"All"` for no choice. */
  datatype ScreenerCriteria = ScreenerCriteria(
    minMarketCap: string, maxMarketCap: string,
    minPE: string, maxPE: string,
    minDividend: string, hasDividend: bool, nightTrading: bool,
    country: string, sector: string, broker: string)

  /** The form after `resetCriteria`. */
  const ResetCriteria := ScreenerCriteria("", "", "", "", "", false, false, "All", "All", "All")

  /** `bound && value < parseFloat(bound)`: an unparsable bound compares false against everything. */
  predicate Below(value: real, bound: string) { bound != "" && ParseFloat(bound).Some? && value < ParseFloat(bound).value }

  /** `bound && value > parseFloat(bound)`. */
  predicate Above(value: real, bound: string) { bound != "" && ParseFloat(bound).Some? && value > ParseFloat(bound).value }

  /** The screener's filter callback: a missing market cap, P/E or dividend reads as 0. */
  predicate ScreenerPasses(c: ScreenerCriteria, r: Record)
  {
    && !Below(MarketCapOf(r), c.minMarketCap)
    && !Above(MarketCapOf(r), c.maxMarketCap)
    && !Below(r.pe.GetOr(0.0), c.minPE)
    && !Above(r.pe.GetOr(0.0), c.maxPE)
    && !Below(r.dividend.GetOr(0.0), c.minDividend)
    && (c.hasDividend ==> r.dividend.GetOr(0.0) > 0.0)
    && (c.nightTrading ==> Routes.NightListed(r))
    && (c.country != "All" ==> r.country == c.country)
    && (c.sector != "All" ==> r.sector == c.sector)
    && (c.broker != "All" ==> r.issuerCode == Some(c.broker))
  }

  /** `drList.filter(...)` of the screener page: the passing DRs in list order. */
  function ScreenerResults(data: seq<Record>, c: ScreenerCriteria): (r: seq<Record>)
    ensures forall x :: x in r <==> x in data && ScreenerPasses(c, x)
    ensures multiset(r) <= multiset(data)
  {
    Filter(data, (x: Record) => ScreenerPasses(c, x))
  }

  /** A filter that keeps everything is the identity. */
  lemma {:induction false} FilterKeepsAll<T(!new)>(s: seq<T>, p: T -> bool)
    requires forall x :: x in s ==> p(x)
    ensures Filter(s, p) == s
  {
    if s != [] {
      var front, last := s[..|s| - 1], s[|s| - 1];
      assert s == front + [last];
      assert forall x :: x in front ==> x in s;
      FilterKeepsAll(front, p);
      assert p(last);
    }
  }

  /** The reset form shows the whole list. */
  lemma ScreenerResetShowsAll(data: seq<Record>)
    ensures ScreenerResults(data, ResetCriteria) == data
  {
    FilterKeepsAll(data, (x: Record) => ScreenerPasses(ResetCriteria, x));
  }

  /** A bound that does not parse as a number filters nothing. */
  lemma ScreenerUnparsableBound(c: ScreenerCriteria, r: Record, bound: string)
    requires ParseFloat(bound).None?
    ensures ScreenerPasses(c.(minMarketCap := bound), r) == ScreenerPasses(c.(minMarketCap := ""), r)
    ensures ScreenerPasses(c.(maxMarketCap := bound), r) == ScreenerPasses(c.(maxMarketCap := ""), r)
    ensures ScreenerPasses(c.(minPE := bound), r) == ScreenerPasses(c.(minPE := ""), r)
    ensures ScreenerPasses(c.(maxPE := bound), r) == ScreenerPasses(c.(maxPE := ""), r)
    ensures ScreenerPasses(c.(minDividend := bound), r) == ScreenerPasses(c.(minDividend := ""), r)
  {
  }

  /** `c2` asks no more than `c1`: each of its criteria is unset or the same as in `c1`. */
  predicate Looser(c1: ScreenerCriteria, c2: ScreenerCriteria)
  {
    && (c2.minMarketCap == "" || c2.minMarketCap == c1.minMarketCap)
    && (c2.maxMarketCap == "" || c2.maxMarketCap == c1.maxMarketCap)
    && (c2.minPE == "" || c2.minPE == c1.minPE)
    && (c2.maxPE == "" || c2.maxPE == c1.maxPE)
    && (c2.minDividend == "" || c2.minDividend == c1.minDividend)
    && (c2.hasDividend ==> c1.hasDividend)
    && (c2.nightTrading ==> c1.nightTrading)
    && (c2.country == "All" || c2.country == c1.country)
    && (c2.sector == "All" || c2.sector == c1.sector)
    && (c2.broker == "All" || c2.broker == c1.broker)
  }

  /** Clearing criteria never hides a DR the stricter form showed. */
  lemma ScreenerLoosening(data: seq<Record>, c1: ScreenerCriteria, c2: ScreenerCriteria)
    requires Looser(c1, c2)
    ensures forall x :: x in ScreenerResults(data, c1) ==> x in ScreenerResults(data, c2)
  {
  }

  /**
   * The client and the server screen missing P/E values differently: under a
   * non-negative P/E ceiling the client reads a missing P/E as 0 and keeps the
   * DR, while `POST /filter` drops it.
   */
  lemma ScreenerMissingPE(r: Record, bound: string)
    requires r.pe.None? && ParseFloat(bound).Some? && ParseFloat(bound).value > 0.0
    requires ScreenerPasses(ResetCriteria, r)
    ensures ScreenerPasses(ResetCriteria.(maxPE := bound), r)
    ensures !Routes.Passes(Routes.Criteria("", "", 0.0, 0.0, 0.0, ParseFloat(bound).value, 0.0, false, false), r)
  {
  }

  // ----- getRelatedDRs ---------------------------------------------------------

  /** The cleaned form of an underlying or a stock symbol: upper case without an exchange suffix. */
  function CleanSymbol(s: string): string { StripExchangeSuffix(ToUpper(s)) }

  /** The fuzzy match of `getRelatedDRs`. */
  predicate FuzzyRelated(clean: string, r: Record)
  {
    || Contains(CleanSymbol(r.underlying), clean)
    || CleanSymbol(r.underlying) == clean
    || StripTrailingDigits(ToUpper(r.symbol)) == clean
  }

  /** The manual table names at least one DR of the list. */
  predicate ManualHit(manual: map<string, seq<string>>, data: seq<Record>, stockSymbol: string)
  {
    stockSymbol in manual && exists x :: x in data && x.symbol in manual[stockSymbol]
  }

  /** `getRelatedDRs` over a given manual table: the table's DRs when it finds any, the fuzzy match otherwise. */
  function RelatedWith(manual: map<string, seq<string>>, data: seq<Record>, stockSymbol: string): (r: seq<Record>)
    ensures multiset(r) <= multiset(data)
    ensures ManualHit(manual, data, stockSymbol) ==>
      forall x :: x in r <==> x in data && x.symbol in manual[stockSymbol]
    ensures !ManualHit(manual, data, stockSymbol) ==>
      forall x :: x in r <==> x in data && FuzzyRelated(CleanSymbol(stockSymbol), x)
  {
    var mapped := if stockSymbol in manual then Filter(data, (x: Record) => x.symbol in manual[stockSymbol]) else [];
    if mapped != [] then
      assert mapped[0] in mapped;
      mapped
    else
      var clean := CleanSymbol(stockSymbol);
      Filter(data, (x: Record) => FuzzyRelated(clean, x))
  }

  /** The equality test on the underlying is subsumed by the containment test before it. */
  lemma FuzzyRelatedIff(clean: string, r: Record)
    ensures FuzzyRelated(clean, r) <==>
      Contains(CleanSymbol(r.underlying), clean) || StripTrailingDigits(ToUpper(r.symbol)) == clean
  {
    Routes.ContainsSelf(clean);
  }

  /** Appending digits to a string that does not end in one: stripping them gives the string back. */
  lemma {:induction false} StripDigitsAppended(a: string, d: string)
    requires forall k :: 0 <= k < |d| ==> IsDigit(d[k])
    requires a == [] || !IsDigit(a[|a| - 1])
    ensures TrailingDigitCount(a + d) == |d|
    ensures StripTrailingDigits(a + d) == a
  {
    if d == [] {
      assert a + d == a;
    } else {
      var d' := d[..|d| - 1];
      StripDigitsAppended(a, d');
      assert (a + d)[..|a + d| - 1] == a + d';
    }
  }

  /** A DR whose symbol is the cleaned stock symbol plus digits (`TENCENT80`) is related when no table entry applies. */
  lemma RelatedBySymbolRoot(manual: map<string, seq<string>>, data: seq<Record>, stockSymbol: string, x: Record, d: string)
    requires !ManualHit(manual, data, stockSymbol) && x in data
    requires ToUpper(x.symbol) == CleanSymbol(stockSymbol) + d
    requires forall k :: 0 <= k < |d| ==> IsDigit(d[k])
    requires CleanSymbol(stockSymbol) == [] || !IsDigit(CleanSymbol(stockSymbol)[|CleanSymbol(stockSymbol)| - 1])
    ensures x in RelatedWith(manual, data, stockSymbol)
  {
    StripDigitsAppended(CleanSymbol(stockSymbol), d);
  }

  /** The related-DR table of the underlying-stocks page. */
  const ManualMap: map<string, seq<string>> := map[
    "0700" := ["TENCENT80"], "1211" := ["BYDCOM80"], "1810" := ["XIAOMI80"], "9618" := ["JD80"],
    "9988" := ["BABA80"], "3690" := ["MEITUAN80"], "2318" := ["PINGAN80"], "1299" := ["AIA80"],
    "7974" := ["NINTENDO19"], "7203" := ["TOYOTA19"], "6758" := ["SONY19"], "6861" := ["KEYENCE19"],
    "7267" := ["HONDA19"], "9983" := ["FASTRET19"], "9984" := ["SFTBANK19"], "8035" := ["TEL19"],
    "4063" := ["SHINET19"], "6146" := ["DISCO19"], "6920" := ["ASR19"], "6501" := ["HITACHI19"],
    "6902" := ["DENSO19"], "7741" := ["HOYA19"], "6098" := ["RECRUIT19"], "6367" := ["DAIKIN19"],
    "4543" := ["TERUMO19"], "8031" := ["MITSUI19"], "8058" := ["MITSUB19"], "8001" := ["ITOCHU19"],
    "MC" := ["LVMH01"], "RMS" := ["HERMES80"], "ASML" := ["ASML01"], "KER" := ["KERING01"],
    "OR" := ["LOREAL01"], "SAP" := ["SAP01"], "LIN" := ["LINDE01"], "AIR" := ["AIRBUS01"],
    "SIE" := ["SIEMENS01"], "DTE" := ["DTE01"], "ALV" := ["ALLIANZ01"], "BMW" := ["BMW01"],
    "MBG" := ["MERCEDES01"], "VOW" := ["VW01"], "ADS" := ["ADIDAS01"], "NOVOB" := ["NOVO80"],
    "E1VFVN30" := ["E1VFVN3001"], "FUEVFVND" := ["FUEVFVND01"], "D05" := ["DBS19"], "U11" := ["UOB19"],
    "TSLA" := ["TSLA80"], "AAPL" := ["AAPL80"], "NVDA" := ["NVDA80"], "GOOGL" := ["GOOGL80", "GOOGL01"],
    "MSFT" := ["MSFT80"], "AMZN" := ["AMZN80"], "META" := ["META80"], "NFLX" := ["NFLX80"],
    "SBUX" := ["SBUX80"], "BA" := ["BA80"], "DIS" := ["DIS80"], "JNJ" := ["JNJ80"], "KO" := ["KO80"],
    "PEP" := ["PEP80"], "PG" := ["PG80"], "WMT" := ["WMT80"], "XOM" := ["XOM80"], "CVX" := ["CVX80"],
    "BAC" := ["BAC80"], "JPM" := ["JPM80"], "V" := ["V80"], "MA" := ["MA80"], "CRM" := ["CRM80"],
    "ADBE" := ["ADBE80"], "ORCL" := ["ORCL80", "ORCL01"], "AMD" := ["AMD80"], "INTC" := ["INTC80"],
    "QCOM" := ["QCOM80"], "TXN" := ["TXN80"], "AVGO" := ["AVGO80"], "COST" := ["COST80"],
    "TMUS" := ["TMUS80"], "CMCSA" := ["CMCSA80"], "CSCO" := ["CSCO80"], "AMGN" := ["AMGN80"],
    "HON" := ["HON80"], "UNH" := ["UNH80"], "MCD" := ["MCD80"], "NKE" := ["NKE80"], "PM" := ["PM80"],
    "LOW" := ["LOW80"], "UPS" := ["UPS80"], "RTX" := ["RTX80"], "LMT" := ["LMT80"], "CAT" := ["CAT80"],
    "DE" := ["DE80"], "GE" := ["GE80"], "MMM" := ["MMM80"], "IBM" := ["IBM80"], "T" := ["T80"],
    "VZ" := ["VZ80"], "COIN" := ["COIN80"], "PDD" := ["PDD80"], "NIO" := ["NIO80"], "XPEV" := ["XPEV80"],
    "LI" := ["LI80"], "GRAB" := ["GRAB80"], "SHOP" := ["SHOP80"], "SQ" := ["SQ80"], "PYPL" := ["PYPL80"],
    "PLTR" := ["PLTR80"], "UBER" := ["UBER80"], "JD" := ["JD80"], "BABA" := ["BABA80"],
    "TSM" := ["TSM80", "TSMC80"], "2330" := ["TSM80", "TSMC80"], "FOXCONN" := ["FOXCONN80"],
    "CSI300" := ["CSI300"]  ]

  /** `getRelatedDRs` of the underlying-stocks page. */
  function RelatedDRs(data: seq<Record>, stockSymbol: string): seq<Record> { RelatedWith(ManualMap, data, stockSymbol) }

  // ----- home page rankings ----------------------------------------------------

  /** The number of DRs each home list shows when it falls back to the DR list. */
  const HomeTop := 5

  /** A server list when it is non-empty, else the top five of a sorted copy of the DR list. */
  function HomeList(server: Option<seq<Record>>, drList: seq<Record>, key: Record -> real, ascending: bool): (r: seq<Record>)
    ensures server.Some? && |server.value| > 0 ==> r == server.value
  {
    if server.Some? && |server.value| > 0 then server.value else TopN(drList, ByKey(key, ascending), HomeTop)
  }

  /** `rankings?.topGainers` etc. with `null` rankings read as absent. */
  function HomeGainers(rankings: Option<Rankings>, drList: seq<Record>): seq<Record>
  {
    HomeList(if rankings.Some? then Some(rankings.value.topGainers) else None, drList, ChangePercentOf, false)
  }

  function HomeMostActive(rankings: Option<Rankings>, drList: seq<Record>): seq<Record>
  {
    HomeList(if rankings.Some? then Some(rankings.value.mostActiveValue) else None, drList, ValueOf, false)
  }

  function HomeLosers(rankings: Option<Rankings>, drList: seq<Record>): seq<Record>
  {
    HomeList(if rankings.Some? then Some(rankings.value.topLosers) else None, drList, ChangePercentOf, true)
  }

  /** The fallback has the ranking shape: five at most, drawn from the list, ordered, beating the rest. */
  lemma HomeFallbackRanked(drList: seq<Record>, key: Record -> real, ascending: bool)
    ensures RankedBy(HomeList(None, drList, key, ascending), drList, key, ascending, HomeTop)
  {
    TopByKey(drList, key, ascending, HomeTop);
  }

  /** Taking a prefix of a prefix. */
  lemma SlicePrefixTwice<T>(xs: seq<T>, m: nat, n: nat)
    requires n <= m
    ensures SlicePrefix(SlicePrefix(xs, m), n) == SlicePrefix(xs, n)
  {
  }

  /**
   * Without server rankings each home list is the first five of what the
   * server's own `calculateRankings` would return for the same DR list.
   */
  lemma HomeFallbackMatchesServer(drList: seq<Record>)
    ensures HomeGainers(None, drList) == SlicePrefix(ComputeRankings(drList).topGainers, HomeTop)
    ensures HomeLosers(None, drList) == SlicePrefix(ComputeRankings(drList).topLosers, HomeTop)
    ensures HomeMostActive(None, drList) == SlicePrefix(ComputeRankings(drList).mostActiveValue, HomeTop)
  {
    SlicePrefixTwice(SortBy(drList, ByKey(ChangePercentOf, false)), 10, HomeTop);
    SlicePrefixTwice(SortBy(drList, ByKey(ChangePercentOf, true)), 10, HomeTop);
    SlicePrefixTwice(SortBy(drList, ByKey(ValueOf, false)), 10, HomeTop);
  }

  // ----- compare selections ------------------------------------------------------

  /** At most four DRs can be compared. */
  const MaxCompare := 4

  /** No symbol occurs twice. */
  predicate NoRepeats(s: seq<string>) { forall x | x in s :: multiset(s)[x] <= 1 }

  /** What both compare selections keep: distinct symbols, at most four. */
  predicate ValidSelection(s: seq<string>) { |s| <= MaxCompare && NoRepeats(s) }

  /** `s.filter(y => y !== x)`. */
  function Without(s: seq<string>, x: string): (r: seq<string>)
    ensures forall y :: y in r <==> y in s && y != x
    ensures multiset(r) <= multiset(s)
  {
    Filter(s, (y: string) => y != x)
  }

  /** `handleCompareToggle`: a present symbol leaves, an absent one joins when there is room. */
  function Toggled(s: seq<string>, x: string): (r: seq<string>)
    ensures x in s ==> x !in r
    ensures x !in s ==> (x in r <==> |s| < MaxCompare)
    ensures forall y :: y != x ==> (y in r <==> y in s)
  {
    if x in s then Without(s, x) else if |s| >= MaxCompare then s else s + [x]
  }

  /** `handleAdd` of the compare page: a no-op when full or already present, else an append. */
  function Added(s: seq<string>, x: string): (r: seq<string>)
    ensures |s| >= MaxCompare || x in s ==> r == s
    ensures x in r <==> x in s || |s| < MaxCompare
    ensures forall y :: y != x ==> (y in r <==> y in s)
  {
    if |s| >= MaxCompare || x in s then s else s + [x]
  }

  /** Adding a new symbol is toggling it. */
  lemma AddedIsToggled(s: seq<string>, x: string)
    requires x !in s
    ensures Added(s, x) == Toggled(s, x)
  {
  }

  /** Toggling an absent symbol twice restores the selection. */
  lemma ToggleTwice(s: seq<string>, x: string)
    requires x !in s
    ensures Toggled(Toggled(s, x), x) == s
  {
    if |s| < MaxCompare {
      FilterAppendOne(s, x);
    }
  }

  /** Removing a symbol that was just appended, when it was not there before. */
  lemma FilterAppendOne(s: seq<string>, x: string)
    requires x !in s
    ensures Without(s + [x], x) == s
  {
    FilterAppend(s, [x], (y: string) => y != x);
    FilterKeepsAll(s, (y: string) => y != x);
    assert Filter([x], (y: string) => y != x) == [];
  }

  /** All three updates keep a valid selection valid. */
  lemma SelectionStaysValid(s: seq<string>, x: string)
    requires ValidSelection(s)
    ensures ValidSelection(Toggled(s, x))
    ensures ValidSelection(Added(s, x))
    ensures ValidSelection(Without(s, x))
  {
    var w := Without(s, x);
    assert forall y :: multiset(w)[y] <= multiset(s)[y];
    if x !in s {
      assert forall y :: multiset(s + [x])[y] == multiset(s)[y] + (if y == x then 1 else 0);
    }
  }

  /** A compare selection: the catalog's `compareList` or the compare page's `selectedSymbols`. */
  class Selection {
    var symbols: seq<string>

    ghost predicate Valid()
      reads this
    {
      ValidSelection(symbols)
    }

    /**
     * The compare page starts from the catalog's list, which the catalog's
     * toggle keeps valid from its empty start.
     */
    constructor (initial: seq<string>)
      ensures symbols == initial
      ensures ValidSelection(initial) ==> Valid()
    {
      symbols := initial;
    }

    method Toggle(x: string)
      requires Valid()
      modifies this
      ensures symbols == Toggled(old(symbols), x)
      ensures Valid()
    {
      SelectionStaysValid(symbols, x);
      symbols := Toggled(symbols, x);
    }

    method Add(x: string)
      requires Valid()
      modifies this
      ensures symbols == Added(old(symbols), x)
      ensures Valid()
    {
      SelectionStaysValid(symbols, x);
      symbols := Added(symbols, x);
    }

    method Remove(x: string)
      requires Valid()
      modifies this
      ensures symbols == Without(old(symbols), x)
      ensures x !in symbols
      ensures Valid()
    {
      SelectionStaysValid(symbols, x);
      symbols := Without(symbols, x);
    }
  }
}
