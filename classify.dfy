/**
 * The scrape service's classifiers: country, trading hours, sector and the
 * issuer code and name of a depositary receipt. Each is a cascade of string
 * tests over a fixed table that always ends in a value from a fixed set.
 */
module Classify {
  import opened Wrappers
  import opened Text
  import opened Cascade

  // ----- country -------------------------------------------------------------

  /** The nine codes of the service's country table. */
  const CountryCodes: seq<string> := ["US", "CN", "HK", "JP", "SG", "VN", "EU", "TW", "KR"]

  /** Venue tokens looked for in the upper-cased market name, in order. */
  const VenueRules: seq<Rule> := [
    Rule(["NASDAQ", "NYSE", "US"], "US"),
    Rule(["HKEX", "HK"], "HK"),
    Rule(["SSE", "SZSE", "SHANGHAI", "SHENZHEN"], "CN"),
    Rule(["TSE", "TOKYO", "JP"], "JP"),
    Rule(["SGX", "SINGAPORE"], "SG"),
    Rule(["HOSE", "HNX", "VN"], "VN"),
    Rule(["EURONEXT", "LSE", "XETRA", "CPH", "OMX", "XLON", "COPENHAGEN", "PARIS", "AMSTERDAM"], "EU"),
    Rule(["TWSE", "TPEx"], "TW"),
    Rule(["KRX", "KOSPI"], "KR")
  ]

  /** Ticker prefixes of the upper-cased underlying, tried when no venue token matched. */
  const UnderlyingRules: seq<Rule> := [
    Rule(["AAPL", "MSFT", "GOOGL", "META", "AMZN", "NVDA", "TSLA", "NFLX", "AMD", "INTC"], "US"),
    Rule(["BABA", "JD", "PDD", "BIDU", "NIO"], "CN"),
    Rule(["TENCENT", "XIAOMI", "MEITUAN", "BYD"], "HK"),
    Rule(["TOYOTA", "SONY", "NINTENDO", "HONDA"], "JP"),
    Rule(["NOVOB", "NOVO", "NVO", "ASML", "MC", "RMS", "LVMH", "HERMES"], "EU")
  ]

  /** DR-symbol prefixes that mark a European underlying (e.g. NOVOB80, ASML01). */
  const SymbolRules: seq<Rule> := [Rule(["NOVOB", "ASML", "LVMH", "HERMES"], "EU")]

  /**
   * `detectCountry`: venue tokens first, then underlying prefixes, then the
   * DR symbol, and `US` by default. A missing argument is the empty string.
   */
  function DetectCountry(market: string, underlying: string, symbol: string): (r: string)
    ensures r in CountryCodes
  {
    var m := ToUpper(market);
    var u := ToUpper(underlying);
    match FirstIndex(m, VenueRules, Includes)
    case Some(i) => VenueRules[i].outcome
    case None =>
      match FirstIndex(u, UnderlyingRules, Prefix)
      case Some(i) => UnderlyingRules[i].outcome
      case None => FirstOutcome(ToUpper(symbol), SymbolRules, Prefix, "US")
  }

  /** A venue token in the market decides the country whatever the underlying and symbol say. */
  lemma VenueWins(market: string, u1: string, s1: string, u2: string, s2: string)
    requires FirstIndex(ToUpper(market), VenueRules, Includes).Some?
    ensures DetectCountry(market, u1, s1) == DetectCountry(market, u2, s2)
    ensures DetectCountry(market, u1, s1) == VenueRules[FirstIndex(ToUpper(market), VenueRules, Includes).value].outcome
  {
  }

  /** With no venue token and no known prefix anywhere, the country is `US`. */
  lemma DetectCountryDefault(market: string, underlying: string, symbol: string)
    requires forall j :: 0 <= j < |VenueRules| ==> !RuleMatches(ToUpper(market), VenueRules[j], Includes)
    requires forall j :: 0 <= j < |UnderlyingRules| ==> !RuleMatches(ToUpper(underlying), UnderlyingRules[j], Prefix)
    requires !RuleMatches(ToUpper(symbol), SymbolRules[0], Prefix)
    ensures DetectCountry(market, underlying, symbol) == "US"
  {
    FirstOutcomeDefault(ToUpper(symbol), SymbolRules, Prefix, "US");
  }

  /** The market is upper-cased before the test, so the mixed-case `TPEx` token can never match. */
  lemma TPExNeverMatches(market: string)
    ensures !NeedleMatches(ToUpper(market), "TPEx", Includes)
  {
    UpperNeverContainsLower(market, "TPEx", 3);
  }

  // ----- trading hours --------------------------------------------------------

  /** The session object `detectTradingHours` returns; `nightSession` is `null` for `None`. */
  datatype TradingSession = TradingSession(session: string, daySession: string, nightSession: Option<string>, hasNightTrading: bool)

  const NightMarkets: seq<string> := ["NASDAQ", "NYSE", "US", "EURONEXT", "LSE", "XETRA", "PARIS", "AMSTERDAM"]

  const NightCountries: seq<string> := ["US", "EU"]

  /** Underlying prefixes taken to trade on US exchanges (an anchored but unterminated regex). */
  const UsStockPatterns: seq<string> := [
    "AAPL", "MSFT", "GOOGL", "GOOG", "META", "AMZN", "NVDA", "TSLA", "NFLX", "AMD", "INTC", "COIN", "PLTR", "UBER",
    "SHOP", "SQ", "PYPL", "CRM", "ORCL", "ADBE", "DIS", "V", "MA", "JPM", "BAC", "WMT", "PG", "JNJ", "UNH", "HD", "KO",
    "PEP", "MCD", "NKE", "SBUX", "COST", "TGT", "CVS", "WBA", "XOM", "CVX", "COP", "MRK", "PFE", "ABBV", "LLY", "TMO",
    "ABT", "BMY", "GILD"
  ]

  const DayAndNight := "กลางวัน+กลางคืน"
  const DayOnly := "กลางวันเท่านั้น"
  const DayHours := "10:00-16:30"
  const NightHours := "19:00-03:00"

  /** The two shapes `detectTradingHours` can return. */
  const NightSession := TradingSession(DayAndNight, DayHours, Some(NightHours), true)
  const DaySession := TradingSession(DayOnly, DayHours, None, false)

  /** `detectTradingHours`: night trading on a night venue, a US/EU country or a US ticker prefix. */
  function DetectTradingHours(market: string, country: string, underlying: string): (r: TradingSession)
    ensures r == NightSession || r == DaySession
    ensures r.daySession == DayHours
    ensures r.nightSession.None? <==> !r.hasNightTrading
  {
    var m := ToUpper(market);
    var u := ToUpper(underlying);
    var night := AnyNeedle(m, NightMarkets, Includes) || country in NightCountries || AnyNeedle(u, UsStockPatterns, Prefix);
    if night then NightSession else DaySession
  }

  /** Night trading holds exactly when one of the three conditions does. */
  lemma NightTradingIff(market: string, country: string, underlying: string)
    ensures DetectTradingHours(market, country, underlying).hasNightTrading <==>
      (exists k :: 0 <= k < |NightMarkets| && Contains(ToUpper(market), NightMarkets[k]))
      || country == "US" || country == "EU"
      || (exists k :: 0 <= k < |UsStockPatterns| && StartsWith(ToUpper(underlying), UsStockPatterns[k]))
  {
    var m := ToUpper(market);
    var u := ToUpper(underlying);
    if exists k :: 0 <= k < |NightMarkets| && Contains(m, NightMarkets[k]) {
      var k :| 0 <= k < |NightMarkets| && Contains(m, NightMarkets[k]);
      assert NeedleMatches(m, NightMarkets[k], Includes);
    }
    if exists k :: 0 <= k < |UsStockPatterns| && StartsWith(u, UsStockPatterns[k]) {
      var k :| 0 <= k < |UsStockPatterns| && StartsWith(u, UsStockPatterns[k]);
      assert NeedleMatches(u, UsStockPatterns[k], Prefix);
    }
  }

  /** The ticker test is a bare prefix, so any underlying starting with `V` or `MA` counts as a US stock. */
  lemma PrefixOverreach(market: string, country: string, underlying: string)
    requires StartsWith(ToUpper(underlying), "V") || StartsWith(ToUpper(underlying), "MA")
    ensures DetectTradingHours(market, country, underlying).hasNightTrading
  {
    var u := ToUpper(underlying);
    if StartsWith(u, "V") {
      assert NeedleMatches(u, UsStockPatterns[21], Prefix);
    } else {
      assert NeedleMatches(u, UsStockPatterns[22], Prefix);
    }
  }

  // ----- sector --------------------------------------------------------------

  const SectorRules: seq<Rule> := [
    Rule(["ETF", "INDEX", "FUND"], "ETF"),
    Rule(["BANK", "FINANCE", "INSURANCE", "CREDIT"], "Finance"),
    Rule(["TECH", "SOFTWARE", "SEMICONDUCTOR", "CHIP", "COMPUTER", "CLOUD", "AI"], "Technology"),
    Rule(["AUTO", "CAR", "MOTOR", "EV", "ELECTRIC VEHICLE"], "Auto"),
    Rule(["RETAIL", "ECOMMERCE", "CONSUMER", "SHOP", "AMAZON", "ALIBABA", "JD"], "Consumer"),
    Rule(["PHARMA", "HEALTH", "MEDICAL", "BIOTECH", "DRUG"], "Healthcare"),
    Rule(["LUXURY", "LVMH", "HERMES", "GUCCI", "FASHION"], "Luxury"),
    Rule(["GAME", "ENTERTAINMENT", "MEDIA", "NETFLIX", "DISNEY", "STREAM"], "Entertainment"),
    Rule(["OIL", "GAS", "ENERGY", "POWER", "SOLAR", "WIND"], "Energy"),
    Rule(["REAL ESTATE", "REIT", "PROPERTY"], "Real Estate"),
    Rule(["TELECOM", "COMMUNICATION", "5G"], "Telecom")
  ]

  const SectorNames: seq<string> := [
    "ETF", "Finance", "Technology", "Auto", "Consumer", "Healthcare", "Luxury", "Entertainment", "Energy",
    "Real Estate", "Telecom"
  ]

  /** The text the sector rules search: name and underlying, upper-cased. */
  function SectorText(name: string, underlying: string): string
  {
    ToUpper(name + " " + underlying)
  }

  /** `detectSector`: the first rule with a substring match, `Technology` by default. */
  function DetectSector(name: string, underlying: string): (r: string)
    ensures r in SectorNames
  {
    FirstOutcome(SectorText(name, underlying), SectorRules, Includes, "Technology")
  }

  /** A sector rule decides exactly when it matches and no earlier rule does. */
  lemma SectorFirstMatch(name: string, underlying: string, i: nat)
    requires i < |SectorRules| && RuleMatches(SectorText(name, underlying), SectorRules[i], Includes)
    requires forall j :: 0 <= j < i ==> !RuleMatches(SectorText(name, underlying), SectorRules[j], Includes)
    ensures DetectSector(name, underlying) == SectorRules[i].outcome
  {
    FirstOutcomeWins(SectorText(name, underlying), SectorRules, Includes, "Technology", i);
  }

  /** A string without the needle's `j`-th character does not contain the needle. */
  lemma MissingCharNotContained(s: string, t: string, j: nat)
    requires j < |t| && forall i :: 0 <= i < |s| ==> s[i] != t[j]
    ensures !Contains(s, t)
  {
    forall k: nat | k + |t| <= |s| ensures !WindowAt(s, t, k) {
      assert s[k..k + |t|][j] == s[k + j] != t[j];
    }
    ContainsIff(s, t);
  }

  /** A two-character needle whose pair never occurs side by side is not contained. */
  lemma PairNotContained(s: string, t: string)
    requires |t| == 2 && forall i :: 0 <= i < |s| - 1 ==> s[i] != t[0] || s[i + 1] != t[1]
    ensures !Contains(s, t)
  {
    forall k: nat | k + 2 <= |s| ensures !WindowAt(s, t, k) {
      assert s[k..k + 2][0] == s[k] && s[k..k + 2][1] == s[k + 1];
    }
    ContainsIff(s, t);
  }

  /** Letters missing from the sector text of Advanced Micro Devices, and no `A` followed by `I`. */
  predicate AmdShape(s: string)
  {
    && (forall i :: 0 <= i < |s| ==> s[i] != 'B' && s[i] != 'F' && s[i] != 'H' && s[i] != 'L')
    && (forall i :: 0 <= i < |s| ==> s[i] != 'P' && s[i] != 'T' && s[i] != 'U' && s[i] != 'X')
    && (forall i :: 0 <= i < |s| - 1 ==> s[i] != 'A' || s[i + 1] != 'I')
  }

  lemma AmdTextShape(s: string)
    requires s == "ADVANCED MICRO DEVICES AMD"
    ensures AmdShape(s)
  {
  }

  /** None of the first three sector rules matches a text of that shape. */
  lemma AmdNotEarlier(s: string)
    requires AmdShape(s)
    ensures forall j :: 0 <= j < 3 ==> !RuleMatches(s, SectorRules[j], Includes)
  {
    AmdNotRule0(s);
    AmdNotRule1(s);
    AmdNotRule2(s);
  }

  lemma AmdNotRule0(s: string)
    requires AmdShape(s)
    ensures !RuleMatches(s, SectorRules[0], Includes)
  {
    MissingCharNotContained(s, "ETF", 2);
    MissingCharNotContained(s, "INDEX", 4);
    MissingCharNotContained(s, "FUND", 0);
    assert SectorRules[0].needles == ["ETF", "INDEX", "FUND"];
  }

  lemma AmdNotRule1(s: string)
    requires AmdShape(s)
    ensures !RuleMatches(s, SectorRules[1], Includes)
  {
    MissingCharNotContained(s, "BANK", 0);
    MissingCharNotContained(s, "FINANCE", 0);
    MissingCharNotContained(s, "INSURANCE", 3);
    MissingCharNotContained(s, "CREDIT", 5);
    assert SectorRules[1].needles == ["BANK", "FINANCE", "INSURANCE", "CREDIT"];
  }

  lemma AmdNotRule2(s: string)
    requires AmdShape(s)
    ensures !RuleMatches(s, SectorRules[2], Includes)
  {
    MissingCharNotContained(s, "TECH", 0);
    MissingCharNotContained(s, "SOFTWARE", 2);
    MissingCharNotContained(s, "SEMICONDUCTOR", 10);
    MissingCharNotContained(s, "CHIP", 1);
    MissingCharNotContained(s, "COMPUTER", 3);
    MissingCharNotContained(s, "CLOUD", 1);
    PairNotContained(s, "AI");
    assert SectorRules[2].needles == ["TECH", "SOFTWARE", "SEMICONDUCTOR", "CHIP", "COMPUTER", "CLOUD", "AI"];
  }

  /** The sector rules search "ADVANCED MICRO DEVICES AMD" for Advanced Micro Devices. */
  lemma AmdText()
    ensures SectorText("Advanced Micro Devices", "AMD") == "ADVANCED MICRO DEVICES AMD"
  {
    var u := SectorText("Advanced Micro Devices", "AMD");
    var e := "ADVANCED MICRO DEVICES AMD";
    assert |u| == |e|;
    forall i | 0 <= i < |e| ensures u[i] == e[i] {
      assert ("Advanced Micro Devices" + " " + "AMD")[i] == "Advanced Micro Devices AMD"[i];
    }
  }

  /** "DEVICES" contains "EV", so Advanced Micro Devices is classified as an automaker. */
  lemma AmdIsAuto()
    ensures DetectSector("Advanced Micro Devices", "AMD") == "Auto"
  {
    AmdText();
    var s := SectorText("Advanced Micro Devices", "AMD");
    assert Contains(s, "EV") by {
      ContainsIff(s, "EV");
      assert WindowAt(s, "EV", 16);
    }
    assert RuleMatches(s, SectorRules[3], Includes) by { assert SectorRules[3].needles[3] == "EV"; }
    AmdTextShape(s);
    AmdNotEarlier(s);
    SectorFirstMatch("Advanced Micro Devices", "AMD", 3);
  }

  // ----- issuer --------------------------------------------------------------

  /** Two-digit DR-symbol suffixes and the issuer they stand for, in the order they are tried. */
  const SuffixRules: seq<Rule> := [
    Rule(["80"], "KTB"), Rule(["01"], "BLS"), Rule(["13"], "KGI"), Rule(["19"], "YUANTA"),
    Rule(["06"], "KKP"), Rule(["24"], "FSS"), Rule(["29"], "PI"), Rule(["03"], "PI"),
    Rule(["23"], "INVX"), Rule(["27"], "INVX"), Rule(["41"], "JPM"), Rule(["28"], "MQ"),
    Rule(["08"], "ASPS"), Rule(["16"], "TNS"), Rule(["42"], "CITI"), Rule(["11"], "KS")
  ]

  /** The issuer codes with a display name. */
  const IssuerNames: map<string, string> := map[
    "KTB" := "ธ.กรุงไทย",
    "BLS" := "บล.บัวหลวง",
    "INVX" := "บล.อินโนเวสท์ เอกซ์",
    "KGI" := "บล.เคจีไอ",
    "YUANTA" := "บล.หยวนต้า",
    "JPM" := "JPMorgan",
    "KKP" := "บล.เกียรตินาคินภัทร",
    "MQ" := "Macquarie",
    "FSS" := "บล.ฟินันเซีย ไซรัส",
    "ASPS" := "บล.เอเซีย พลัส",
    "TNS" := "บล.ธนชาต",
    "PI" := "บล.พาย",
    "CITI" := "Citibank",
    "KS" := "KS Securities"
  ]

  const Unspecified := "ไม่ระบุ"

  /**
   * `getIssuerCodeFromSuffix`: a known two-digit suffix, else `CODE` followed
   * by all the trailing digits, else `OTHER`.
   */
  function IssuerCodeFromSuffix(symbol: string): (r: string)
    ensures r != ""
    ensures r in IssuerNames || r == "OTHER" || (StartsWith(r, "CODE") && r[4..] == TrailingDigits(symbol))
  {
    match FirstIndex(symbol, SuffixRules, Suffix)
    case Some(i) => SuffixRules[i].outcome
    case None =>
      var d := TrailingDigits(symbol);
      if d != "" then
        assert StartsWith("CODE" + d, "CODE") by { StartsWithIff("CODE" + d, "CODE"); }
        "CODE" + d
      else "OTHER"
  }

  /**
   * The suffix rules are tried in table order: rule `i` decides when the
   * symbol ends with one of its suffixes and with none of an earlier rule's.
   */
  lemma SuffixFirstMatch(symbol: string, i: nat)
    requires i < |SuffixRules| && RuleMatches(symbol, SuffixRules[i], Suffix)
    requires forall j :: 0 <= j < i ==> !RuleMatches(symbol, SuffixRules[j], Suffix)
    ensures IssuerCodeFromSuffix(symbol) == SuffixRules[i].outcome
  {
    FirstIndexOf(symbol, SuffixRules, Suffix, i);
  }

  /** With no known suffix, the code is `CODE` and the trailing digits, or `OTHER` when there are none. */
  lemma SuffixUnmapped(symbol: string)
    requires forall j :: 0 <= j < |SuffixRules| ==> !RuleMatches(symbol, SuffixRules[j], Suffix)
    ensures IssuerCodeFromSuffix(symbol) == if TrailingDigits(symbol) != "" then "CODE" + TrailingDigits(symbol) else "OTHER"
  {
    assert FirstIndex(symbol, SuffixRules, Suffix).None?;
  }

  /** `80`, the first suffix tried, always names Krung Thai Bank. */
  lemma SuffixKtb(symbol: string)
    requires EndsWith(symbol, "80")
    ensures IssuerCodeFromSuffix(symbol) == "KTB"
  {
    assert SuffixRules[0].needles[0] == "80";
    SuffixFirstMatch(symbol, 0);
  }

  /** `getIssuerName`: the table name, `รหัส` and the digits for a `CODE` code, otherwise unspecified. */
  function IssuerName(code: Option<string>): (r: string)
    ensures r != ""
  {
    match code
    case None => Unspecified
    case Some(c) =>
      if c in IssuerNames && IssuerNames[c] != "" then IssuerNames[c]
      else if c != "" && StartsWith(c, "CODE") then "รหัส " + c[4..]
      else Unspecified
  }

  /** A code of the name table is shown with the name the table gives it. */
  lemma IssuerNameOfTable(code: string)
    requires code in IssuerNames
    ensures IssuerName(Some(code)) == IssuerNames[code]
  {
    NamesSpecified(code);
  }

  /** No code, or a code outside the table that is not `CODE`-prefixed, shows as unspecified. */
  lemma IssuerNameUnmapped(code: Option<string>)
    requires code.Some? ==> code.value !in IssuerNames && !StartsWith(code.value, "CODE")
    ensures IssuerName(code) == Unspecified
  {
  }

  /** An unmapped numeric suffix is shown as its digits. */
  lemma IssuerNameOfCode(d: string)
    requires d != "" && forall i :: 0 <= i < |d| ==> IsDigit(d[i])
    ensures IssuerName(Some("CODE" + d)) == "รหัส " + d
  {
    var c := "CODE" + d;
    assert c[0] == 'C' && c[1] == 'O';
    assert c !in IssuerNames;
    StartsWithIff(c, "CODE");
    assert c[4..] == d;
  }

  /** A symbol's issuer is unspecified exactly when it has no trailing digits. */
  lemma SuffixIssuerNamed(symbol: string)
    ensures IssuerName(Some(IssuerCodeFromSuffix(symbol))) == Unspecified <==> TrailingDigits(symbol) == ""
  {
    match FirstIndex(symbol, SuffixRules, Suffix)
    case Some(i) =>
      KnownSuffixDigits(symbol, i);
      KnownSuffixNamed(symbol, i);
    case None =>
      var d := TrailingDigits(symbol);
      if d != "" {
        TrailingDigitsSplit(symbol);
        assert forall i :: 0 <= i < |d| ==> d[i] in d;
        IssuerNameOfCode(d);
        assert IssuerCodeFromSuffix(symbol) == "CODE" + d;
        assert ("รหัส " + d)[0] != Unspecified[0];
      }
  }

  /** A symbol with a known suffix has trailing digits. */
  lemma KnownSuffixDigits(symbol: string, i: nat)
    requires FirstIndex(symbol, SuffixRules, Suffix) == Some(i)
    ensures TrailingDigits(symbol) != ""
  {
    var k :| 0 <= k < |SuffixRules[i].needles| && EndsWith(symbol, SuffixRules[i].needles[k]);
    SuffixNeedlesDigits(i, k);
    SuffixDigits(symbol, SuffixRules[i].needles[k]);
  }

  /** The issuer of a known suffix has a display name. */
  lemma KnownSuffixNamed(symbol: string, i: nat)
    requires FirstIndex(symbol, SuffixRules, Suffix) == Some(i)
    ensures IssuerName(Some(IssuerCodeFromSuffix(symbol))) != Unspecified
  {
    var code := SuffixRules[i].outcome;
    assert IssuerCodeFromSuffix(symbol) == code;
    SuffixOutcomeMapped(i);
    NamesSpecified(code);
  }

  /** Every issuer the suffix table names is in the display-name table. */
  lemma SuffixOutcomeMapped(i: nat)
    requires i < |SuffixRules|
    ensures SuffixRules[i].outcome in IssuerNames
  {
  }

  /** Every needle of the suffix table is two characters ending in a digit. */
  lemma SuffixNeedlesDigits(i: nat, k: nat)
    requires i < |SuffixRules| && k < |SuffixRules[i].needles|
    ensures |SuffixRules[i].needles[k]| == 2 && IsDigit(SuffixRules[i].needles[k][1])
  {
  }

  /** Every mapped issuer has a real display name. */
  lemma NamesSpecified(code: string)
    requires code in IssuerNames
    ensures IssuerName(Some(code)) != Unspecified
  {
  }

  /** A symbol ending in a two-character suffix whose last character is a digit has trailing digits. */
  lemma SuffixDigits(symbol: string, suffix: string)
    requires |suffix| == 2 && IsDigit(suffix[1]) && EndsWith(symbol, suffix)
    ensures TrailingDigits(symbol) != ""
  {
    EndsWithIff(symbol, suffix);
    assert symbol[|symbol| - 1] == suffix[1];
  }

  /** Issuer-name fragments and the code each implies, in test order. */
  const IssuerNameRules: seq<Rule> := [
    Rule(["บัวหลวง"], "BLS"), Rule(["หยวนต้า"], "YUANTA"), Rule(["อินโนเวสท์"], "INVX"),
    Rule(["เคจีไอ"], "KGI"), Rule(["กสิกร"], "KBANK"), Rule(["กรุงไทย"], "KTB"),
    Rule(["พาย", "Pi"], "PI"), Rule(["ฟินันเซีย"], "FSS"), Rule(["เกียรตินาคิน"], "KKP")
  ]

  /** `getIssuerCode`: the code of the first fragment found in the issuer name, or `null`. */
  function IssuerCodeFromName(issuerName: string): (r: Option<string>)
    ensures issuerName == "" ==> r.None?
    ensures r.Some? ==> r.value in Outcomes(IssuerNameRules)
  {
    if issuerName == "" then None
    else
      match FirstIndex(issuerName, IssuerNameRules, Includes)
      case Some(i) => Some(IssuerNameRules[i].outcome)
      case None => None
  }

  /** No code exactly when the name is empty or contains none of the fragments. */
  lemma IssuerCodeFromNameNone(issuerName: string)
    ensures IssuerCodeFromName(issuerName).None? <==>
      issuerName == "" || forall j :: 0 <= j < |IssuerNameRules| ==> !RuleMatches(issuerName, IssuerNameRules[j], Includes)
  {
    if issuerName != "" {
      match FirstIndex(issuerName, IssuerNameRules, Includes)
      case Some(i) =>
        assert IssuerCodeFromName(issuerName).Some?;
      case None =>
    }
  }

  /** The fragments are tried in table order: the first one found in the name gives the code. */
  lemma IssuerCodeFromNameFirstMatch(issuerName: string, i: nat)
    requires i < |IssuerNameRules| && RuleMatches(issuerName, IssuerNameRules[i], Includes)
    requires forall j :: 0 <= j < i ==> !RuleMatches(issuerName, IssuerNameRules[j], Includes)
    ensures IssuerCodeFromName(issuerName) == Some(IssuerNameRules[i].outcome)
  {
    var k :| 0 <= k < |IssuerNameRules[i].needles| && Contains(issuerName, IssuerNameRules[i].needles[k]);
    assert issuerName != "" by {
      assert |IssuerNameRules[i].needles[k]| > 0;
    }
    FirstIndexOf(issuerName, IssuerNameRules, Includes, i);
  }

  /** The name-based code `KBANK` has no display name, so such a DR shows as unspecified. */
  lemma KBankUnnamed()
    ensures IssuerName(Some("KBANK")) == Unspecified
  {
    assert "KBANK" !in IssuerNames;
    assert !StartsWith("KBANK", "CODE");
  }
}
