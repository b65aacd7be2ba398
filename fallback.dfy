/**
 * The curated fallback dataset the service serves when both live sources
 * fail: 45 DRs whose issuer, country, sector and trading session are
 * re-derived by the classifiers and whose traded value is price times volume.
 */
module Fallback {
  import opened Wrappers
  import opened Text
  import opened Classify
  import opened Records

  /** One curated entry; its `issuer` and `tradingHours` text are overridden when mapped. */
  datatype Item = Item(
    symbol: string,
    name: string,
    underlying: string,
    market: string,
    issuer: string,
    ratio: string,
    tradingHours: string,
    price: real,
    change: real,
    changePercent: real,
    volume: real,
    marketCap: real,
    pe: real,
    dividend: real)

  const Items: seq<Item> := [
    Item("AAPL80", "Apple Inc.", "AAPL", "NASDAQ", "บล.บัวหลวง", "1:100", "กลางวัน+กลางคืน", 6.45, 0.05, 0.78, 1250000.0, 3800.0, 31.2, 0.48),
    Item("MSFT80", "Microsoft Corporation", "MSFT", "NASDAQ", "บล.บัวหลวง", "1:100", "กลางวัน+กลางคืน", 14.85, -0.12, -0.80, 890000.0, 3200.0, 36.5, 0.72),
    Item("NVDA80", "NVIDIA Corporation", "NVDA", "NASDAQ", "บล.บัวหลวง", "1:100", "กลางวัน+กลางคืน", 4.72, 0.18, 3.96, 2100000.0, 3400.0, 65.2, 0.04),
    Item("GOOGL01", "Alphabet Inc.", "GOOGL", "NASDAQ", "บล.อินโนเวสท์ เอกซ์", "1:10", "กลางวัน+กลางคืน", 61.20, 0.45, 0.74, 750000.0, 2200.0, 24.8, 0.0),
    Item("META80", "Meta Platforms Inc.", "META", "NASDAQ", "บล.บัวหลวง", "1:100", "กลางวัน+กลางคืน", 19.85, 0.32, 1.64, 520000.0, 1500.0, 28.3, 0.50),
    Item("AMZN80", "Amazon.com Inc.", "AMZN", "NASDAQ", "บล.บัวหลวง", "1:100", "กลางวัน+กลางคืน", 7.25, 0.08, 1.12, 680000.0, 2100.0, 42.5, 0.0),
    Item("TSLA80", "Tesla Inc.", "TSLA", "NASDAQ", "บล.บัวหลวง", "1:100", "กลางวัน+กลางคืน", 14.45, -0.35, -2.37, 1850000.0, 1350.0, 98.5, 0.0),
    Item("NFLX80", "Netflix Inc.", "NFLX", "NASDAQ", "บล.บัวหลวง", "1:100", "กลางวัน+กลางคืน", 29.65, 0.52, 1.79, 290000.0, 380.0, 48.7, 0.0),
    Item("AMD80", "Advanced Micro Devices", "AMD", "NASDAQ", "บล.บัวหลวง", "1:100", "กลางวัน+กลางคืน", 4.28, 0.15, 3.63, 980000.0, 220.0, 45.2, 0.0),
    Item("AVGO80", "Broadcom Inc.", "AVGO", "NASDAQ", "บล.บัวหลวง", "1:100", "กลางวัน+กลางคืน", 7.65, 0.12, 1.59, 320000.0, 1050.0, 45.2, 2.12),
    Item("COSTCO19", "Costco Wholesale", "COST", "NASDAQ", "บล.หยวนต้า", "1:1000", "กลางวัน+กลางคืน", 31.85, 0.18, 0.57, 180000.0, 410.0, 52.3, 1.16),
    Item("BABA80", "Alibaba Group", "BABA", "NYSE", "บล.บัวหลวง", "1:100", "กลางวัน+กลางคืน", 2.92, 0.08, 2.82, 980000.0, 210.0, 18.5, 0.0),
    Item("TENCENT80", "Tencent Holdings", "0700.HK", "HKEX", "บล.บัวหลวง", "1:100", "กลางวัน", 14.25, 0.32, 2.30, 650000.0, 480.0, 22.3, 0.35),
    Item("BYDCOM80", "BYD Company", "1211.HK", "HKEX", "บล.บัวหลวง", "1:100", "กลางวัน", 9.72, 0.25, 2.64, 420000.0, 95.0, 25.8, 0.15),
    Item("XIAOMI80", "Xiaomi Corporation", "1810.HK", "HKEX", "บล.บัวหลวง", "1:100", "กลางวัน", 1.78, 0.05, 2.89, 380000.0, 65.0, 32.5, 0.0),
    Item("MEITUAN80", "Meituan", "3690.HK", "HKEX", "บล.บัวหลวง", "1:100", "กลางวัน", 5.62, -0.08, -1.40, 290000.0, 102.0, 45.2, 0.0),
    Item("JD80", "JD.com Inc.", "JD", "NASDAQ", "บล.บัวหลวง", "1:100", "กลางวัน+กลางคืน", 1.18, 0.03, 2.61, 520000.0, 55.0, 12.8, 0.76),
    Item("PDD80", "PDD Holdings", "PDD", "NASDAQ", "บล.บัวหลวง", "1:100", "กลางวัน+กลางคืน", 3.45, 0.12, 3.60, 450000.0, 180.0, 15.2, 0.0),
    Item("NIO80", "NIO Inc.", "NIO", "NYSE", "บล.บัวหลวง", "1:100", "กลางวัน+กลางคืน", 0.15, 0.01, 7.14, 890000.0, 8.0, -5.2, 0.0),
    Item("XPEV80", "XPeng Inc.", "XPEV", "NYSE", "บล.บัวหลวง", "1:100", "กลางวัน+กลางคืน", 0.52, 0.02, 4.00, 320000.0, 12.0, -8.5, 0.0),
    Item("LI80", "Li Auto Inc.", "LI", "NASDAQ", "บล.บัวหลวง", "1:100", "กลางวัน+กลางคืน", 0.82, 0.03, 3.80, 280000.0, 22.0, 18.5, 0.0),
    Item("TOYOTA19", "Toyota Motor", "7203.T", "TSE", "บล.หยวนต้า", "1:1000", "กลางวัน", 6.32, 0.05, 0.80, 180000.0, 280.0, 9.8, 2.85),
    Item("SONY19", "Sony Group", "6758.T", "TSE", "บล.หยวนต้า", "1:1000", "กลางวัน", 3.15, 0.08, 2.61, 145000.0, 115.0, 18.2, 0.85),
    Item("NINTENDO19", "Nintendo Co.", "7974.T", "TSE", "บล.หยวนต้า", "1:1000", "กลางวัน", 2.68, 0.06, 2.29, 125000.0, 85.0, 22.5, 1.95),
    Item("HONDA19", "Honda Motor", "7267.T", "TSE", "บล.หยวนต้า", "1:1000", "กลางวัน", 1.42, 0.02, 1.43, 98000.0, 52.0, 8.5, 3.25),
    Item("LVMH01", "LVMH Moët Hennessy", "MC.PA", "Euronext Paris", "บล.อินโนเวสท์ เอกซ์", "1:10", "กลางวัน", 23.45, -0.28, -1.18, 85000.0, 345.0, 24.5, 1.35),
    Item("HERMES80", "Hermès International", "RMS.PA", "Euronext Paris", "บล.บัวหลวง", "1:100", "กลางวัน", 79.85, 0.92, 1.17, 42000.0, 248.0, 52.3, 0.65),
    Item("ASML01", "ASML Holding", "ASML.AS", "Euronext Amsterdam", "บล.อินโนเวสท์ เอกซ์", "1:10", "กลางวัน", 24.72, 0.45, 1.85, 68000.0, 295.0, 42.8, 0.85),
    Item("DBS19", "DBS Group Holdings", "D05.SI", "SGX", "บล.หยวนต้า", "1:1000", "กลางวัน", 1.28, 0.02, 1.59, 125000.0, 98.0, 11.2, 4.85),
    Item("UOB19", "United Overseas Bank", "U11.SI", "SGX", "บล.หยวนต้า", "1:1000", "กลางวัน", 1.12, 0.01, 0.90, 95000.0, 55.0, 10.5, 4.25),
    Item("GRAB80", "Grab Holdings", "GRAB", "NASDAQ", "บล.บัวหลวง", "1:100", "กลางวัน+กลางคืน", 0.16, 0.01, 6.67, 450000.0, 18.0, -25.5, 0.0),
    Item("E1VFVN3001", "E1VFVN30 ETF", "E1VFVN30", "HOSE", "บล.อินโนเวสท์ เอกซ์", "1:10", "กลางวัน", 0.62, 0.01, 1.64, 85000.0, 12.0, 15.2, 1.85),
    Item("FUEVFVND01", "FUEVFVND ETF", "FUEVFVND", "HOSE", "บล.อินโนเวสท์ เอกซ์", "1:10", "กลางวัน", 0.58, 0.01, 1.75, 72000.0, 8.0, 14.8, 1.65),
    Item("NDX01", "ChinaAMC NASDAQ 100 ETF", "3086.HK", "HKEX", "บล.อินโนเวสท์ เอกซ์", "1:10", "กลางวัน", 1.56, 0.02, 1.30, 320000.0, 85.0, 0.0, 0.45),
    Item("CN01", "ChinaAMC CSI 300 ETF", "3188.HK", "HKEX", "บล.อินโนเวสท์ เอกซ์", "1:10", "กลางวัน", 1.28, 0.03, 2.40, 185000.0, 52.0, 0.0, 0.65),
    Item("HK01", "Tracker Fund of Hong Kong", "2800.HK", "HKEX", "บล.อินโนเวสท์ เอกซ์", "1:10", "กลางวัน", 0.64, 0.01, 1.59, 145000.0, 28.0, 0.0, 2.35),
    Item("HKTECH13", "Hang Seng TECH Index ETF", "3032.HK", "HKEX", "บล.เคจีไอ", "1:100", "กลางวัน", 1.42, 0.04, 2.90, 275000.0, 62.0, 0.0, 0.25),
    Item("COIN80", "Coinbase Global", "COIN", "NASDAQ", "บล.บัวหลวง", "1:100", "กลางวัน+กลางคืน", 8.95, 0.45, 5.29, 420000.0, 45.0, 32.5, 0.0),
    Item("PLTR80", "Palantir Technologies", "PLTR", "NYSE", "บล.บัวหลวง", "1:100", "กลางวัน+กลางคืน", 2.85, 0.12, 4.40, 650000.0, 85.0, 180.0, 0.0),
    Item("UBER80", "Uber Technologies", "UBER", "NYSE", "บล.บัวหลวง", "1:100", "กลางวัน+กลางคืน", 2.48, 0.05, 2.06, 380000.0, 165.0, 75.2, 0.0),
    Item("SHOP80", "Shopify Inc.", "SHOP", "NYSE", "บล.บัวหลวง", "1:100", "กลางวัน+กลางคืน", 3.72, 0.08, 2.20, 220000.0, 135.0, 85.5, 0.0),
    Item("SQ80", "Block Inc.", "SQ", "NYSE", "บล.บัวหลวง", "1:100", "กลางวัน+กลางคืน", 2.95, 0.10, 3.51, 310000.0, 52.0, 45.2, 0.0),
    Item("PYPL80", "PayPal Holdings", "PYPL", "NASDAQ", "บล.บัวหลวง", "1:100", "กลางวัน+กลางคืน", 2.52, 0.04, 1.61, 280000.0, 72.0, 18.5, 0.0),
    Item("CRM80", "Salesforce Inc.", "CRM", "NYSE", "บล.บัวหลวง", "1:100", "กลางวัน+กลางคืน", 11.25, 0.15, 1.35, 185000.0, 285.0, 42.8, 0.0),
    Item("ORCL80", "Oracle Corporation", "ORCL", "NYSE", "ธ.กรุงไทย", "1:100", "กลางวัน+กลางคืน", 5.82, 0.08, 1.39, 165000.0, 420.0, 38.5, 1.25)
  ]

  /** The traded value of a curated entry: its price times its volume. */
  function TradedValue(price: real, volume: real): real
  {
    price * volume
  }

  /** The mapping applied to every curated entry. */
  function FallbackRecord(item: Item, now: string): (r: Record)
    ensures WellClassified(r)
    ensures r.symbol == item.symbol && r.price == item.price && r.volume == item.volume
    ensures r.issuerCode == Some(IssuerCodeFromSuffix(item.symbol)) && r.issuer == IssuerName(r.issuerCode)
    ensures r.high.None? && r.low.None? && r.open.None? && r.prevClose.None? && r.bid.None? && r.ask.None?
  {
    var code := IssuerCodeFromSuffix(item.symbol);
    var country := DetectCountry(item.market, item.underlying, item.symbol);
    var session := DetectTradingHours(item.market, country, item.underlying);
    Record(
      item.symbol, item.name, item.underlying, item.market, country, DetectSector(item.name, item.underlying),
      item.price, item.change, item.changePercent, item.volume, TradedValue(item.price, item.volume),
      None, None, None, None, None, None,
      Some(item.pe), Some(item.dividend), Some(item.marketCap),
      IssuerName(Some(code)), Some(code), item.ratio,
      session.session, Some(session), now)
  }

  /** The mapping applied to a list of entries, in order. */
  function MapItems(items: seq<Item>, now: string): (r: seq<Record>)
    ensures |r| == |items|
    ensures forall i :: 0 <= i < |r| ==> r[i] == FallbackRecord(items[i], now)
  {
    seq(|items|, i requires 0 <= i < |items| => FallbackRecord(items[i], now))
  }

  /** `getFallbackDRData`. */
  function FallbackDRData(now: string): seq<Record>
  {
    MapItems(Items, now)
  }

  /** The dataset has 45 entries. */
  lemma FallbackCount(now: string)
    ensures |FallbackDRData(now)| == 45
  {
  }

  /** Every mapped entry is classified, carries an issuer code and trades at price times volume. */
  lemma MapItemsWellFormed(items: seq<Item>, now: string)
    ensures forall r :: r in MapItems(items, now) ==> WellClassified(r) && r.issuerCode.Some? && r.value == TradedValue(r.price, r.volume)
  {
    forall r | r in MapItems(items, now)
      ensures WellClassified(r) && r.issuerCode.Some? && r.value == TradedValue(r.price, r.volume)
    {
      var i :| 0 <= i < |items| && MapItems(items, now)[i] == r;
      assert r == FallbackRecord(items[i], now);
    }
  }

  /** Every fallback record is classified, carries an issuer code and trades at price times volume. */
  lemma FallbackWellFormed(now: string)
    ensures forall r :: r in FallbackDRData(now) ==> WellClassified(r) && r.issuerCode.Some? && r.value == TradedValue(r.price, r.volume)
  {
    MapItemsWellFormed(Items, now);
  }
}
