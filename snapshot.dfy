/**
 * Pure computations over a snapshot of DR records that the store and the
 * routes share: counting, summing, lookup by symbol, the price merge of
 * `scrapePrices`, the locally computed market overview and rankings, and the
 * per-broker DR counts.
 */
module Snapshot {
  import opened Wrappers
  import opened Numbers
  import opened Sorting
  import opened Records

  // ----- counting and summing -------------------------------------------------

  /** `s.filter(p).length`. */
  function CountWhere<T>(s: seq<T>, p: T -> bool): (n: nat)
    ensures n <= |s|
  {
    if s == [] then 0 else CountWhere(s[..|s| - 1], p) + (if p(s[|s| - 1]) then 1 else 0)
  }

  /** `s.filter(p)`. */
  function Filter<T(!new)>(s: seq<T>, p: T -> bool): (r: seq<T>)
    ensures |r| == CountWhere(s, p)
    ensures forall x :: x in r <==> x in s && p(x)
    ensures multiset(r) <= multiset(s)
  {
    if s == [] then []
    else
      var front := Filter(s[..|s| - 1], p);
      assert s == s[..|s| - 1] + [s[|s| - 1]];
      front + (if p(s[|s| - 1]) then [s[|s| - 1]] else [])
  }

  /** Filtering keeps the relative order: the result is a subsequence, element by element. */
  lemma {:induction false} FilterAppend<T(!new)>(a: seq<T>, b: seq<T>, p: T -> bool)
    ensures Filter(a + b, p) == Filter(a, p) + Filter(b, p)
  {
    if b != [] {
      assert (a + b)[..|a + b| - 1] == a + b[..|b| - 1];
      FilterAppend(a, b[..|b| - 1], p);
    } else {
      assert a + b == a;
    }
  }

  /** `s.reduce((sum, x) => sum + f(x), 0)`. */
  function SumOf<T>(s: seq<T>, f: T -> real): real
  {
    if s == [] then 0.0 else SumOf(s[..|s| - 1], f) + f(s[|s| - 1])
  }

  /** Sums split over concatenation. */
  lemma {:induction false} SumAppend<T>(a: seq<T>, b: seq<T>, f: T -> real)
    ensures SumOf(a + b, f) == SumOf(a, f) + SumOf(b, f)
  {
    if b != [] {
      assert (a + b)[..|a + b| - 1] == a + b[..|b| - 1];
      SumAppend(a, b[..|b| - 1], f);
    } else {
      assert a + b == a;
    }
  }

  predicate IsGainer(r: Record) { r.changePercent > 0.0 }
  predicate IsLoser(r: Record) { r.changePercent < 0.0 }
  predicate IsUnchanged(r: Record) { r.changePercent == 0.0 }

  function ChangePercentOf(r: Record): real { r.changePercent }
  function ValueOf(r: Record): real { r.value }
  function VolumeOf(r: Record): real { r.volume }
  function MarketCapOf(r: Record): real { r.marketCap.GetOr(0.0) }

  /** Every record is exactly one of gainer, loser or unchanged. */
  lemma {:induction false} SignPartition(s: seq<Record>)
    ensures CountWhere(s, IsGainer) + CountWhere(s, IsLoser) + CountWhere(s, IsUnchanged) == |s|
  {
    if s != [] {
      SignPartition(s[..|s| - 1]);
    }
  }

  // ----- lookup by symbol ----------------------------------------------------

  /** The index of the first record with the symbol. */
  function SymbolIndex(data: seq<Record>, symbol: string): (r: Option<nat>)
    ensures r.Some? ==> r.value < |data| && data[r.value].symbol == symbol
    ensures r.Some? ==> forall j :: 0 <= j < r.value ==> data[j].symbol != symbol
    ensures r.None? <==> forall j :: 0 <= j < |data| ==> data[j].symbol != symbol
  {
    if data == [] then None
    else if data[0].symbol == symbol then Some(0)
    else
      match SymbolIndex(data[1..], symbol)
      case None =>
        assert forall j :: 1 <= j < |data| ==> data[j] == data[1..][j - 1];
        None
      case Some(i) => Some(i + 1)
  }

  /** `data.find(d => d.symbol === symbol)`. */
  function FindBySymbol(data: seq<Record>, symbol: string): (r: Option<Record>)
    ensures r.Some? ==> r.value in data && r.value.symbol == symbol
    ensures r.None? <==> forall x :: x in data ==> x.symbol != symbol
  {
    match SymbolIndex(data, symbol)
    case None => None
    case Some(i) => Some(data[i])
  }

  /** The first record with the symbol is found, even when later ones share it. */
  lemma FindFirst(data: seq<Record>, symbol: string, i: nat)
    requires i < |data| && data[i].symbol == symbol
    requires forall j :: 0 <= j < i ==> data[j].symbol != symbol
    ensures FindBySymbol(data, symbol) == Some(data[i])
  {
    var k := SymbolIndex(data, symbol);
    assert k.Some?;
    if k.value < i {
    } else if k.value > i {
    }
  }

  // ----- price merge -------------------------------------------------------------

  /** The nine fields a price refresh replaces. */
  datatype Quote = Quote(
    price: real, change: real, changePercent: real, volume: real, value: real,
    high: Option<real>, low: Option<real>, open: Option<real>, lastUpdate: string)

  function QuoteOf(r: Record): Quote
  {
    Quote(r.price, r.change, r.changePercent, r.volume, r.value, r.high, r.low, r.open, r.lastUpdate)
  }

  /** The record with its quote blanked out: everything a price refresh must leave alone. */
  function WithoutQuote(r: Record): Record
  {
    r.(price := 0.0, change := 0.0, changePercent := 0.0, volume := 0.0, value := 0.0,
       high := None, low := None, open := None, lastUpdate := "")
  }

  /** A record is determined by its quote and the rest. */
  lemma QuoteSplit(a: Record, b: Record)
    requires QuoteOf(a) == QuoteOf(b) && WithoutQuote(a) == WithoutQuote(b)
    ensures a == b
  {
  }

  /** `{ ...dr, price: live.price, ..., lastUpdate: live.lastUpdate }`. */
  function WithQuote(dr: Record, live: Record): (r: Record)
    ensures QuoteOf(r) == QuoteOf(live)
    ensures WithoutQuote(r) == WithoutQuote(dr)
  {
    dr.(price := live.price, change := live.change, changePercent := live.changePercent,
        volume := live.volume, value := live.value, high := live.high, low := live.low,
        open := live.open, lastUpdate := live.lastUpdate)
  }

  /** One record after a refresh: the first live record with its symbol supplies the quote. */
  function MergeRecord(dr: Record, live: seq<Record>): Record
  {
    match FindBySymbol(live, dr.symbol)
    case None => dr
    case Some(l) => WithQuote(dr, l)
  }

  /** `drData.map(...)` in `scrapePrices`. */
  function MergePrices(data: seq<Record>, live: seq<Record>): (r: seq<Record>)
    ensures |r| == |data|
  {
    seq(|data|, i requires 0 <= i < |data| => MergeRecord(data[i], live))
  }

  /**
   * The merge keeps length and order, changes nothing but the quote, takes
   * the quote of the first live record with the same symbol, and leaves a
   * record with no live counterpart untouched.
   */
  lemma MergePricesSpec(data: seq<Record>, live: seq<Record>, i: nat)
    requires i < |data|
    ensures WithoutQuote(MergePrices(data, live)[i]) == WithoutQuote(data[i])
    ensures MergePrices(data, live)[i].symbol == data[i].symbol
    ensures FindBySymbol(live, data[i].symbol).None? ==> MergePrices(data, live)[i] == data[i]
    ensures FindBySymbol(live, data[i].symbol).Some? ==>
      QuoteOf(MergePrices(data, live)[i]) == QuoteOf(FindBySymbol(live, data[i].symbol).value)
  {
    var dr := data[i];
    assert MergePrices(data, live)[i] == MergeRecord(dr, live);
    assert WithoutQuote(MergePrices(data, live)[i]).symbol == MergePrices(data, live)[i].symbol;
  }

  /** Merging never adds, drops or reorders symbols, and keeps every record classified. */
  lemma MergeKeepsSymbols(data: seq<Record>, live: seq<Record>)
    ensures forall i :: 0 <= i < |data| ==> MergePrices(data, live)[i].symbol == data[i].symbol
    ensures (forall r :: r in data ==> WellClassified(r)) ==> forall r :: r in MergePrices(data, live) ==> WellClassified(r)
  {
    forall i | 0 <= i < |data|
      ensures MergePrices(data, live)[i].symbol == data[i].symbol
      ensures WellClassified(data[i]) ==> WellClassified(MergePrices(data, live)[i])
    {
      MergePricesSpec(data, live, i);
      assert WithoutQuote(MergePrices(data, live)[i]).country == MergePrices(data, live)[i].country;
      assert WithoutQuote(MergePrices(data, live)[i]).sector == MergePrices(data, live)[i].sector;
    }
  }

  // ----- local market overview and rankings ---------------------------------------

  datatype Overview = Overview(gainer: nat, loser: nat, unchangedCount: nat, totalValue: real, totalVolume: real)

  /** The overview computed from the DR list when none was fetched. */
  function ComputeOverview(data: seq<Record>): (o: Overview)
    ensures o.gainer + o.loser + o.unchangedCount == |data|
  {
    SignPartition(data);
    Overview(CountWhere(data, IsGainer), CountWhere(data, IsLoser), CountWhere(data, IsUnchanged),
             SumOf(data, ValueOf), SumOf(data, VolumeOf))
  }

  datatype Rankings = Rankings(topGainers: seq<Record>, topLosers: seq<Record>, mostActiveValue: seq<Record>)

  const NoRankings := Rankings([], [], [])

  /** The rankings computed from the DR list: sorted copies cut to 10. */
  function ComputeRankings(data: seq<Record>): Rankings
  {
    Rankings(
      TopN(data, ByKey(ChangePercentOf, false), 10),
      TopN(data, ByKey(ChangePercentOf, true), 10),
      TopN(data, ByKey(ValueOf, false), 10))
  }

  /** Each list of `s` is `n` long, drawn from `s`, ordered by the key and beats every record left out. */
  ghost predicate RankedBy(r: seq<Record>, s: seq<Record>, key: Record -> real, ascending: bool, n: nat)
  {
    && |r| == (if n < |s| then n else |s|)
    && multiset(r) <= multiset(s)
    && (forall i, j :: 0 <= i < j < |r| ==> if ascending then key(r[i]) <= key(r[j]) else key(r[i]) >= key(r[j]))
    && (forall x, y :: x in r && y in multiset(s) - multiset(r) ==> if ascending then key(x) <= key(y) else key(x) >= key(y))
  }

  /** The top `n` by a key has the ranking shape. */
  lemma TopByKey(s: seq<Record>, key: Record -> real, ascending: bool, n: nat)
    ensures RankedBy(TopN(s, ByKey(key, ascending), n), s, key, ascending, n)
  {
    var cmp := ByKey(key, ascending);
    ByKeyConsistent(key, ascending);
    TopNSpec(s, cmp, n);
    var r := TopN(s, cmp, n);
    forall i, j | 0 <= i < j < |r| ensures if ascending then key(r[i]) <= key(r[j]) else key(r[i]) >= key(r[j]) {
      assert cmp(r[i], r[j]) <= 0.0;
    }
    forall x, y | x in r && y in multiset(s) - multiset(r) ensures if ascending then key(x) <= key(y) else key(x) >= key(y) {
      assert cmp(x, y) <= 0.0;
    }
  }

  /**
   * Gainers run down by change percent, losers up, most active down by value;
   * each holds at most 10 records of the list and beats every record left out.
   */
  lemma ComputeRankingsSpec(data: seq<Record>)
    ensures RankedBy(ComputeRankings(data).topGainers, data, ChangePercentOf, false, 10)
    ensures RankedBy(ComputeRankings(data).topLosers, data, ChangePercentOf, true, 10)
    ensures RankedBy(ComputeRankings(data).mostActiveValue, data, ValueOf, false, 10)
  {
    TopByKey(data, ChangePercentOf, false, 10);
    TopByKey(data, ChangePercentOf, true, 10);
    TopByKey(data, ValueOf, false, 10);
  }

  // ----- brokers ---------------------------------------------------------------

  datatype Broker = Broker(id: string, name: string, fullName: string, commission: string, minTrade: string, website: string)

  /** The static broker table. */
  const Brokers: seq<Broker> := [
    Broker("KTB", "ธ.กรุงไทย", "ธนาคารกรุงไทย จำกัด (มหาชน)", "0.15%", "1 หน่วย", "https://www.krungthai.com"),
    Broker("BLS", "บล.บัวหลวง", "บริษัทหลักทรัพย์ บัวหลวง จำกัด (มหาชน)", "0.15%", "1 หน่วย", "https://www.bualuang.co.th"),
    Broker("YUANTA", "บล.หยวนต้า", "บริษัทหลักทรัพย์ หยวนต้า (ประเทศไทย) จำกัด", "0.15%", "1 หน่วย", "https://www.yuanta.co.th"),
    Broker("KGI", "บล.เคจีไอ", "บริษัทหลักทรัพย์ เคจีไอ (ประเทศไทย) จำกัด (มหาชน)", "0.15%", "1 หน่วย", "https://www.kgieworld.co.th"),
    Broker("KKP", "บล.เกียรตินาคินภัทร", "บริษัทหลักทรัพย์ เกียรตินาคินภัทร จำกัด (มหาชน)", "0.15%", "1 หน่วย", "https://www.kkpfg.com"),
    Broker("FSS", "บล.ฟินันเซีย ไซรัส", "บริษัทหลักทรัพย์ ฟินันเซีย ไซรัส จำกัด (มหาชน)", "0.15%", "1 หน่วย", "https://www.fnsyrus.com"),
    Broker("PI", "บล.พาย", "บริษัทหลักทรัพย์ พาย จำกัด (มหาชน)", "0.12%", "1 หน่วย", "https://www.pi.co.th"),
    Broker("INVX", "บล.อินโนเวสท์ เอกซ์", "บริษัทหลักทรัพย์ อินโนเวสท์ เอกซ์ จำกัด", "0.15%", "1 หน่วย", "https://www.innovestx.co.th")
  ]

  datatype BrokerEntry = BrokerEntry(broker: Broker, drCount: nat)

  /** `drData.filter(dr => dr.issuerCode === id).length`. */
  function CountIssuer(data: seq<Record>, id: string): (n: nat)
    ensures n <= |data|
  {
    if data == [] then 0
    else CountIssuer(data[..|data| - 1], id) + (if data[|data| - 1].issuerCode == Some(id) then 1 else 0)
  }

  /** The count is zero exactly when no record carries the code. */
  lemma {:induction false} CountIssuerZero(data: seq<Record>, id: string)
    ensures CountIssuer(data, id) == 0 <==> forall r :: r in data ==> r.issuerCode != Some(id)
  {
    if data != [] {
      var front := data[..|data| - 1];
      CountIssuerZero(front, id);
      assert data == front + [data[|data| - 1]];
    }
  }

  /** `BROKERS.map(broker => ({ ...broker, drCount }))`. */
  function BrokerCounts(data: seq<Record>): (r: seq<BrokerEntry>)
    ensures |r| == |Brokers|
    ensures forall i :: 0 <= i < |r| ==> r[i].broker == Brokers[i] && r[i].drCount <= |data|
  {
    seq(|Brokers|, i requires 0 <= i < |Brokers| => BrokerEntry(Brokers[i], CountIssuer(data, Brokers[i].id)))
  }

  /** `BROKERS.find(b => b.id === id)`. */
  function FindBroker(brokers: seq<Broker>, id: string): (r: Option<Broker>)
    ensures r.Some? ==> r.value in brokers && r.value.id == id
    ensures r.None? <==> forall b :: b in brokers ==> b.id != id
  {
    if brokers == [] then None
    else if brokers[0].id == id then Some(brokers[0])
    else
      var r := FindBroker(brokers[1..], id);
      assert forall b :: b in brokers ==> b == brokers[0] || b in brokers[1..];
      r
  }
}
