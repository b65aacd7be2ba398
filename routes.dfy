/**
 * The read side of the DR API: the bodies of the `/api/dr` handlers as
 * queries over the store's DR list. A query parameter or body field that is
 * missing or empty is `""` (or `0.0` for a number), JavaScript's falsy value.
 *
 * `getAllDRs()` hands out the store's own array, so a handler that sorts it
 * before any `filter` copied it reorders the store; those handlers are
 * methods that modify the store.
 */
module Routes {
  import opened Wrappers
  import opened Text
  import opened Numbers
  import opened Sorting
  import opened Records
  import opened Snapshot
  import opened Store

  // ----- GET / ------------------------------------------------------------------

  /** A country or sector parameter filters unless it is missing or `"All"`. */
  predicate Selects(param: string) { param != "" && param != "All" }

  datatype ListQuery = ListQuery(country: string, sector: string, issuer: string, sort: string, order: string)

  /** No filter applies, so the list handed to `sort` is still the store's array. */
  predicate NoFilter(q: ListQuery) { !Selects(q.country) && !Selects(q.sector) && q.issuer == "" }

  /** What the three filters of `GET /` ask of a record. */
  predicate ListMatches(q: ListQuery, r: Record)
  {
    && (Selects(q.country) ==> r.country == q.country)
    && (Selects(q.sector) ==> r.sector == q.sector)
    && (q.issuer != "" ==> Contains(r.issuer, q.issuer))
  }

  /** The filters applied one after another, as the handler does. */
  function ListFiltered(data: seq<Record>, q: ListQuery): seq<Record>
  {
    var byCountry := if Selects(q.country) then Filter(data, (r: Record) => r.country == q.country) else data;
    var bySector := if Selects(q.sector) then Filter(byCountry, (r: Record) => r.sector == q.sector) else byCountry;
    if q.issuer != "" then Filter(bySector, (r: Record) => Contains(r.issuer, q.issuer)) else bySector
  }

  /** The filtered list holds exactly the records that pass every active filter, and is the input when none is active. */
  lemma ListFilteredSpec(data: seq<Record>, q: ListQuery)
    ensures forall x :: x in ListFiltered(data, q) <==> x in data && ListMatches(q, x)
    ensures multiset(ListFiltered(data, q)) <= multiset(data)
    ensures NoFilter(q) ==> ListFiltered(data, q) == data
  {
  }

  function PriceOf(r: Record): real { r.price }

  /** The `sort` parameters `GET /` knows; `change` and `changePercent` both sort by change percent. */
  datatype SortField = SymbolField | PriceField | ChangeField | VolumeField | MarketCapField | OtherField

  function SortFieldOf(sort: string): (f: SortField)
    ensures f != OtherField ==> sort != ""
  {
    if sort == "symbol" then SymbolField
    else if sort == "price" then PriceField
    else if sort == "change" || sort == "changePercent" then ChangeField
    else if sort == "volume" then VolumeField
    else if sort == "marketCap" then MarketCapField
    else OtherField
  }

  /** The numeric key of a field compared by subtraction (`marketCap` reads a missing cap as 0). */
  function NumericKey(f: SortField): Option<Record -> real>
  {
    match f
    case PriceField => Some(PriceOf)
    case ChangeField => Some(ChangePercentOf)
    case VolumeField => Some(VolumeOf)
    case MarketCapField => Some(MarketCapOf)
    case _ => None
  }

  /** `sortOrder * a.symbol.localeCompare(b.symbol)`, with `localeCompare` as code-point order. */
  function SymbolOrder(ascending: bool): (Record, Record) -> real
  {
    (a: Record, b: Record) => (if ascending then StrCompare(a.symbol, b.symbol) else -StrCompare(a.symbol, b.symbol)) as real
  }

  /** The comparator `GET /` hands to `sort`; the `default` branch calls every pair equal. */
  function Comparator(f: SortField, ascending: bool): (Record, Record) -> real
  {
    match f
    case SymbolField => SymbolOrder(ascending)
    case OtherField => (a: Record, b: Record) => 0.0
    case _ => ByKey(NumericKey(f).value, ascending)
  }

  /** Text order on symbols is a consistent comparator in either direction. */
  lemma SymbolOrderConsistent(ascending: bool)
    ensures Consistent(SymbolOrder(ascending))
  {
    var cmp := SymbolOrder(ascending);
    forall a: Record, b: Record ensures cmp(a, b) == -cmp(b, a) {
      StrCompareAntisymmetric(a.symbol, b.symbol);
    }
    forall a: Record, b: Record, c: Record | cmp(a, b) <= 0.0 && cmp(b, c) <= 0.0 ensures cmp(a, c) <= 0.0 {
      StrCompareAntisymmetric(a.symbol, b.symbol);
      StrCompareAntisymmetric(b.symbol, c.symbol);
      StrCompareAntisymmetric(a.symbol, c.symbol);
      if ascending {
        StrCompareTransitive(a.symbol, b.symbol, c.symbol);
      } else {
        StrCompareTransitive(c.symbol, b.symbol, a.symbol);
      }
    }
  }

  /** Sorting by symbol orders the symbols as text, ascending or descending. */
  lemma SymbolSortedKeys(s: seq<Record>, ascending: bool)
    ensures var r := SortBy(s, SymbolOrder(ascending));
      forall i, j :: 0 <= i < j < |r| ==> if ascending then StrCompare(r[i].symbol, r[j].symbol) <= 0 else StrCompare(r[i].symbol, r[j].symbol) >= 0
  {
    var cmp := SymbolOrder(ascending);
    SymbolOrderConsistent(ascending);
    SortBySorted(s, cmp);
    var r := SortBy(s, cmp);
    forall i, j | 0 <= i < j < |r|
      ensures if ascending then StrCompare(r[i].symbol, r[j].symbol) <= 0 else StrCompare(r[i].symbol, r[j].symbol) >= 0
    {
      assert cmp(r[i], r[j]) <= 0.0;
    }
  }

  /** Inserting past elements that all compare equal appends. */
  lemma {:induction false} InsertTies<T>(x: T, s: seq<T>, cmp: (T, T) -> real)
    requires forall y :: y in s ==> cmp(y, x) == 0.0
    ensures Insert(x, s, cmp) == s + [x]
  {
    if s != [] {
      assert s[0] in s;
      InsertTies(x, s[1..], cmp);
      assert s == [s[0]] + s[1..];
    }
  }

  /** A sort whose comparator calls every pair equal keeps the order: the sort is stable. */
  lemma {:induction false} SortByTies<T>(s: seq<T>, cmp: (T, T) -> real)
    requires forall a, b :: cmp(a, b) == 0.0
    ensures SortBy(s, cmp) == s
  {
    if s != [] {
      SortByTies(s[..|s| - 1], cmp);
      InsertTies(s[|s| - 1], s[..|s| - 1], cmp);
      assert s[..|s| - 1] + [s[|s| - 1]] == s;
    }
  }

  /** The list `GET /` answers with: filtered, then sorted when `sort` is given, ascending only for `order=asc`. */
  function ListResult(data: seq<Record>, q: ListQuery): seq<Record>
  {
    if q.sort != "" then SortBy(ListFiltered(data, q), Comparator(SortFieldOf(q.sort), q.order == "asc"))
    else ListFiltered(data, q)
  }

  /**
   * The answer holds the matching records, each as often as the filters
   * leave it, and an unknown sort key keeps the store's order.
   */
  lemma ListResultSpec(data: seq<Record>, q: ListQuery)
    ensures multiset(ListResult(data, q)) == multiset(ListFiltered(data, q))
    ensures forall x :: x in ListResult(data, q) <==> x in data && ListMatches(q, x)
    ensures SortFieldOf(q.sort) == OtherField ==> ListResult(data, q) == ListFiltered(data, q)
  {
    ListFilteredSpec(data, q);
    var filtered := ListFiltered(data, q);
    assert forall x :: x in ListResult(data, q) <==> x in multiset(filtered);
    if q.sort != "" && SortFieldOf(q.sort) == OtherField {
      SortByTies(filtered, Comparator(OtherField, q.order == "asc"));
    }
  }

  lemma KeySortResult(data: seq<Record>, q: ListQuery)
    requires NumericKey(SortFieldOf(q.sort)).Some?
    ensures ListResult(data, q) == SortBy(ListFiltered(data, q), ByKey(NumericKey(SortFieldOf(q.sort)).value, q.order == "asc"))
  {
  }

  lemma SymbolSortResult(data: seq<Record>, q: ListQuery)
    requires SortFieldOf(q.sort) == SymbolField
    ensures ListResult(data, q) == SortBy(ListFiltered(data, q), SymbolOrder(q.order == "asc"))
  {
  }

  /** A numeric key orders the answer ascending for `order=asc` and descending otherwise. */
  lemma ListSortedByKey(data: seq<Record>, q: ListQuery)
    requires NumericKey(SortFieldOf(q.sort)).Some?
    ensures var r := ListResult(data, q); var key := NumericKey(SortFieldOf(q.sort)).value;
      forall i, j :: 0 <= i < j < |r| ==> if q.order == "asc" then key(r[i]) <= key(r[j]) else key(r[i]) >= key(r[j])
  {
    KeySortResult(data, q);
    ByKeySortedKeys(ListFiltered(data, q), NumericKey(SortFieldOf(q.sort)).value, q.order == "asc");
  }

  /** `sort=symbol` orders the answer by symbol as text, ascending for `order=asc` and descending otherwise. */
  lemma ListSortedBySymbol(data: seq<Record>, q: ListQuery)
    requires SortFieldOf(q.sort) == SymbolField
    ensures var r := ListResult(data, q);
      forall i, j :: 0 <= i < j < |r| ==> if q.order == "asc" then StrCompare(r[i].symbol, r[j].symbol) <= 0 else StrCompare(r[i].symbol, r[j].symbol) >= 0
  {
    SymbolSortResult(data, q);
    SymbolSortedKeys(ListFiltered(data, q), q.order == "asc");
  }

  /**
   * `GET /`: filter, then sort. While no filter has copied the list it is the
   * store's array, and sorting it reorders the store.
   */
  method ListAll(store: DRStore, q: ListQuery) returns (list: seq<Record>)
    requires store.Valid()
    modifies store
    ensures store.Valid()
    ensures list == ListResult(old(store.drData), q)
    ensures store.drData == if NoFilter(q) && q.sort != "" then list else old(store.drData)
    ensures multiset(store.drData) == multiset(old(store.drData))
    ensures store.brokerData == old(store.brokerData) && store.marketOverview == old(store.marketOverview)
    ensures store.rankings == old(store.rankings) && store.lastUpdateTime == old(store.lastUpdateTime)
  {
    list := store.drData;
    var shared := true;
    if Selects(q.country) {
      list := Filter(list, (r: Record) => r.country == q.country);
      shared := false;
    }
    if Selects(q.sector) {
      list := Filter(list, (r: Record) => r.sector == q.sector);
      shared := false;
    }
    if q.issuer != "" {
      list := Filter(list, (r: Record) => Contains(r.issuer, q.issuer));
      shared := false;
    }
    if q.sort != "" {
      if shared {
        store.SortInPlace(Comparator(SortFieldOf(q.sort), q.order == "asc"));
        list := store.drData;
      } else {
        list := SortBy(list, Comparator(SortFieldOf(q.sort), q.order == "asc"));
      }
    }
  }

  // ----- GET /search --------------------------------------------------------------

  /** The lower-cased term occurs in the lower-cased symbol, name or underlying. */
  predicate SearchHit(term: string, r: Record)
  {
    Contains(ToLower(r.symbol), term) || Contains(ToLower(r.name), term) || Contains(ToLower(r.underlying), term)
  }

  /** `GET /search`: 400 without `q`, else the hits in store order. */
  function Search(data: seq<Record>, q: string): (r: Result<seq<Record>>)
    ensures r.Err? <==> q == ""
    ensures r.Err? ==> r.error.BadRequest?
    ensures r.Ok? ==> forall x :: x in r.value <==> x in data && SearchHit(ToLower(q), x)
    ensures r.Ok? ==> multiset(r.value) <= multiset(data)
  {
    if q == "" then Err(BadRequest("Query parameter \"q\" is required"))
    else
      var term := ToLower(q);
      Ok(Filter(data, (x: Record) => SearchHit(term, x)))
  }

  lemma LowerUpper(s: string)
    ensures ToLower(ToUpper(s)) == ToLower(s)
  {
  }

  /** The search ignores the case of the term: an upper-cased term finds the same records. */
  lemma SearchIgnoresCase(data: seq<Record>, q: string)
    ensures Search(data, ToUpper(q)) == Search(data, q)
  {
    LowerUpper(q);
  }

  lemma ContainsSelf(s: string)
    ensures Contains(s, s)
  {
    ContainsIff(s, s);
    assert WindowAt(s, s, 0);
  }

  /** A record whose symbol is the term, in any case, is always found. */
  lemma SearchFindsSymbol(data: seq<Record>, q: string, x: Record)
    requires q != "" && x in data && ToLower(x.symbol) == ToLower(q)
    ensures x in Search(data, q).value
  {
    ContainsSelf(ToLower(q));
  }

  // ----- GET /top/* ----------------------------------------------------------------

  /** `GET /top/gainers`: the records with a positive change, largest first, cut to the limit. */
  function TopGainers(data: seq<Record>, limit: string): seq<Record>
  {
    TopN(Filter(data, IsGainer), ByKey(ChangePercentOf, false), Limit(limit))
  }

  /** `GET /top/losers`: the records with a negative change, most negative first, cut to the limit. */
  function TopLosers(data: seq<Record>, limit: string): seq<Record>
  {
    TopN(Filter(data, IsLoser), ByKey(ChangePercentOf, true), Limit(limit))
  }

  /**
   * The first `n` by a key: drawn from `s`, ordered by the key, `n` long (or
   * all of `s`) for a positive `n`, never longer than `s`, and no record
   * left out beats one kept.
   */
  lemma LimitedTop(s: seq<Record>, key: Record -> real, ascending: bool, n: int)
    ensures var r := TopN(s, ByKey(key, ascending), n);
      && multiset(r) <= multiset(s)
      && |r| <= |s|
      && (n > 0 ==> |r| == if n < |s| then n else |s|)
      && (forall i, j :: 0 <= i < j < |r| ==> if ascending then key(r[i]) <= key(r[j]) else key(r[i]) >= key(r[j]))
      && (forall x, y :: x in r && y in multiset(s) - multiset(r) ==> if ascending then key(x) <= key(y) else key(x) >= key(y))
  {
    var cmp := ByKey(key, ascending);
    ByKeyConsistent(key, ascending);
    TopNSpec(s, cmp, n);
    var r := TopN(s, cmp, n);
    forall i, j | 0 <= i < j < |r| ensures if ascending then key(r[i]) <= key(r[j]) else key(r[i]) >= key(r[j]) {
      assert cmp(r[i], r[j]) <= 0.0;
    }
    forall x, y | x in r && y in multiset(s) - multiset(r) ensures if ascending then key(x) <= key(y) else key(x) >= key(y) {
      assert cmp(x, y) <= 0.0;
    }
  }

  /**
   * How many of `count` candidates `slice(0, n)` keeps: `n` of them, or all
   * when there are fewer, and for a negative `n` all but the last `-n`.
   */
  function TopLength(count: nat, n: int): (k: nat)
    ensures k <= count
    ensures n > 0 && n <= count ==> k == n
  {
    if n >= 0 then (if n < count then n else count)
    else if count + n > 0 then count + n else 0
  }

  /** The list is as long as `slice(0, limit)` of all the gainers. */
  lemma TopGainersLength(data: seq<Record>, limit: string)
    ensures |TopGainers(data, limit)| == TopLength(CountWhere(data, IsGainer), Limit(limit))
  {
    TopNLength(Filter(data, IsGainer), ByKey(ChangePercentOf, false), Limit(limit));
  }

  /** Every gainer listed gained, the list is non-increasing, exactly `limit` long when there are that many, and no gainer left out gained more. */
  lemma TopGainersSpec(data: seq<Record>, limit: string)
    ensures var r := TopGainers(data, limit);
      && (forall x :: x in r ==> x in data && x.changePercent > 0.0)
      && (forall i, j :: 0 <= i < j < |r| ==> r[i].changePercent >= r[j].changePercent)
      && |r| <= CountWhere(data, IsGainer)
      && (forall x, y :: x in r && y in multiset(Filter(data, IsGainer)) - multiset(r) ==> x.changePercent >= y.changePercent)
    ensures |TopGainers(data, limit)| == TopLength(CountWhere(data, IsGainer), Limit(limit))
  {
    var s := Filter(data, IsGainer);
    var r := TopGainers(data, limit);
    LimitedTop(s, ChangePercentOf, false, Limit(limit));
    forall i, j | 0 <= i < j < |r| ensures r[i].changePercent >= r[j].changePercent {
      assert ChangePercentOf(r[i]) >= ChangePercentOf(r[j]);
    }
    forall x, y | x in r && y in multiset(s) - multiset(r) ensures x.changePercent >= y.changePercent {
      assert ChangePercentOf(x) >= ChangePercentOf(y);
    }
    forall x | x in r ensures x in data && x.changePercent > 0.0 {
      assert x in multiset(Filter(data, IsGainer));
    }
    TopGainersLength(data, limit);
  }

  /** The list is as long as `slice(0, limit)` of all the losers. */
  lemma TopLosersLength(data: seq<Record>, limit: string)
    ensures |TopLosers(data, limit)| == TopLength(CountWhere(data, IsLoser), Limit(limit))
  {
    TopNLength(Filter(data, IsLoser), ByKey(ChangePercentOf, true), Limit(limit));
  }

  /** Every loser listed lost, the list is non-decreasing, exactly `limit` long when there are that many, and no loser left out lost more. */
  lemma TopLosersSpec(data: seq<Record>, limit: string)
    ensures var r := TopLosers(data, limit);
      && (forall x :: x in r ==> x in data && x.changePercent < 0.0)
      && (forall i, j :: 0 <= i < j < |r| ==> r[i].changePercent <= r[j].changePercent)
      && |r| <= CountWhere(data, IsLoser)
      && (forall x, y :: x in r && y in multiset(Filter(data, IsLoser)) - multiset(r) ==> x.changePercent <= y.changePercent)
    ensures |TopLosers(data, limit)| == TopLength(CountWhere(data, IsLoser), Limit(limit))
  {
    var s := Filter(data, IsLoser);
    var r := TopLosers(data, limit);
    LimitedTop(s, ChangePercentOf, true, Limit(limit));
    forall i, j | 0 <= i < j < |r| ensures r[i].changePercent <= r[j].changePercent {
      assert ChangePercentOf(r[i]) <= ChangePercentOf(r[j]);
    }
    forall x, y | x in r && y in multiset(s) - multiset(r) ensures x.changePercent <= y.changePercent {
      assert ChangePercentOf(x) <= ChangePercentOf(y);
    }
    forall x | x in r ensures x in data && x.changePercent < 0.0 {
      assert x in multiset(Filter(data, IsLoser));
    }
    TopLosersLength(data, limit);
  }

  /**
   * `GET /top/volume` and `GET /top/value`: sort the store's own array by the
   * key, largest first, and answer with its first `limit` records.
   */
  method SortedTop(store: DRStore, key: Record -> real, limit: string) returns (list: seq<Record>)
    requires store.Valid()
    modifies store
    ensures store.Valid()
    ensures store.drData == SortBy(old(store.drData), ByKey(key, false))
    ensures multiset(store.drData) == multiset(old(store.drData))
    ensures list == TopN(old(store.drData), ByKey(key, false), Limit(limit))
    ensures store.brokerData == old(store.brokerData) && store.marketOverview == old(store.marketOverview)
    ensures store.rankings == old(store.rankings) && store.lastUpdateTime == old(store.lastUpdateTime)
  {
    store.SortInPlace(ByKey(key, false));
    list := SlicePrefix(store.drData, Limit(limit));
  }

  method TopVolume(store: DRStore, limit: string) returns (list: seq<Record>)
    requires store.Valid()
    modifies store
    ensures store.Valid()
    ensures store.drData == SortBy(old(store.drData), ByKey(VolumeOf, false))
    ensures list == TopN(old(store.drData), ByKey(VolumeOf, false), Limit(limit))
    ensures store.brokerData == old(store.brokerData) && store.marketOverview == old(store.marketOverview)
    ensures store.rankings == old(store.rankings) && store.lastUpdateTime == old(store.lastUpdateTime)
  {
    list := SortedTop(store, VolumeOf, limit);
  }

  method TopValue(store: DRStore, limit: string) returns (list: seq<Record>)
    requires store.Valid()
    modifies store
    ensures store.Valid()
    ensures store.drData == SortBy(old(store.drData), ByKey(ValueOf, false))
    ensures list == TopN(old(store.drData), ByKey(ValueOf, false), Limit(limit))
    ensures store.brokerData == old(store.brokerData) && store.marketOverview == old(store.marketOverview)
    ensures store.rankings == old(store.rankings) && store.lastUpdateTime == old(store.lastUpdateTime)
  {
    list := SortedTop(store, ValueOf, limit);
  }

  // ----- POST /filter ----------------------------------------------------------------

  /** The screener body; a numeric bound of `0.0` is missing, as `0` is falsy. */
  datatype Criteria = Criteria(
    country: string, sector: string,
    minMarketCap: real, maxMarketCap: real,
    minPE: real, maxPE: real,
    minDividend: real, hasDividend: bool, nightTrading: bool)

  /** `tradingHours` mentions the night session. */
  predicate NightListed(r: Record) { Contains(r.tradingHours, "กลางคืน") }

  /** `dr.pe && ...`: a missing or zero P/E fails any P/E bound. */
  predicate PEPresent(r: Record) { r.pe.Some? && r.pe.value != 0.0 }

  /** The place criteria: country and sector, skipped for `"All"`. */
  predicate PlaceOk(c: Criteria, r: Record)
  {
    && (Selects(c.country) ==> r.country == c.country)
    && (Selects(c.sector) ==> r.sector == c.sector)
  }

  /** The valuation criteria: market cap bounds read a missing cap as 0, P/E bounds need a P/E. */
  predicate ValuationOk(c: Criteria, r: Record)
  {
    && (c.minMarketCap != 0.0 ==> MarketCapOf(r) >= c.minMarketCap)
    && (c.maxMarketCap != 0.0 ==> MarketCapOf(r) <= c.maxMarketCap)
    && (c.minPE != 0.0 ==> PEPresent(r) && r.pe.value >= c.minPE)
    && (c.maxPE != 0.0 ==> PEPresent(r) && r.pe.value <= c.maxPE)
  }

  /** The income and session criteria: a missing dividend is 0 for the bound, `hasDividend` needs a positive one. */
  predicate IncomeOk(c: Criteria, r: Record)
  {
    && (c.minDividend != 0.0 ==> r.dividend.GetOr(0.0) >= c.minDividend)
    && (c.hasDividend ==> r.dividend.Some? && r.dividend.value > 0.0)
    && (c.nightTrading ==> NightListed(r))
  }

  /** What the screener asks of a DR: every active criterion holds. */
  predicate Passes(c: Criteria, r: Record) { PlaceOk(c, r) && ValuationOk(c, r) && IncomeOk(c, r) }

  /** Applies `p` when the criterion is set. */
  function FilterIf(s: seq<Record>, active: bool, p: Record -> bool): (r: seq<Record>)
    ensures forall x :: x in r <==> x in s && (active ==> p(x))
    ensures multiset(r) <= multiset(s)
  {
    if active then Filter(s, p) else s
  }

  function ScreenPlace(data: seq<Record>, c: Criteria): seq<Record>
  {
    var d := FilterIf(data, Selects(c.country), (r: Record) => r.country == c.country);
    FilterIf(d, Selects(c.sector), (r: Record) => r.sector == c.sector)
  }

  function ScreenValuation(data: seq<Record>, c: Criteria): seq<Record>
  {
    var d1 := FilterIf(data, c.minMarketCap != 0.0, (r: Record) => MarketCapOf(r) >= c.minMarketCap);
    var d2 := FilterIf(d1, c.maxMarketCap != 0.0, (r: Record) => MarketCapOf(r) <= c.maxMarketCap);
    var d3 := FilterIf(d2, c.minPE != 0.0, (r: Record) => PEPresent(r) && r.pe.value >= c.minPE);
    FilterIf(d3, c.maxPE != 0.0, (r: Record) => PEPresent(r) && r.pe.value <= c.maxPE)
  }

  function ScreenIncome(data: seq<Record>, c: Criteria): seq<Record>
  {
    var d1 := FilterIf(data, c.minDividend != 0.0, (r: Record) => r.dividend.GetOr(0.0) >= c.minDividend);
    var d2 := FilterIf(d1, c.hasDividend, (r: Record) => r.dividend.Some? && r.dividend.value > 0.0);
    FilterIf(d2, c.nightTrading, NightListed)
  }

  /** `POST /filter`: the nine filters in the handler's order. */
  function Screen(data: seq<Record>, c: Criteria): seq<Record>
  {
    ScreenIncome(ScreenValuation(ScreenPlace(data, c), c), c)
  }

  lemma ScreenPlaceSpec(data: seq<Record>, c: Criteria)
    ensures forall x :: x in ScreenPlace(data, c) <==> x in data && PlaceOk(c, x)
    ensures multiset(ScreenPlace(data, c)) <= multiset(data)
  {
  }

  lemma ScreenValuationSpec(data: seq<Record>, c: Criteria)
    ensures forall x :: x in ScreenValuation(data, c) <==> x in data && ValuationOk(c, x)
    ensures multiset(ScreenValuation(data, c)) <= multiset(data)
  {
  }

  lemma ScreenIncomeSpec(data: seq<Record>, c: Criteria)
    ensures forall x :: x in ScreenIncome(data, c) <==> x in data && IncomeOk(c, x)
    ensures multiset(ScreenIncome(data, c)) <= multiset(data)
  {
  }

  /** The chained filters keep exactly the records that pass every active criterion, never adding one. */
  lemma ScreenSpec(data: seq<Record>, c: Criteria)
    ensures forall x :: x in Screen(data, c) <==> x in data && Passes(c, x)
    ensures multiset(Screen(data, c)) <= multiset(data)
  {
    var d1 := ScreenPlace(data, c);
    var d2 := ScreenValuation(d1, c);
    ScreenPlaceSpec(data, c);
    ScreenValuationSpec(d1, c);
    ScreenIncomeSpec(d2, c);
  }

  /**
   * The screener treats missing values unevenly: with only a maximum market
   * cap set, a DR with no market cap passes (it counts as 0), while with only
   * a P/E bound set, a DR with no P/E never does.
   */
  lemma ScreenMissingValues(data: seq<Record>, x: Record, bound: real)
    requires x in data && x.marketCap.None? && x.pe.None? && bound > 0.0
    ensures x in Screen(data, Criteria("", "", 0.0, bound, 0.0, 0.0, 0.0, false, false))
    ensures x !in Screen(data, Criteria("", "", 0.0, 0.0, 0.0, bound, 0.0, false, false))
  {
    ScreenSpec(data, Criteria("", "", 0.0, bound, 0.0, 0.0, 0.0, false, false));
    ScreenSpec(data, Criteria("", "", 0.0, 0.0, 0.0, bound, 0.0, false, false));
  }

  // ----- GET /compare ---------------------------------------------------------------

  /** `symbols.split(',').map(s => s.trim().toUpperCase())`. */
  function RequestedSymbols(symbols: string): (r: seq<string>)
    ensures |r| == |Split(symbols, ',')|
  {
    var pieces := Split(symbols, ',');
    seq(|pieces|, i requires 0 <= i < |pieces| => ToUpper(Trim(pieces[i])))
  }

  lemma UpperHasNoLower(s: string)
    ensures forall c :: c in ToUpper(s) ==> !IsLowerAscii(c)
  {
    forall c | c in ToUpper(s) ensures !IsLowerAscii(c) {
      var i :| 0 <= i < |s| && ToUpper(s)[i] == c;
    }
  }

  lemma UpperKeepsOut(s: string, sep: char)
    requires sep !in s && !IsLowerAscii(sep) && !IsUpperAscii(sep)
    ensures sep !in ToUpper(s)
  {
  }

  lemma TrimKeepsOut(s: string, sep: char)
    requires sep !in s
    ensures sep !in Trim(s)
  {
    TrimStartSpec(s);
    var t := TrimStart(s);
    assert forall c :: c in t ==> c in s;
    assert forall c :: c in TrimEnd(t) ==> c in t;
  }

  /** Each requested symbol is upper case and holds no comma. */
  lemma RequestedSymbolsSpec(symbols: string)
    ensures forall i :: 0 <= i < |RequestedSymbols(symbols)| ==>
      ',' !in RequestedSymbols(symbols)[i] && forall c :: c in RequestedSymbols(symbols)[i] ==> !IsLowerAscii(c)
  {
    var pieces := Split(symbols, ',');
    forall i | 0 <= i < |pieces|
      ensures ',' !in RequestedSymbols(symbols)[i] && forall c :: c in RequestedSymbols(symbols)[i] ==> !IsLowerAscii(c)
    {
      TrimKeepsOut(pieces[i], ',');
      UpperKeepsOut(Trim(pieces[i]), ',');
      UpperHasNoLower(Trim(pieces[i]));
    }
  }

  /** `symbolList.map(find).filter(Boolean)`: the first DR for each requested symbol, unknown ones dropped. */
  function FindAll(data: seq<Record>, symbols: seq<string>): seq<Record>
  {
    if symbols == [] then []
    else
      match FindBySymbol(data, symbols[0])
      case Some(dr) => [dr] + FindAll(data, symbols[1..])
      case None => FindAll(data, symbols[1..])
  }

  predicate Known(data: seq<Record>, symbol: string) { FindBySymbol(data, symbol).Some? }

  /** One DR per known requested symbol: repeats are kept and unknown symbols dropped. */
  lemma {:induction false} FindAllCount(data: seq<Record>, symbols: seq<string>)
    ensures |FindAll(data, symbols)| == CountWhere(symbols, (s: string) => Known(data, s))
  {
    if symbols != [] {
      FindAllCount(data, symbols[1..]);
      CountFront(symbols, (s: string) => Known(data, s));
    }
  }

  /** Each answer is a stored DR for a requested symbol. */
  lemma {:induction false} FindAllMembers(data: seq<Record>, symbols: seq<string>)
    ensures forall x :: x in FindAll(data, symbols) ==> x in data && x.symbol in symbols
  {
    if symbols != [] {
      FindAllMembers(data, symbols[1..]);
    }
  }

  /** When every requested symbol is known, the i-th answer is the DR for the i-th symbol: request order is kept. */
  lemma {:induction false} FindAllInOrder(data: seq<Record>, symbols: seq<string>)
    requires forall i :: 0 <= i < |symbols| ==> FindBySymbol(data, symbols[i]).Some?
    ensures |FindAll(data, symbols)| == |symbols|
    ensures forall i :: 0 <= i < |symbols| ==> FindAll(data, symbols)[i] == FindBySymbol(data, symbols[i]).value
  {
    if symbols != [] {
      assert FindBySymbol(data, symbols[0]).Some?;
      FindAllInOrder(data, symbols[1..]);
      var rest := FindAll(data, symbols[1..]);
      assert FindAll(data, symbols) == [FindBySymbol(data, symbols[0]).value] + rest;
    }
  }

  /** Lookups are made symbol by symbol: the answer for `a + b` is the answer for `a` followed by the answer for `b`. */
  lemma {:induction false} FindAllAppend(data: seq<Record>, a: seq<string>, b: seq<string>)
    ensures FindAll(data, a + b) == FindAll(data, a) + FindAll(data, b)
  {
    if a == [] {
      assert a + b == b;
    } else {
      assert (a + b)[0] == a[0];
      assert (a + b)[1..] == a[1..] + b;
      FindAllAppend(data, a[1..], b);
    }
  }

  /** A single symbol gives its DR when it is known and nothing when it is not. */
  lemma FindAllOne(data: seq<Record>, s: string)
    ensures Known(data, s) ==> FindAll(data, [s]) == [FindBySymbol(data, s).value]
    ensures !Known(data, s) ==> FindAll(data, [s]) == []
  {
    assert [s][1..] == [];
  }

  /** Counting from the front agrees with counting from the back. */
  lemma {:induction false} CountFront<T>(s: seq<T>, p: T -> bool)
    requires s != []
    ensures CountWhere(s, p) == (if p(s[0]) then 1 else 0) + CountWhere(s[1..], p)
  {
    if |s| > 1 {
      CountFront(s[..|s| - 1], p);
      assert s[..|s| - 1][1..] == s[1..][..|s[1..]| - 1];
      assert s[..|s| - 1][0] == s[0];
    }
  }

  /** `GET /compare`: 400 without `symbols`, else the found DRs. */
  function Compare(data: seq<Record>, symbols: string): (r: Result<seq<Record>>)
    ensures r.Err? <==> symbols == ""
    ensures r.Err? ==> r.error.BadRequest?
  {
    if symbols == "" then Err(BadRequest("Parameter \"symbols\" is required (comma-separated)"))
    else Ok(FindAll(data, RequestedSymbols(symbols)))
  }

  /** Every compared DR is stored, and its symbol is one of the requested ones after trimming and upper-casing. */
  lemma CompareSpec(data: seq<Record>, symbols: string)
    requires symbols != ""
    ensures |Compare(data, symbols).value| <= |Split(symbols, ',')|
    ensures forall x :: x in Compare(data, symbols).value ==>
      x in data && exists i :: 0 <= i < |Split(symbols, ',')| && x.symbol == ToUpper(Trim(Split(symbols, ',')[i]))
  {
    var req := RequestedSymbols(symbols);
    FindAllCount(data, req);
    FindAllMembers(data, req);
    forall x | x in Compare(data, symbols).value
      ensures exists i :: 0 <= i < |Split(symbols, ',')| && x.symbol == ToUpper(Trim(Split(symbols, ',')[i]))
    {
      var i :| 0 <= i < |req| && req[i] == x.symbol;
    }
  }

  // ----- GET /:symbol and GET /market-overview -----------------------------------------

  /** `GET /:symbol`: the stored DR for the upper-cased symbol, or 404. */
  function GetBySymbol(store: DRStore, symbol: string): (r: Result<Record>)
    reads store
    ensures r.Ok? ==> r.value in store.drData && r.value.symbol == ToUpper(symbol)
    ensures r.Err? <==> forall x :: x in store.drData ==> x.symbol != ToUpper(symbol)
    ensures r.Err? ==> r.error.NotFound?
  {
    match store.GetDRBySymbol(ToUpper(symbol))
    case Some(dr) => Ok(dr)
    case None => Err(NotFound("DR with symbol \"" + symbol + "\" not found"))
  }

  /** The lookup ignores case as far as which DR it finds. */
  lemma GetBySymbolIgnoresCase(store: DRStore, symbol: string)
    ensures GetBySymbol(store, symbol).Ok? <==> GetBySymbol(store, ToUpper(symbol)).Ok?
    ensures GetBySymbol(store, symbol).Ok? ==> GetBySymbol(store, symbol).value == GetBySymbol(store, ToUpper(symbol)).value
  {
    ToUpperIdempotent(symbol);
  }

  /** `GET /market-overview`: the stored overview, or 404 while none is stored. */
  function MarketOverview(store: DRStore): (r: Result<Overview>)
    reads store
    ensures r.Ok? <==> store.marketOverview.Some?
    ensures r.Ok? ==> r.value == store.marketOverview.value
    ensures r.Err? ==> r.error.NotFound?
  {
    match store.marketOverview
    case Some(o) => Ok(o)
    case None => Err(NotFound("Market overview data not available"))
  }
}
