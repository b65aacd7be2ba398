/**
 * The scrape service's in-memory store: the module-level DR list, broker
 * cache, market overview, rankings and last-update time, and the operations
 * that reassign them. Every fetch is an input describing its outcome; the
 * timestamp is the input `now`.
 */
module Store {
  import opened Wrappers
  import opened Sorting
  import opened Records
  import opened Fallback
  import opened Snapshot

  /** A scraper's outcome as the scrapers deliver it: every record classified and carrying an issuer code. */
  predicate Delivered(outcome: Option<seq<Record>>)
  {
    outcome.Some? ==> forall r :: r in outcome.value ==> WellClassified(r) && r.issuerCode.Some?
  }

  /** Both scrapers deliver in that shape. */
  lemma ScrapersDeliver(setApi: Option<seq<SetItem>>, table: Option<seq<seq<string>>>, now: string)
    ensures Delivered(SetScrape(setApi, now))
    ensures Delivered(WarrantScrape(table, now))
  {
    SetScrapeClassified(setApi, now);
    WarrantScrapeClassified(table, now);
  }

  /**
   * The records `loadInitialData` keeps from the live sources: SET's when it
   * yields any, else ThaiWarrant's when it yields any, else nothing.
   */
  function FirstLive(fromSet: Option<seq<Record>>, fromWarrant: Option<seq<Record>>): (r: Option<seq<Record>>)
    ensures r.Some? ==> |r.value| > 0
    ensures r.None? <==> (fromSet.None? || fromSet.value == []) && (fromWarrant.None? || fromWarrant.value == [])
    ensures fromSet.Some? && fromSet.value != [] ==> r == fromSet
  {
    if fromSet.Some? && |fromSet.value| > 0 then fromSet
    else if fromWarrant.Some? && |fromWarrant.value| > 0 then fromWarrant
    else None
  }

  /**
   * Source order on the raw inputs: ThaiWarrant matters only when SET yields
   * `null` or no items, and the fallback is used only when neither yields a record.
   */
  lemma SourceOrder(setApi: Option<seq<SetItem>>, table: Option<seq<seq<string>>>, other: Option<seq<seq<string>>>, now: string)
    ensures SetResponseUsable(setApi) && |setApi.value| > 0 ==>
      FirstLive(SetScrape(setApi, now), WarrantScrape(table, now)) == FirstLive(SetScrape(setApi, now), WarrantScrape(other, now))
    ensures FirstLive(SetScrape(setApi, now), WarrantScrape(table, now)).None? <==>
      (!SetResponseUsable(setApi) || setApi.value == []) && (table.None? || WarrantRecords(table.value, now) == [])
  {
  }

  /**
   * Both scrapers set an issuer code on every record, so the legacy
   * `processDRData` branch, taken only when the first record has none, is
   * never taken.
   */
  lemma LegacyBranchUnreachable(fromSet: Option<seq<Record>>, fromWarrant: Option<seq<Record>>)
    requires Delivered(fromSet) && Delivered(fromWarrant)
    requires FirstLive(fromSet, fromWarrant).Some?
    ensures FirstLive(fromSet, fromWarrant).value[0].issuerCode.Some?
  {
    assert FirstLive(fromSet, fromWarrant).value[0] in FirstLive(fromSet, fromWarrant).value;
  }

  /**
   * The market-overview request: it failed (navigation or `JSON.parse`
   * threw), or its body parsed, where `None` stands for a falsy value such
   * as JSON `null`.
   */
  datatype OverviewFetch = OverviewFailed | OverviewParsed(parsed: Option<Overview>)

  /** What `updateMarketExtraData`'s browser session produced. */
  datatype ExtraFetch =
    | BrowserFailed
    | Fetched(overview: OverviewFetch, gainers: Option<seq<Record>>, losers: Option<seq<Record>>, active: Option<seq<Record>>)

  /** The stored overview is left alone: the browser or the overview request failed. */
  predicate KeepsOverview(fetch: ExtraFetch)
  {
    fetch.BrowserFailed? || fetch.overview.OverviewFailed?
  }

  /** The overview after the fetch and the local fallback. */
  function OverviewAfter(prev: Option<Overview>, fetch: ExtraFetch, data: seq<Record>): (r: Option<Overview>)
    ensures r.None? <==> data == [] && (if KeepsOverview(fetch) then prev.None? else fetch.overview.parsed.None?)
  {
    var fetched := if KeepsOverview(fetch) then prev else fetch.overview.parsed;
    if fetched.None? && |data| > 0 then Some(ComputeOverview(data)) else fetched
  }

  /**
   * A failed request keeps the stored overview, a parsed body replaces it
   * (even a `null` one), and the overview is computed locally exactly when
   * the result is still missing and there are DRs.
   */
  lemma OverviewFallback(prev: Option<Overview>, fetch: ExtraFetch, data: seq<Record>)
    ensures KeepsOverview(fetch) && prev.Some? ==> OverviewAfter(prev, fetch, data) == prev
    ensures !KeepsOverview(fetch) && (fetch.overview.parsed.Some? || data == []) ==>
      OverviewAfter(prev, fetch, data) == fetch.overview.parsed
    ensures data != [] && (if KeepsOverview(fetch) then prev.None? else fetch.overview.parsed.None?) ==>
      OverviewAfter(prev, fetch, data) == Some(ComputeOverview(data))
  {
  }

  /** The rankings after the fetch and the local fallback. */
  function RankingsAfter(prev: Rankings, fetch: ExtraFetch, data: seq<Record>): (r: Rankings)
    ensures data != [] ==> r.topGainers != []
  {
    var fetched := if fetch.Fetched? then Rankings(fetch.gainers.GetOr([]), fetch.losers.GetOr([]), fetch.active.GetOr([])) else prev;
    if |fetched.topGainers| == 0 && |data| > 0 then
      ComputeRankingsSpec(data);
      ComputeRankings(data)
    else fetched
  }

  /**
   * Fetched rankings with gainers stand as fetched, with an empty list for a
   * missing losers or most-active list; stored ones with gainers survive a
   * browser failure; with no DRs nothing is computed.
   */
  lemma RankingsKept(prev: Rankings, fetch: ExtraFetch, data: seq<Record>)
    ensures fetch.Fetched? && fetch.gainers.Some? && fetch.gainers.value != [] ==>
      RankingsAfter(prev, fetch, data) == Rankings(fetch.gainers.value, fetch.losers.GetOr([]), fetch.active.GetOr([]))
    ensures fetch.BrowserFailed? && prev.topGainers != [] ==> RankingsAfter(prev, fetch, data) == prev
    ensures data == [] ==>
      RankingsAfter(prev, fetch, data) ==
        (if fetch.Fetched? then Rankings(fetch.gainers.GetOr([]), fetch.losers.GetOr([]), fetch.active.GetOr([])) else prev)
  {
  }

  /** Rankings are computed locally when the gainers list is still empty and there are DRs. */
  lemma RankingsFallback(prev: Rankings, fetch: ExtraFetch, data: seq<Record>)
    requires data != []
    requires fetch.BrowserFailed? ==> prev.topGainers == []
    requires fetch.Fetched? ==> fetch.gainers.None? || fetch.gainers.value == []
    ensures RankingsAfter(prev, fetch, data) == ComputeRankings(data)
    ensures |RankingsAfter(prev, fetch, data).topGainers| <= 10
  {
    ComputeRankingsSpec(data);
  }

  class DRStore {
    var drData: seq<Record>
    var brokerData: seq<BrokerEntry>
    var marketOverview: Option<Overview>
    var rankings: Rankings
    var lastUpdateTime: Option<string>

    /** Every stored DR is classified, and the broker cache is empty or one entry per broker. */
    ghost predicate Valid()
      reads this
    {
      && (forall r :: r in drData ==> WellClassified(r))
      && (brokerData == [] || (|brokerData| == |Brokers| && forall i :: 0 <= i < |Brokers| ==> brokerData[i].broker == Brokers[i]))
    }

    constructor()
      ensures Valid()
      ensures drData == [] && brokerData == [] && marketOverview.None? && rankings == NoRankings && lastUpdateTime.None?
    {
      drData := [];
      brokerData := [];
      marketOverview := None;
      rankings := NoRankings;
      lastUpdateTime := None;
    }

    /**
     * `loadInitialData`: SET's records, else ThaiWarrant's (fetched only then),
     * else the curated fallback, which replaces whatever was stored and is the
     * only path that fills the broker cache.
     */
    method LoadInitialData(fromSet: Option<seq<Record>>, fromWarrant: Option<seq<Record>>, now: string)
      requires Valid() && Delivered(fromSet) && Delivered(fromWarrant)
      modifies this
      ensures Valid()
      ensures FirstLive(fromSet, fromWarrant).Some? ==>
        drData == FirstLive(fromSet, fromWarrant).value && brokerData == old(brokerData)
      ensures FirstLive(fromSet, fromWarrant).None? ==> drData == FallbackDRData(now) && brokerData == BrokerCounts(drData)
      ensures lastUpdateTime == Some(now)
      ensures marketOverview == old(marketOverview) && rankings == old(rankings)
    {
      var scraped := fromSet;
      if scraped.None? || |scraped.value| == 0 {
        scraped := fromWarrant;
      }
      if scraped.Some? && |scraped.value| > 0 {
        drData, lastUpdateTime := scraped.value, Some(now);
        return;
      }
      var fallback := FallbackDRData(now);
      FallbackWellFormed(now);
      drData, brokerData, lastUpdateTime := fallback, BrokerCounts(fallback), Some(now);
    }

    /**
     * `scrapePrices`: when SET yields records, each stored DR takes the quote of
     * the first live record with its symbol; the update time is set either way.
     */
    method ScrapePrices(fromSet: Option<seq<Record>>, now: string)
      requires Valid()
      modifies this
      ensures Valid()
      ensures drData == if fromSet.Some? && |fromSet.value| > 0 then MergePrices(old(drData), fromSet.value) else old(drData)
      ensures lastUpdateTime == Some(now)
      ensures brokerData == old(brokerData) && marketOverview == old(marketOverview) && rankings == old(rankings)
    {
      if fromSet.Some? && |fromSet.value| > 0 {
        MergeKeepsSymbols(drData, fromSet.value);
        drData := MergePrices(drData, fromSet.value);
      }
      lastUpdateTime := Some(now);
    }

    /**
     * `updateMarketExtraData`: stores what the browser fetched, then computes
     * the overview and rankings locally where they are still missing. The DR
     * list itself is not reordered.
     */
    method UpdateMarketExtraData(fetch: ExtraFetch)
      requires Valid()
      modifies this
      ensures Valid()
      ensures marketOverview == OverviewAfter(old(marketOverview), fetch, drData)
      ensures rankings == RankingsAfter(old(rankings), fetch, drData)
      ensures drData == old(drData) && brokerData == old(brokerData) && lastUpdateTime == old(lastUpdateTime)
    {
      var overview := marketOverview;
      var ranked := rankings;
      if fetch.Fetched? {
        if fetch.overview.OverviewParsed? {
          overview := fetch.overview.parsed;
        }
        ranked := Rankings(fetch.gainers.GetOr([]), fetch.losers.GetOr([]), fetch.active.GetOr([]));
      }
      if overview.None? && |drData| > 0 {
        overview := Some(ComputeOverview(drData));
      }
      if |ranked.topGainers| == 0 && |drData| > 0 {
        ranked := ComputeRankings(drData);
      }
      marketOverview, rankings := overview, ranked;
    }

    /** `scrapeAll`: a full load followed by the extra-data update. */
    method ScrapeAll(fromSet: Option<seq<Record>>, fromWarrant: Option<seq<Record>>, fetch: ExtraFetch, now: string)
      requires Valid() && Delivered(fromSet) && Delivered(fromWarrant)
      modifies this
      ensures Valid()
      ensures FirstLive(fromSet, fromWarrant).Some? ==> drData == FirstLive(fromSet, fromWarrant).value
      ensures FirstLive(fromSet, fromWarrant).None? ==> drData == FallbackDRData(now)
      ensures marketOverview == OverviewAfter(old(marketOverview), fetch, drData)
      ensures rankings == RankingsAfter(old(rankings), fetch, drData)
      ensures lastUpdateTime == Some(now)
    {
      LoadInitialData(fromSet, fromWarrant, now);
      UpdateMarketExtraData(fetch);
    }

    /** `getAllBrokers`: the cache when it is filled, else counts over the current list. */
    function GetAllBrokers(): (r: seq<BrokerEntry>)
      requires Valid()
      reads this
      ensures |r| == |Brokers|
      ensures forall i :: 0 <= i < |Brokers| ==> r[i].broker == Brokers[i]
      ensures brokerData != [] ==> r == brokerData
      ensures brokerData == [] ==> forall i :: 0 <= i < |Brokers| ==> r[i].drCount == CountIssuer(drData, Brokers[i].id)
    {
      if |brokerData| > 0 then brokerData else BrokerCounts(drData)
    }

    /** `getDRBySymbol`: the first stored DR with the symbol. */
    function GetDRBySymbol(symbol: string): (r: Option<Record>)
      reads this
      ensures r.Some? ==> r.value in drData && r.value.symbol == symbol
      ensures r.None? <==> forall x :: x in drData ==> x.symbol != symbol
    {
      FindBySymbol(drData, symbol)
    }

    /**
     * `.sort(cmp)` on the array `getAllDRs()` returns, which is the store's own
     * list: the stored order changes, its records do not.
     */
    method SortInPlace(cmp: (Record, Record) -> real)
      requires Valid()
      modifies this
      ensures Valid()
      ensures drData == SortBy(old(drData), cmp)
      ensures multiset(drData) == multiset(old(drData))
      ensures brokerData == old(brokerData) && marketOverview == old(marketOverview)
      ensures rankings == old(rankings) && lastUpdateTime == old(lastUpdateTime)
    {
      var sorted := SortBy(drData, cmp);
      forall r | r in sorted ensures WellClassified(r) {
        assert r in multiset(sorted);
      }
      drData := sorted;
    }
  }

  /** `getBrokerById`: looked up in the static table, never in the cache. */
  function GetBrokerById(id: string): (r: Option<Broker>)
    ensures r.Some? ==> r.value in Brokers && r.value.id == id
    ensures r.None? <==> forall b :: b in Brokers ==> b.id != id
  {
    FindBroker(Brokers, id)
  }

  /**
   * Once the fallback path has filled the broker cache, a price refresh and a
   * later load that finds live data keep returning it, whatever the DR list
   * becomes.
   */
  method BrokerCacheSticks(store: DRStore, now: string, fromSet: Option<seq<Record>>, fromWarrant: Option<seq<Record>>, later: string)
    requires store.Valid() && Delivered(fromSet) && Delivered(fromWarrant)
    requires FirstLive(fromSet, fromWarrant).Some?
    modifies store
    ensures store.Valid()
    ensures store.GetAllBrokers() == BrokerCounts(FallbackDRData(now))
  {
    store.LoadInitialData(None, None, now);
    store.ScrapePrices(fromSet, later);
    store.LoadInitialData(fromSet, fromWarrant, later);
  }
}
