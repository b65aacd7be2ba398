# DR Thailand Hub: a Dafny model of the data core

DR Thailand Hub lists the Depositary Receipts (DRs) traded on the Stock
Exchange of Thailand. The backend keeps an in-memory snapshot of every DR.
It fills the snapshot from the SET DR search API, falls back to a table
scraped from ThaiWarrant, and falls back again to a curated list. It
classifies each DR by country, sector, trading hours and issuing broker,
and serves the snapshot through a REST router: listing, search, top lists,
a screener, statistics, country and sector listings, compare and lookup.
The single-page client adds a few helpers of its own:

- the Bangkok session indicator;
- a trading-hours fallback;
- the TradingView symbol lookup;
- a client-side screener;
- the related-DR lookup;
- the home page's ranking fallback;
- the two compare selections.

The model follows that layout, one module per concern:

| module | file | models |
|---|---|---|
| `Wrappers` | wrappers.dfy | `Option`, `Result` and the two HTTP error kinds (400, 404) |
| `Text` | text.dfy | ASCII case mapping, `includes`/`startsWith`/`endsWith`, trimming, splitting, `/\d+$/`, code-point string order |
| `Numbers` | numbers.dfy | `parseFloat` as a decimal-prefix reader, `parsePrice`, `parseVolume`, `parseInt(q) \|\| 10`, `Math.round`, `slice(0, n)` |
| `Sorting` | sorting.dfy | `Array.prototype.sort` as a stable insertion sort under a comparator; sort-then-slice |
| `Cascade` | cascade.dfy | the first-matching-rule tables every classifier is built from |
| `Classify` | classify.dfy | `detectCountry`, `detectTradingHours`, `detectSector`, `getIssuerCodeFromSuffix`, `getIssuerName`, `getIssuerCode` |
| `Records` | records.dfy | the DR record, the SET item mapping, the ThaiWarrant row loop, `processDRData` |
| `Fallback` | fallback.dfy | `getFallbackDRData` |
| `Snapshot` | snapshot.dfy | filters, sums, symbol lookup, the price merge of `scrapePrices`, the local overview and rankings, broker counts |
| `Store` | store.dfy | the service's module state as a class: `loadInitialData`, `scrapePrices`, `updateMarketExtraData`, `scrapeAll` and the getters |
| `Routes` | routes.dfy | `GET /`, `/search`, `/top/*`, `POST /filter`, `/compare`, `/:symbol`, `/market-overview` |
| `Listings` | listings.dfy | `/stats`, `/countries`, `/sectors`, `getCountryName` |
| `Frontend` | frontend.dfy | the client helpers listed above |

The modelling choices:

- **Numbers.** Numbers are `real`. A JavaScript value that is `undefined`, `null` or `""` is `""` for strings and `None` for optional numbers. The SET item's symbol is the exception: it is an `Option`, because the mapping throws on a missing one.
- **Scrapers.** A scraper's network session becomes its outcome, passed in as a parameter. The SET response is `Option<seq<SetItem>>`; the ThaiWarrant table is `Option<seq<seq<string>>>` of trimmed cells.
- **Store.** The service's module-level variables become the fields of the `DRStore` class. Handlers that call `sort` on the array from `getAllDRs()` modify the store's `drData`. That is the aliasing the source has.
- **Frontend.** Client state set through React setters becomes the `Selection` class. The clock reading of the session indicator is a parameter.

## Model

| member | source | states |
|---|---|---|
| Text.ToUpper | backend/src/routes/dr.js:296 | upper-casing maps every character through the ASCII upper-case map and keeps the length |
| Text.ToLower | backend/src/routes/dr.js:64-68 | lower-casing maps every character through the ASCII lower-case map and keeps the length |
| Text.ToUpperIdempotent | backend/src/routes/dr.js:362-363 | upper-casing twice is upper-casing once |
| Text.ContainsIff | backend/src/routes/dr.js:19 | `includes` holds exactly when the needle occurs at some index |
| Text.StartsWithIff | backend/src/services/scrapeService.js:96 | an anchored regex prefix test holds exactly when the first characters are the needle |
| Text.EndsWithIff | backend/src/services/scrapeService.js:388-408 | a suffix test holds exactly when the last characters are the needle |
| Text.TrailingDigitsSplit | backend/src/services/scrapeService.js:264 | `replace(/\d+$/, '')` and the `\d+$` match split the string in two, the match is all digits and the rest does not end in one |
| Text.TrimStartSpec | backend/src/routes/dr.js:296 | trimming the front drops exactly the leading white space, which is every ECMAScript white-space and line-terminator character (the space separators U+1680, U+2000-U+200A, U+202F, U+205F and U+3000 included) |
| Text.JoinSplit | backend/src/routes/dr.js:296 | splitting on a separator and joining back gives the original string |
| Text.StrCompareAntisymmetric | backend/src/routes/dr.js:28 | string order reverses when its arguments swap, and is 0 only for equal strings |
| Text.StrCompareTransitive | backend/src/routes/dr.js:28 | string order is transitive |
| Numbers.LeadingDigitsSpec | backend/src/services/scrapeService.js:192-196 | the digit run read by `parseFloat` is all digits and stops at the first non-digit |
| Numbers.ParseFloatDecimal | backend/src/services/scrapeService.js:192-196 | a literal `ip.fp` followed by anything that does not continue it parses to its decimal value |
| Numbers.ParseFloatInteger | backend/src/services/scrapeService.js:192-196 | a digit run followed by neither a digit nor a point parses to its integer value |
| Numbers.ParseFloatNegative | backend/src/services/scrapeService.js:346 | a leading minus sign negates the value |
| Numbers.KeepNumericChars | backend/src/services/scrapeService.js:195 | after `replace(/[^0-9.-]/g, '')` only digits, points and minus signs remain |
| Numbers.KeepNumericOne | backend/src/services/scrapeService.js:195 | one character is kept exactly when it is a digit, a point or a minus sign |
| Numbers.KeepNumericAppend | backend/src/services/scrapeService.js:195 | the filter works character by character: what is kept of `a + b` is what is kept of `a` followed by what is kept of `b`, so every digit, point and minus sign of the input survives in order |
| Numbers.KeepNumericIdempotent | backend/src/services/scrapeService.js:195 | removing the noise characters twice is removing them once |
| Numbers.ParsePriceIgnoresNoise | backend/src/services/scrapeService.js:192-196 | `parsePrice` ignores every character other than digits, points and minus signs |
| Numbers.ParsePriceDecimal | backend/src/services/scrapeService.js:192-196 | a plain decimal price is read exactly |
| Numbers.RemoveCommas | backend/src/services/scrapeService.js:200 | no comma survives `replace(/,/g, '')` |
| Numbers.RemoveCommasOne | backend/src/services/scrapeService.js:200 | one character is dropped exactly when it is a comma |
| Numbers.RemoveCommasAppend | backend/src/services/scrapeService.js:200 | commas are dropped character by character: the result for `a + b` is the result for `a` followed by the result for `b`, so every other character survives in order |
| Numbers.RemoveOneComma | backend/src/services/scrapeService.js:200 | a comma between two comma-free parts is dropped and the parts are joined |
| Numbers.VolumeScale | backend/src/services/scrapeService.js:198-208 | the unit is 1e6 iff an `M`/`m` occurs anywhere, else 1e3 iff a `K`/`k` does, else 1e9 iff a `B`/`b` does, else 1 |
| Numbers.ParseVolumeIgnoresCommas | backend/src/services/scrapeService.js:198-208 | commas are ignored wherever they stand |
| Numbers.ParseVolumeUnit | backend/src/services/scrapeService.js:198-208 | a count followed by one unit letter is that count times the letter's scale |
| Numbers.ParseVolumeGrouped | backend/src/services/scrapeService.js:198-208 | a count written with one thousands comma and a unit letter reads as the count without the comma times the letter's scale |
| Numbers.ParseVolumeThousands | backend/src/services/scrapeService.js:198-208 | `1,250K` reads as 1250000 |
| Numbers.DigitsThousands | backend/src/services/scrapeService.js:192-196 | the digits `1250` have the value 1250 |
| Numbers.Limit | backend/src/routes/dr.js:86 | `parseInt(q) \|\| 10` is never 0: a non-numeric or zero limit gives 10, any other parsed limit is kept |
| Numbers.LimitOfHex | backend/src/routes/dr.js:86 | `parseInt` with no radix reads `0x`/`0X` followed by hexadecimal digits in base 16, so `limit=0x5` cuts at 5 and `limit=0x0` falls back to 10 |
| Numbers.LimitOfDigits | backend/src/routes/dr.js:86 | a positive run of digits is taken as the limit |
| Numbers.Round | backend/src/services/scrapeService.js:348 | `Math.round` gives the integer within half a unit, halves rounded up |
| Numbers.SlicePrefix | backend/src/routes/dr.js:90 | `slice(0, n)` is a prefix of length `n` capped at the length, counting back from the end for negative `n` |
| Sorting.Insert | backend/src/routes/dr.js:25-41 | insertion adds exactly the one element |
| Sorting.SortBy | backend/src/routes/dr.js:25-41 | sorting permutes the array: same multiset, same length |
| Sorting.SortBySorted | backend/src/routes/dr.js:25-41 | under a consistent comparator the result is sorted |
| Sorting.TopNLength | backend/src/routes/dr.js:87-90 | sorting keeps every element, so sort-then-slice is as long as the slice of the unsorted list |
| Sorting.TopNSpec | backend/src/routes/dr.js:87-90 | sort-then-slice is sorted, drawn from the input, `min(n, length)` long, and no element left out comes before one kept |
| Sorting.ByKeyConsistent | backend/src/routes/dr.js:126 | a subtraction comparator on a numeric key is consistent |
| Sorting.ByKeySortedKeys | backend/src/routes/dr.js:126 | sorting by `a.x - b.x` gives non-decreasing keys and by `b.x - a.x` non-increasing keys |
| Cascade.AnyNeedle | backend/src/services/scrapeService.js:47-57 | a `\|\|` chain of tests holds iff one needle matches |
| Cascade.FirstIndex | backend/src/services/scrapeService.js:43-71 | the chosen rule matches and no earlier rule does; none is chosen only when no rule matches |
| Cascade.FirstIndexOf | backend/src/services/scrapeService.js:130-145 | the rule found is the first one that matches |
| Cascade.FirstOutcomeWins | backend/src/services/scrapeService.js:111-127 | when a rule matches and no earlier one does, its outcome is the result |
| Cascade.FirstOutcomeDefault | backend/src/services/scrapeService.js:126 | with no matching rule the default stands |
| Classify.DetectCountry | backend/src/services/scrapeService.js:43-71 | the country is always one of the nine codes of the country table |
| Classify.VenueWins | backend/src/services/scrapeService.js:43-53 | a venue token in the market decides the country whatever the underlying and symbol say |
| Classify.DetectCountryDefault | backend/src/services/scrapeService.js:70 | with no venue token and no known prefix the country is `US` |
| Classify.TPExNeverMatches | backend/src/services/scrapeService.js:47 | the mixed-case `TPEx` token never matches the upper-cased market |
| Classify.DetectTradingHours | backend/src/services/scrapeService.js:76-108 | the result is one of two shapes, the day session is always 10:00-16:30, and the night session is absent iff there is no night trading |
| Classify.NightTradingIff | backend/src/services/scrapeService.js:88-94 | night trading holds iff there is a night venue token, the country is US or EU, or the underlying starts with a listed ticker |
| Classify.PrefixOverreach | backend/src/services/scrapeService.js:84 | any underlying starting with `V` or `MA` counts as trading at night |
| Classify.DetectSector | backend/src/services/scrapeService.js:111-127 | the sector is always one of the eleven sector labels |
| Classify.SectorFirstMatch | backend/src/services/scrapeService.js:111-127 | the first sector rule with a substring match in `name + ' ' + underlying` decides |
| Classify.AmdIsAuto | backend/src/services/scrapeService.js:111-117 | Advanced Micro Devices is classified `Auto`: no finance, fund or technology needle occurs in its text, and `DEVICES` contains `EV` |
| Classify.IssuerCodeFromSuffix | backend/src/services/scrapeService.js:388-408 | the code is never empty: a table issuer, `OTHER`, or `CODE` followed by exactly the trailing digits |
| Classify.SuffixFirstMatch | backend/src/services/scrapeService.js:389-404 | the suffixes are tried in table order: the issuer is that of the first suffix the symbol ends with |
| Classify.SuffixUnmapped | backend/src/services/scrapeService.js:405-407 | a symbol ending in no known suffix gets `CODE` and its trailing digits, or `OTHER` when it has none |
| Classify.SuffixKtb | backend/src/services/scrapeService.js:389 | a symbol ending in `80` is always Krung Thai Bank's, whatever else it ends with |
| Classify.IssuerName | backend/src/services/scrapeService.js:410-433 | the display name is never empty |
| Classify.IssuerNameOfTable | backend/src/services/scrapeService.js:411-428 | a code of the name table is shown with the name the table gives it |
| Classify.IssuerNameUnmapped | backend/src/services/scrapeService.js:428-432 | no code, or a code neither in the table nor `CODE`-prefixed, is shown as unspecified |
| Classify.IssuerNameOfCode | backend/src/services/scrapeService.js:424-426 | the name of `CODE` plus digits is `รหัส` and those digits |
| Classify.SuffixIssuerNamed | backend/src/services/scrapeService.js:388-433 | a symbol's issuer is unspecified exactly when the symbol has no trailing digits |
| Classify.KnownSuffixNamed | backend/src/services/scrapeService.js:388-433 | every issuer named by the suffix table has a display name |
| Classify.NamesSpecified | backend/src/services/scrapeService.js:410-433 | every issuer of the name table has a real display name |
| Classify.IssuerCodeFromName | backend/src/services/scrapeService.js:130-145 | an empty issuer name gives no code, and any code comes from the fragment table |
| Classify.IssuerCodeFromNameNone | backend/src/services/scrapeService.js:130-143 | there is no code exactly when the name is empty or contains none of the fragments |
| Classify.IssuerCodeFromNameFirstMatch | backend/src/services/scrapeService.js:133-141 | the fragments are tried in table order: the first one found in the name gives the code |
| Classify.KBankUnnamed | backend/src/services/scrapeService.js:136 | the name-derived code `KBANK` has no display name, so such a DR shows as unspecified |
| Records.Or | backend/src/services/scrapeService.js:263-265 | `s \|\| alt` keeps a non-empty `s` and is empty only when both are |
| Records.SetRecord | backend/src/services/scrapeService.js:261-294 | a SET item with a symbol becomes a classified record with an issuer code, an issuer name, a session label equal to the session's, value times 1000 and market cap times 1e6 |
| Records.SetScrape | backend/src/services/scrapeService.js:260-300 | `null` iff the response is not an array or some item has no symbol (the suffix lookup throws and the `catch` answers `null`), else every item mapped in order |
| Records.SetUnderlyingFallback | backend/src/services/scrapeService.js:264 | without an underlying name, the underlying is the symbol without its trailing digits |
| Records.WarrantRow | backend/src/services/scrapeService.js:337-377 | a row becomes a classified record with the trimmed symbol, underlying and market, an issuer code and the label `N/A` |
| Records.WarrantVolume | backend/src/services/scrapeService.js:348 | volume is value over price rounded, and 0 when the price is not positive |
| Records.WarrantChangeIsPrice | backend/src/services/scrapeService.js:346 | the change column is cleaned and read as `parsePrice` does |
| Records.RowRecords | backend/src/services/scrapeService.js:334-335 | a row with fewer than 8 cells contributes nothing, any other row exactly its record |
| Records.AfterHeaderMember | backend/src/services/scrapeService.js:331-332 | the output holds exactly what the rows after the header contribute |
| Records.WarrantRecordsSpec | backend/src/services/scrapeService.js:331-380 | the records are exactly those of rows after the header with at least 8 cells, and there are fewer records than rows |
| Records.CollectAfterHeader | backend/src/services/scrapeService.js:331-378 | the row loop pushes what the specification of the rows says |
| Records.ScrapeThaiWarrant | backend/src/services/scrapeService.js:307-385 | no table gives `null`, otherwise the records of the rows |
| Records.Field | backend/src/services/scrapeService.js:474-478 | `raw.a \|\| raw.b \|\| ''` is empty iff no listed property is present and non-empty |
| Records.FieldFirst | backend/src/services/scrapeService.js:474-478 | the first present, non-empty property wins |
| Records.ProcessDRData | backend/src/services/scrapeService.js:473-508 | a legacy object becomes a classified record whose issuer code comes from the issuer name, with non-empty hours and ratio |
| Records.ProcessDRDataMissingPrice | backend/src/services/scrapeService.js:473-508 | a legacy object with no price property has price 0 |
| Records.SetScrapeClassified | backend/src/services/scrapeService.js:283-294 | every SET record is classified and carries an issuer code |
| Records.WarrantScrapeClassified | backend/src/services/scrapeService.js:350-369 | every ThaiWarrant record is classified and carries an issuer code |
| Fallback.FallbackRecord | backend/src/services/scrapeService.js:573-591 | a curated entry keeps its symbol, price and volume, is classified, takes its issuer from the symbol suffix and trades at price times volume |
| Fallback.MapItems | backend/src/services/scrapeService.js:573 | every entry is mapped, in order |
| Fallback.FallbackCount | backend/src/services/scrapeService.js:512-572 | the curated list has 45 DRs |
| Fallback.FallbackWellFormed | backend/src/services/scrapeService.js:511-592 | every fallback DR is classified, has an issuer code and a value of price times volume |
| Snapshot.CountWhere | backend/src/routes/dr.js:220 | a count never exceeds the length |
| Snapshot.Filter | backend/src/routes/dr.js:13 | `filter` keeps exactly the elements that pass, never adds one, and its length is the count of passing elements |
| Snapshot.FilterAppend | backend/src/routes/dr.js:13 | filtering keeps the relative order |
| Snapshot.SumAppend | backend/src/routes/dr.js:218 | `reduce` sums split over concatenation |
| Snapshot.SignPartition | backend/src/routes/dr.js:220-222 | every record is exactly one of gainer, loser or unchanged |
| Snapshot.SymbolIndex | backend/src/services/scrapeService.js:731 | the found index holds the symbol and no earlier index does; none only when no record has it |
| Snapshot.FindBySymbol | backend/src/services/scrapeService.js:731 | `find` returns a stored record with the symbol, or nothing exactly when none has it |
| Snapshot.FindFirst | backend/src/services/scrapeService.js:601 | the first record with the symbol is found even when later ones share it |
| Snapshot.QuoteSplit | backend/src/services/scrapeService.js:603-614 | a record is determined by its nine quote fields and the rest |
| Snapshot.WithQuote | backend/src/services/scrapeService.js:603-614 | the spread takes exactly the live quote and leaves every other field as it was |
| Snapshot.MergePrices | backend/src/services/scrapeService.js:600-617 | the refresh keeps the length |
| Snapshot.MergePricesSpec | backend/src/services/scrapeService.js:600-617 | a record with no live match is untouched; one with a match takes the first match's quote; symbols and non-quote fields never change |
| Snapshot.MergeKeepsSymbols | backend/src/services/scrapeService.js:600-617 | the refresh neither adds, drops nor reorders symbols, and keeps records classified |
| Snapshot.ComputeOverview | backend/src/services/scrapeService.js:690-696 | gainers, losers and unchanged add up to the number of DRs |
| Snapshot.TopByKey | backend/src/services/scrapeService.js:702-704 | a sorted copy cut to `n` is `min(n, length)` long, drawn from the list, ordered by the key and beats every DR left out |
| Snapshot.ComputeRankingsSpec | backend/src/services/scrapeService.js:699-706 | gainers run down by change, losers up, most active down by value, each at most 10 long |
| Snapshot.CountIssuer | backend/src/services/scrapeService.js:734 | a broker's count never exceeds the number of DRs |
| Snapshot.CountIssuerZero | backend/src/services/scrapeService.js:734 | a broker's count is 0 exactly when no DR carries its code |
| Snapshot.BrokerCounts | backend/src/services/scrapeService.js:464-467 | one entry per broker, in table order, with counts bounded by the number of DRs |
| Snapshot.FindBroker | backend/src/services/scrapeService.js:736 | `find` on the broker table returns the broker with the id, or nothing exactly when none has it |
| Store.ScrapersDeliver | backend/src/services/scrapeService.js:260-380 | both scrapers deliver classified records that carry issuer codes |
| Store.FirstLive | backend/src/services/scrapeService.js:439-447 | a non-empty SET result wins; otherwise the ThaiWarrant result; nothing exactly when both are missing or empty |
| Store.SourceOrder | backend/src/services/scrapeService.js:439-447 | ThaiWarrant is irrelevant when SET yields DRs, and the fallback is used exactly when neither source yields any; a SET response with an item lacking a symbol counts as no result |
| Store.LegacyBranchUnreachable | backend/src/services/scrapeService.js:448-450 | a live first record always carries an issuer code, so the legacy `processDRData` branch is never taken |
| Store.OverviewAfter | backend/src/services/scrapeService.js:647-697 | the overview ends up missing exactly when there are no DRs and either a failed request left a missing one in place or the parsed body was `null` |
| Store.OverviewFallback | backend/src/services/scrapeService.js:688-697 | a failed request keeps a stored overview; a parsed body replaces it, even a `null` one; the overview is computed from the DRs exactly when it is still missing and there are DRs |
| Store.RankingsAfter | backend/src/services/scrapeService.js:657-706 | with DRs present the gainers list is never empty afterwards |
| Store.RankingsKept | backend/src/services/scrapeService.js:657-675 | fetched rankings with gainers stand as fetched, with a missing losers or most-active list empty; stored rankings with gainers survive a browser failure; with no DRs nothing is computed |
| Store.RankingsFallback | backend/src/services/scrapeService.js:699-706 | with no gainers fetched or stored, the rankings are computed from the list, at most 10 per list |
| Store.DRStore.constructor | backend/src/services/scrapeService.js:6-16 | the service starts with no DRs, no broker cache, no overview, empty rankings and no update time |
| Store.DRStore.LoadInitialData | backend/src/services/scrapeService.js:436-470 | live DRs replace the list; otherwise the fallback replaces it and fills the broker cache; the time is set; overview and rankings are untouched |
| Store.DRStore.ScrapePrices | backend/src/services/scrapeService.js:595-621 | a non-empty SET result merges its quotes, nothing else changes the list, and the time is set even when nothing came |
| Store.DRStore.UpdateMarketExtraData | backend/src/services/scrapeService.js:633-707 | overview and rankings become the fetched-or-fallback values, and the DR list, broker cache and time are untouched |
| Store.DRStore.ScrapeAll | backend/src/services/scrapeService.js:624-627 | a full load followed by the extra-data update |
| Store.DRStore.GetAllBrokers | backend/src/services/scrapeService.js:732-735 | one entry per broker in table order; a filled cache is answered as it is, and with no cache the counts are over the current list |
| Store.DRStore.GetDRBySymbol | backend/src/services/scrapeService.js:731 | a stored DR with the symbol, or nothing exactly when none has it |
| Store.DRStore.SortInPlace | backend/src/routes/dr.js:25 | sorting the shared array permutes the stored list and changes nothing else |
| Store.GetBrokerById | backend/src/services/scrapeService.js:736 | the broker with the id from the static table, or nothing exactly when none has it |
| Store.BrokerCacheSticks | backend/src/services/scrapeService.js:462-467 | once a fallback load filled the broker cache, later price refreshes and live loads never refresh it |
| Routes.ListFilteredSpec | backend/src/routes/dr.js:12-20 | the list holds exactly the DRs that pass every active filter, and is the store's array when no filter is active |
| Routes.SortFieldOf | backend/src/routes/dr.js:26-40 | a known sort field needs a non-empty `sort` |
| Routes.SymbolOrderConsistent | backend/src/routes/dr.js:28 | the symbol comparator is consistent in both directions |
| Routes.SymbolSortedKeys | backend/src/routes/dr.js:28 | sorting by symbol orders symbols as text, ascending or descending |
| Routes.SortByTies | backend/src/routes/dr.js:38-39 | a comparator that calls every pair equal keeps the order |
| Routes.ListResultSpec | backend/src/routes/dr.js:6-54 | the answer holds exactly the matching DRs, as a permutation of the filtered list, unchanged for an unknown sort field |
| Routes.ListSortedByKey | backend/src/routes/dr.js:23-37 | a numeric field orders the answer ascending for `order=asc` and descending otherwise |
| Routes.ListSortedBySymbol | backend/src/routes/dr.js:27-28 | `sort=symbol` orders the answer by symbol, ascending for `order=asc` and descending otherwise |
| Routes.ListAll | backend/src/routes/dr.js:6-54 | answers the filtered, sorted list; when no filter copied the array, the store's own list is left in the answer's order |
| Routes.Search | backend/src/routes/dr.js:57-81 | 400 iff `q` is missing, else exactly the DRs whose symbol, name or underlying contains `q` ignoring case |
| Routes.SearchIgnoresCase | backend/src/routes/dr.js:64 | an upper-cased term finds the same DRs |
| Routes.SearchFindsSymbol | backend/src/routes/dr.js:66 | a DR whose symbol is the term in any case is always found |
| Routes.LimitedTop | backend/src/routes/dr.js:87-90 | the cut list is sorted by the key, drawn from the input and at most the limit long |
| Routes.TopGainersLength | backend/src/routes/dr.js:87-90 | the answer is as long as `slice(0, limit)` of all the gainers |
| Routes.TopGainersSpec | backend/src/routes/dr.js:84-100 | every gainer gained, the list is non-increasing, exactly `limit` long when there are that many gainers (all of them otherwise), and no gainer left out gained more |
| Routes.TopLosersLength | backend/src/routes/dr.js:106-109 | the answer is as long as `slice(0, limit)` of all the losers |
| Routes.TopLosersSpec | backend/src/routes/dr.js:103-119 | every loser lost, the list is non-decreasing, exactly `limit` long when there are that many losers (all of them otherwise), and no loser left out lost more |
| Routes.SortedTop | backend/src/routes/dr.js:122-155 | the store's array is sorted in place by the key, descending, and the answer is its first `limit` DRs |
| Routes.TopVolume | backend/src/routes/dr.js:122-137 | sorts the store by volume in place and answers the first `limit` |
| Routes.TopValue | backend/src/routes/dr.js:140-155 | sorts the store by value in place and answers the first `limit` |
| Routes.FilterIf | backend/src/routes/dr.js:174-200 | a criterion's filter applies only when the criterion is set |
| Routes.ScreenSpec | backend/src/routes/dr.js:158-210 | the screener keeps exactly the DRs that pass every active criterion and never adds one |
| Routes.ScreenMissingValues | backend/src/routes/dr.js:183-190 | a missing market cap passes a cap ceiling, while a missing P/E fails a P/E ceiling |
| Routes.RequestedSymbols | backend/src/routes/dr.js:296 | one requested symbol per comma-separated piece |
| Routes.RequestedSymbolsSpec | backend/src/routes/dr.js:296 | each requested symbol is upper case and holds no comma |
| Routes.FindAllCount | backend/src/routes/dr.js:298-300 | one DR per known requested symbol: repeats kept, unknown ones dropped |
| Routes.FindAllMembers | backend/src/routes/dr.js:298-300 | every answer is a stored DR for a requested symbol |
| Routes.FindAllAppend | backend/src/routes/dr.js:298-300 | symbols are looked up one by one: the answer for `a + b` is the answer for `a` followed by the answer for `b`, so the request order is kept whatever symbols are unknown |
| Routes.FindAllOne | backend/src/routes/dr.js:298-300 | a known symbol gives its DR and an unknown one gives nothing |
| Routes.FindAllInOrder | backend/src/routes/dr.js:298-300 | when every symbol is known, the answers follow the request order |
| Routes.Compare | backend/src/routes/dr.js:289-310 | 400 iff `symbols` is missing |
| Routes.CompareSpec | backend/src/routes/dr.js:289-310 | at most one answer per piece, each a stored DR whose symbol is a trimmed, upper-cased piece |
| Routes.GetBySymbol | backend/src/routes/dr.js:360-380 | the stored DR for the upper-cased symbol, or 404 exactly when there is none |
| Routes.GetBySymbolIgnoresCase | backend/src/routes/dr.js:363 | the lookup finds the same DR whatever the case of the path |
| Routes.MarketOverview | backend/src/routes/dr.js:313-327 | the stored overview, or 404 exactly while none is stored |
| Listings.Bump | backend/src/routes/dr.js:230 | counting a key adds that key and no other |
| Listings.TallySpec | backend/src/routes/dr.js:229-235 | each key of the dictionary maps to how often it occurs, and a key that does not occur is absent |
| Listings.TallyKeys | backend/src/routes/dr.js:229-235 | a key is in the dictionary exactly when some DR carries it |
| Listings.MapTotalBump | backend/src/routes/dr.js:230 | counting one more DR adds one to the total of the dictionary |
| Listings.TallyTotal | backend/src/routes/dr.js:229-235 | the counts add up to the number of DRs that carry a key |
| Listings.ComputeStats | backend/src/routes/dr.js:213-245 | the totals, sums and sign counts of the list, with the three dictionaries as the tallies of country, sector and issuer code |
| Listings.StatsTotals | backend/src/routes/dr.js:229-235 | country and sector counts each add up to the number of DRs; issuer counts add up to the DRs with an issuer code |
| Listings.Distinct | backend/src/routes/dr.js:251 | `[...new Set(s)]` holds each value of `s` once and nothing else |
| Listings.TextOrderConsistent | backend/src/routes/dr.js:251 | the default string order is consistent |
| Listings.KeysOfSpec | backend/src/routes/dr.js:251 | the mapped keys are exactly those the DRs carry |
| Listings.SortedKeysOrdered | backend/src/routes/dr.js:251 | the listed values are distinct and strictly increasing in text order |
| Listings.SortedKeysMembers | backend/src/routes/dr.js:251 | the listed values are exactly those the DRs carry |
| Listings.CountsFor | backend/src/routes/dr.js:253-257 | one entry per listed value, in order |
| Listings.TotalCovers | backend/src/routes/dr.js:253-257 | listing every value once, the counts add up to the number of DRs |
| Listings.ListingSpec | backend/src/routes/dr.js:248-286 | values strictly increasing, every count positive, counts adding up to the number of DRs |
| Listings.ListingMembers | backend/src/routes/dr.js:248-286 | the listed values are exactly those the DRs carry |
| Listings.ListingCount | backend/src/routes/dr.js:256 | each count is the number of DRs with that value |
| Listings.CountryName | backend/src/routes/dr.js:383-397 | the name is empty only for an empty code; an unknown code names itself |
| Listings.DetectedCountriesNamed | backend/src/routes/dr.js:383-397 | every country the classifier can produce has a Thai name distinct from its code |
| Listings.Countries | backend/src/routes/dr.js:248-266 | one entry per listed country with its name and count |
| Frontend.BangkokMinutes | frontend/src/App.jsx:49-51 | Bangkok minutes since midnight are the UTC minutes shifted by seven hours, modulo a day |
| Frontend.SessionInUtc | frontend/src/App.jsx:46-75 | on the UTC clock the day session is 03:00-09:30 for every DR, the night session 12:00-20:00 for DRs with night trading, and they never overlap |
| Frontend.SessionNightFlag | frontend/src/App.jsx:61-74 | the day session ignores the night flag, and without night trading only the day session opens |
| Frontend.SessionExamples | frontend/src/App.jsx:46-75 | 02:00 Bangkok is the night session with night trading and closed without; 17:00 is closed; 10:00 is the day session |
| Frontend.GetTradingHours | frontend/src/App.jsx:11-31 | a set label other than `N/A` stands; otherwise the label is one of the two derived ones |
| Frontend.TradingHoursAgreeWithScraper | frontend/src/App.jsx:11-31 | with the label missing, the client derives what the scrape service's `detectTradingHours` would for every underlying not starting with QQQ or SPY |
| Frontend.TradingHoursEtfs | frontend/src/App.jsx:21 | with the label missing, the client counts QQQ and SPY underlyings as trading at night |
| Frontend.WarrantHoursOnClient | frontend/src/App.jsx:11-31 | a ThaiWarrant record arrives as `N/A` and gets the hours the scrape service would give it, ETFs aside |
| Frontend.StripFirstSuffix | frontend/src/App.jsx:263 | one exchange suffix is removed when the string ends with it, and the string is kept when it ends with none |
| Frontend.ExchangeSuffixWins | frontend/src/App.jsx:318-322 | a suffix found in the underlying decides the exchange whatever the market says |
| Frontend.ExchangeDefault | frontend/src/App.jsx:324-336 | with no suffix and no venue token the exchange is NASDAQ |
| Frontend.TVSymbolWith | frontend/src/App.jsx:259-337 | no underlying gives `NASDAQ:AAPL`, a table hit gives the table's symbol, anything else ends in `:` and the cleaned underlying |
| Frontend.TVSymbolSuffixWins | frontend/src/App.jsx:318-322 | outside the table, a suffixed underlying fixes the symbol whatever the market field says |
| Frontend.TVSymbolHongKong | frontend/src/App.jsx:263-318 | an underlying `X.HK` outside the table becomes `HKEX:X` |
| Frontend.TVSymbolDefault | frontend/src/App.jsx:324-336 | with no table entry, suffix or venue token the symbol is `NASDAQ:` and the cleaned underlying |
| Frontend.ScreenerResults | frontend/src/App.jsx:660-672 | the screener shows exactly the DRs that pass, never adding one |
| Frontend.ScreenerResetShowsAll | frontend/src/App.jsx:657-674 | the reset form shows the whole list in its order |
| Frontend.ScreenerUnparsableBound | frontend/src/App.jsx:661-665 | a numeric bound that does not parse filters nothing |
| Frontend.ScreenerLoosening | frontend/src/App.jsx:660-672 | clearing criteria never hides a DR the stricter form showed |
| Frontend.ScreenerMissingPE | frontend/src/App.jsx:664 | under a positive P/E ceiling a DR without P/E passes on the client but fails `POST /filter` |
| Frontend.RelatedWith | frontend/src/App.jsx:1042-1056 | the manual table's DRs when it finds any, else exactly the fuzzy matches, never adding a DR |
| Frontend.FuzzyRelatedIff | frontend/src/App.jsx:1055 | the equality test on the underlying is subsumed by the containment test |
| Frontend.StripDigitsAppended | frontend/src/App.jsx:1054 | stripping trailing digits appended to a string that does not end in one gives the string back |
| Frontend.RelatedBySymbolRoot | frontend/src/App.jsx:1051-1055 | a DR whose symbol is the cleaned stock symbol plus digits is related when the manual table does not apply |
| Frontend.HomeList | frontend/src/App.jsx:458-460 | a non-empty server list is shown as it is |
| Frontend.HomeFallbackRanked | frontend/src/App.jsx:458-460 | the fallback is at most five DRs from the list, ordered by the key and beating every DR left out |
| Frontend.HomeFallbackMatchesServer | frontend/src/App.jsx:458-460 | each fallback list is the first five of what the server's local rankings would hold for the same list |
| Frontend.Without | frontend/src/App.jsx:633 | removing a symbol drops every occurrence of it and keeps every other symbol |
| Frontend.Toggled | frontend/src/App.jsx:613 | a present symbol leaves; an absent one joins iff fewer than four are selected; other symbols stay |
| Frontend.Added | frontend/src/App.jsx:632 | adding is a no-op when four are selected or the symbol is present, otherwise the symbol joins |
| Frontend.AddedIsToggled | frontend/src/App.jsx:613-632 | adding a new symbol is toggling it |
| Frontend.ToggleTwice | frontend/src/App.jsx:613 | toggling an absent symbol twice restores the selection |
| Frontend.SelectionStaysValid | frontend/src/App.jsx:613-633 | toggle, add and remove keep a selection distinct and at most four long |
| Frontend.Selection.constructor | frontend/src/App.jsx:630 | the compare page starts from the catalog's list, and a valid list gives a valid selection |
| Frontend.Selection.Toggle | frontend/src/App.jsx:613 | the selection becomes the toggled one and stays valid |
| Frontend.Selection.Add | frontend/src/App.jsx:632 | the selection becomes the added one and stays valid |
| Frontend.Selection.Remove | frontend/src/App.jsx:633 | the symbol is gone and the selection stays valid |

## Left out

- Network and browser I/O: the Puppeteer session, the SET API request, the axios/cheerio fetch and the HTML parse. Each scraper is its outcome, passed as a parameter; its row rules are modelled.
- `getDRNews`, the `GET /:symbol/news` route and `getCompanyLogo`: news fetching is network I/O and logos are decoration. The records carry no logo field.
- `GET /rankings`: it only returns the stored rankings. Their computation is modelled in `Store`.
- Response envelopes: the `success`, `count`, `query` and `lastUpdate` wrappers, and the 500 answers to thrown exceptions. Handlers return their data or a `Result` with the 400/404 cases.
- `backend/src/index.js` is not part of this model. Scheduling, timers and overlapping refreshes are out of scope, and timestamps are opaque strings passed in.
- Floating point: numbers are exact `real`s. `toFixed`, `toLocaleString` and NaN are not modelled, except where `\|\| 0` or `parseFloat` failing decides a branch. That case is an `Option`.
- `parseFloat` reads an optional sign, digits and a fraction after leading white space. Exponents and `Infinity` are not read.
- `localeCompare` and the default `sort()` are modelled as code-point order. Locale collation is not modelled. UTF-16 code-unit order differs from it only when characters above U+FFFF meet characters in U+E000–U+FFFF.
- Case mapping is ASCII only. Thai text has no case, and non-ASCII letters are not mapped.
- Fallback.FallbackDRData: the curated list's symbols are not proved distinct. The literals are too many for the solver to separate cheaply.
- Frontend.RelatedWith: a stock symbol equal to an inherited object property name (`constructor`) would make the source's `manualMap[...]` lookup truthy. This is not modelled. Stock symbols come from a fixed list.
- Frontend.TVSymbolWith and Frontend.RelatedWith are stated over any table. The source's literal tables are the constants `SymbolMap` and `ManualMap`, and no lemma evaluates lookups in them.
- Client UI: React rendering and hooks are not modelled. Nor are the catalog page's own filter and sort, the compare page's table of fields, the home page's stats card and the client's country-name table.
- The screener's `ScreenerPasses` reads `dr.pe \|\| 0` and `dr.dividend \|\| 0` from optional numbers. A present zero and an absent value read the same, as in the source.
