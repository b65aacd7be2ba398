/**
 * The aggregate handlers of the DR API: `/stats`, whose `forEach` loop
 * counts DRs per country, sector and issuer code in dictionaries, and
 * `/countries` and `/sectors`, which list each distinct value once, sorted,
 * with its number of DRs.
 */
module Listings {
  import opened Wrappers
  import opened Text
  import opened Sorting
  import opened Records
  import opened Snapshot
  import Classify

  // ----- counting dictionaries ---------------------------------------------------

  /** `counts[k] = (counts[k] || 0) + 1`. */
  function Bump(m: map<string, nat>, k: string): (r: map<string, nat>)
    ensures k in r && r.Keys == m.Keys + {k}
  {
    m[k := (if k in m then m[k] else 0) + 1]
  }

  /** The dictionary the `forEach` builds over `s`: a record with no key (`None`) is skipped. */
  function Tally(s: seq<Record>, key: Record -> Option<string>): map<string, nat>
  {
    if s == [] then map[]
    else
      var m := Tally(s[..|s| - 1], key);
      match key(s[|s| - 1])
      case None => m
      case Some(k) => Bump(m, k)
  }

  /** The number of records of `s` whose key is `k`. */
  function KeyCount(s: seq<Record>, key: Record -> Option<string>, k: string): nat
  {
    CountWhere(s, (x: Record) => key(x) == Some(k))
  }

  /** The dictionary holds, for each key that occurs, how often it occurs, and nothing for a key that does not. */
  lemma {:induction false} TallySpec(s: seq<Record>, key: Record -> Option<string>)
    ensures forall k :: k in Tally(s, key) ==> Tally(s, key)[k] == KeyCount(s, key, k) > 0
    ensures forall k :: k !in Tally(s, key) ==> KeyCount(s, key, k) == 0
  {
    if s != [] {
      var front := s[..|s| - 1];
      TallySpec(front, key);
      forall k ensures KeyCount(s, key, k) == KeyCount(front, key, k) + (if key(s[|s| - 1]) == Some(k) then 1 else 0) {
      }
    }
  }

  /** A key is in the dictionary exactly when some record carries it. */
  lemma TallyKeys(s: seq<Record>, key: Record -> Option<string>, k: string)
    ensures k in Tally(s, key) <==> exists x :: x in s && key(x) == Some(k)
  {
    TallySpec(s, key);
    if exists x :: x in s && key(x) == Some(k) {
      var x :| x in s && key(x) == Some(k);
      CountPositive(s, (y: Record) => key(y) == Some(k), x);
    }
    if k in Tally(s, key) {
      CountWitness(s, (y: Record) => key(y) == Some(k));
    }
  }

  lemma {:induction false} CountPositive(s: seq<Record>, p: Record -> bool, x: Record)
    requires x in s && p(x)
    ensures CountWhere(s, p) > 0
  {
    if s[|s| - 1] != x {
      assert s == s[..|s| - 1] + [s[|s| - 1]];
      CountPositive(s[..|s| - 1], p, x);
    }
  }

  lemma {:induction false} CountWitness(s: seq<Record>, p: Record -> bool)
    requires CountWhere(s, p) > 0
    ensures exists x :: x in s && p(x)
  {
    if !p(s[|s| - 1]) {
      CountWitness(s[..|s| - 1], p);
      var x :| x in s[..|s| - 1] && p(x);
      assert x in s;
    } else {
      assert s[|s| - 1] in s;
    }
  }

  /** The sum of a dictionary's counts. */
  ghost function MapTotal(m: map<string, nat>): nat
    decreases |m|
  {
    if m == map[] then 0
    else
      var k :| k in m;
      assert |m - {k}| < |m| by { assert (m - {k}).Keys == m.Keys - {k}; }
      m[k] + MapTotal(m - {k})
  }

  /** The total does not depend on which key is taken out first. */
  lemma {:induction false} MapTotalRemove(m: map<string, nat>, k: string)
    requires k in m
    ensures MapTotal(m) == m[k] + MapTotal(m - {k})
    decreases |m|
  {
    var j :| j in m && MapTotal(m) == m[j] + MapTotal(m - {j});
    if j != k {
      assert (m - {j}).Keys == m.Keys - {j};
      assert (m - {k}).Keys == m.Keys - {k};
      MapTotalRemove(m - {j}, k);
      MapTotalRemove(m - {k}, j);
      assert m - {j} - {k} == m - {k} - {j};
    }
  }

  /** Counting one more record adds one to the total. */
  lemma MapTotalBump(m: map<string, nat>, k: string)
    ensures MapTotal(Bump(m, k)) == MapTotal(m) + 1
  {
    var b := Bump(m, k);
    MapTotalRemove(b, k);
    if k in m {
      MapTotalRemove(m, k);
      assert b - {k} == m - {k};
    } else {
      assert b - {k} == m;
    }
  }

  /** The counts of the dictionary add up to the number of records with a key (those satisfying `p`). */
  lemma {:induction false} TallyTotal(s: seq<Record>, key: Record -> Option<string>, p: Record -> bool)
    requires forall x :: p(x) <==> key(x).Some?
    ensures MapTotal(Tally(s, key)) == CountWhere(s, p)
  {
    if s != [] {
      TallyTotal(s[..|s| - 1], key, p);
      if key(s[|s| - 1]).Some? {
        MapTotalBump(Tally(s[..|s| - 1], key), key(s[|s| - 1]).value);
      }
    }
  }

  /** When every record has a key, the counts add up to the number of records. */
  lemma {:induction false} TallyTotalAll(s: seq<Record>, key: Record -> Option<string>)
    requires forall x :: key(x).Some?
    ensures MapTotal(Tally(s, key)) == |s|
  {
    if s != [] {
      TallyTotalAll(s[..|s| - 1], key);
      MapTotalBump(Tally(s[..|s| - 1], key), key(s[|s| - 1]).value);
    }
  }

  // ----- GET /stats -----------------------------------------------------------------

  function CountryKey(r: Record): Option<string> { Some(r.country) }
  function SectorKey(r: Record): Option<string> { Some(r.sector) }

  /** `if (dr.issuerCode)`: only a present, non-empty issuer code is counted. */
  predicate HasIssuerCode(r: Record) { r.issuerCode.Some? && r.issuerCode.value != "" }

  function IssuerKey(r: Record): Option<string>
  {
    if HasIssuerCode(r) then r.issuerCode else None
  }

  datatype Stats = Stats(
    totalDR: nat, totalVolume: real, totalValue: real,
    gainers: nat, losers: nat, unchangedCount: nat,
    byCountry: map<string, nat>, bySector: map<string, nat>, byIssuer: map<string, nat>)

  /**
   * `GET /stats`: the totals and sign counts of the list, then one pass that
   * bumps the country, sector and (when present) issuer-code counters.
   */
  method ComputeStats(data: seq<Record>) returns (stats: Stats)
    ensures stats.totalDR == |data|
    ensures stats.gainers + stats.losers + stats.unchangedCount == stats.totalDR
    ensures stats.gainers == CountWhere(data, IsGainer) && stats.losers == CountWhere(data, IsLoser)
    ensures stats.totalVolume == SumOf(data, VolumeOf) && stats.totalValue == SumOf(data, ValueOf)
    ensures stats.byCountry == Tally(data, CountryKey)
    ensures stats.bySector == Tally(data, SectorKey)
    ensures stats.byIssuer == Tally(data, IssuerKey)
  {
    var byCountry: map<string, nat> := map[];
    var bySector: map<string, nat> := map[];
    var byIssuer: map<string, nat> := map[];
    var i := 0;
    while i < |data|
      invariant 0 <= i <= |data|
      invariant byCountry == Tally(data[..i], CountryKey)
      invariant bySector == Tally(data[..i], SectorKey)
      invariant byIssuer == Tally(data[..i], IssuerKey)
    {
      var dr := data[i];
      assert data[..i + 1][..i] == data[..i];
      byCountry := Bump(byCountry, dr.country);
      bySector := Bump(bySector, dr.sector);
      if HasIssuerCode(dr) {
        byIssuer := Bump(byIssuer, dr.issuerCode.value);
      }
      i := i + 1;
    }
    assert data[..|data|] == data;
    SignPartition(data);
    stats := Stats(
      |data|, SumOf(data, VolumeOf), SumOf(data, ValueOf),
      CountWhere(data, IsGainer), CountWhere(data, IsLoser), CountWhere(data, IsUnchanged),
      byCountry, bySector, byIssuer);
  }

  /**
   * The per-country and per-sector counts each add up to the number of DRs,
   * and the per-issuer counts to the number of DRs that carry an issuer code.
   */
  lemma StatsTotals(data: seq<Record>)
    ensures MapTotal(Tally(data, CountryKey)) == |data|
    ensures MapTotal(Tally(data, SectorKey)) == |data|
    ensures MapTotal(Tally(data, IssuerKey)) == CountWhere(data, HasIssuerCode) <= |data|
  {
    TallyTotalAll(data, CountryKey);
    TallyTotalAll(data, SectorKey);
    TallyTotal(data, IssuerKey, HasIssuerCode);
  }

  // ----- GET /countries and GET /sectors -------------------------------------------

  predicate NoDup(s: seq<string>) { forall i, j :: 0 <= i < j < |s| ==> s[i] != s[j] }

  /** `[...new Set(s)]`: each value once, at its first occurrence. */
  function Distinct(s: seq<string>): (r: seq<string>)
    ensures forall x :: x in r <==> x in s
    ensures NoDup(r)
  {
    if s == [] then []
    else
      var front := Distinct(s[..|s| - 1]);
      assert s == s[..|s| - 1] + [s[|s| - 1]];
      if s[|s| - 1] in front then front else front + [s[|s| - 1]]
  }

  lemma {:induction false} NoDupCounts(s: seq<string>)
    requires NoDup(s)
    ensures forall x :: multiset(s)[x] <= 1
  {
    if s != [] {
      var front := s[..|s| - 1];
      assert s == front + [s[|s| - 1]];
      NoDupCounts(front);
      assert s[|s| - 1] !in front;
    }
  }

  lemma DupCount(s: seq<string>, i: nat, j: nat)
    requires i < j < |s| && s[i] == s[j]
    ensures multiset(s)[s[i]] >= 2
  {
    assert s == s[..j] + s[j..];
    assert s[i] in s[..j];
    assert s[j..][0] == s[i];
  }

  /** A rearrangement of a list without repeats has none. */
  lemma NoDupPermutation(a: seq<string>, b: seq<string>)
    requires NoDup(a) && multiset(a) == multiset(b)
    ensures NoDup(b)
  {
    NoDupCounts(a);
    forall i, j | 0 <= i < j < |b| ensures b[i] != b[j] {
      if b[i] == b[j] {
        DupCount(b, i, j);
      }
    }
  }

  /** `Array.prototype.sort()` with no comparator: code-point order on strings. */
  function TextOrder(): (string, string) -> real
  {
    (a: string, b: string) => StrCompare(a, b) as real
  }

  lemma TextOrderConsistent()
    ensures Consistent(TextOrder())
  {
    var cmp := TextOrder();
    forall a: string, b: string ensures cmp(a, b) == -cmp(b, a) {
      StrCompareAntisymmetric(a, b);
    }
    forall a: string, b: string, c: string | cmp(a, b) <= 0.0 && cmp(b, c) <= 0.0 ensures cmp(a, c) <= 0.0 {
      StrCompareTransitive(a, b, c);
    }
  }

  /** `data.map(key)`. */
  function KeysOf(data: seq<Record>, key: Record -> string): (r: seq<string>)
    ensures |r| == |data|
    ensures forall i :: 0 <= i < |data| ==> r[i] == key(data[i])
  {
    seq(|data|, i requires 0 <= i < |data| => key(data[i]))
  }

  lemma KeysOfSpec(data: seq<Record>, key: Record -> string, k: string)
    ensures k in KeysOf(data, key) <==> exists x :: x in data && key(x) == k
  {
    var keys := KeysOf(data, key);
    if k in keys {
      var i :| 0 <= i < |keys| && keys[i] == k;
      assert data[i] in data;
    }
    if exists x :: x in data && key(x) == k {
      var x :| x in data && key(x) == k;
      var i :| 0 <= i < |data| && data[i] == x;
      assert keys[i] == k;
    }
  }

  /** `[...new Set(data.map(key))].sort()`. */
  function SortedKeys(data: seq<Record>, key: Record -> string): seq<string>
  {
    SortBy(Distinct(KeysOf(data, key)), TextOrder())
  }

  /** Each value of the key occurs once, in strictly increasing text order. */
  lemma SortedKeysOrdered(data: seq<Record>, key: Record -> string)
    ensures NoDup(SortedKeys(data, key))
    ensures var r := SortedKeys(data, key); forall i, j :: 0 <= i < j < |r| ==> StrCompare(r[i], r[j]) < 0
  {
    var d := Distinct(KeysOf(data, key));
    var r := SortBy(d, TextOrder());
    NoDupPermutation(d, r);
    TextOrderConsistent();
    SortBySorted(d, TextOrder());
    forall i, j | 0 <= i < j < |r| ensures StrCompare(r[i], r[j]) < 0 {
      assert TextOrder()(r[i], r[j]) <= 0.0;
      StrCompareAntisymmetric(r[i], r[j]);
    }
  }

  /** The sorted values are exactly the values the records carry. */
  lemma SortedKeysMembers(data: seq<Record>, key: Record -> string, k: string)
    ensures k in SortedKeys(data, key) <==> exists x :: x in data && key(x) == k
  {
    var d := Distinct(KeysOf(data, key));
    assert k in SortedKeys(data, key) <==> k in multiset(d);
    KeysOfSpec(data, key, k);
  }

  datatype Entry = Entry(key: string, count: nat)

  /** `keys.map(k => ({ k, count: data.filter(dr => key(dr) === k).length }))`. */
  function CountsFor(data: seq<Record>, key: Record -> string, keys: seq<string>): (r: seq<Entry>)
    ensures |r| == |keys|
    ensures forall i :: 0 <= i < |keys| ==> r[i].key == keys[i]
  {
    if keys == [] then []
    else [Entry(keys[0], CountWhere(data, (x: Record) => key(x) == keys[0]))] + CountsFor(data, key, keys[1..])
  }

  function Total(es: seq<Entry>): nat
  {
    if es == [] then 0 else es[0].count + Total(es[1..])
  }

  /** One more record adds one to the total when its key is listed (once). */
  lemma {:induction false} TotalStep(d: seq<Record>, x: Record, key: Record -> string, keys: seq<string>)
    requires NoDup(keys)
    ensures Total(CountsFor(d + [x], key, keys)) == Total(CountsFor(d, key, keys)) + (if key(x) in keys then 1 else 0)
  {
    if keys != [] {
      assert NoDup(keys[1..]);
      TotalStep(d, x, key, keys[1..]);
      assert (d + [x])[..|d + [x]| - 1] == d;
      assert key(x) == keys[0] ==> key(x) !in keys[1..];
      assert key(x) in keys <==> key(x) == keys[0] || key(x) in keys[1..];
    }
  }

  lemma {:induction false} TotalEmpty(key: Record -> string, keys: seq<string>)
    ensures Total(CountsFor([], key, keys)) == 0
  {
    if keys != [] {
      TotalEmpty(key, keys[1..]);
    }
  }

  /** Listing each key of the records once, the counts add up to the number of records. */
  lemma {:induction false} TotalCovers(data: seq<Record>, key: Record -> string, keys: seq<string>)
    requires NoDup(keys)
    requires forall x :: x in data ==> key(x) in keys
    ensures Total(CountsFor(data, key, keys)) == |data|
  {
    if data == [] {
      TotalEmpty(key, keys);
    } else {
      var d := data[..|data| - 1];
      assert data == d + [data[|data| - 1]];
      assert data[|data| - 1] in data;
      assert forall x :: x in d ==> x in data;
      TotalCovers(d, key, keys);
      TotalStep(d, data[|data| - 1], key, keys);
    }
  }

  /** The listing of `/countries` and `/sectors` before names are attached. */
  function Listing(data: seq<Record>, key: Record -> string): seq<Entry>
  {
    CountsFor(data, key, SortedKeys(data, key))
  }

  /**
   * Each value occurs once, in increasing text order, with a positive count
   * of the DRs that carry it, and the counts add up to the number of DRs.
   */
  lemma ListingSpec(data: seq<Record>, key: Record -> string)
    ensures var l := Listing(data, key);
      && (forall i, j :: 0 <= i < j < |l| ==> StrCompare(l[i].key, l[j].key) < 0)
      && (forall i :: 0 <= i < |l| ==> l[i].count > 0)
      && Total(l) == |data|
  {
    var keys := SortedKeys(data, key);
    var l := Listing(data, key);
    SortedKeysOrdered(data, key);
    forall x | x in data ensures key(x) in keys {
      SortedKeysMembers(data, key, key(x));
    }
    TotalCovers(data, key, keys);
    forall i | 0 <= i < |l| ensures l[i].count > 0 {
      SortedKeysMembers(data, key, keys[i]);
      var x :| x in data && key(x) == keys[i];
      ListingCount(data, key, keys, i);
      CountPositive(data, (y: Record) => key(y) == keys[i], x);
    }
  }

  /** The listed values are exactly the values the DRs carry. */
  lemma ListingMembers(data: seq<Record>, key: Record -> string, k: string)
    ensures (exists i :: 0 <= i < |Listing(data, key)| && Listing(data, key)[i].key == k) <==> exists x :: x in data && key(x) == k
  {
    var keys := SortedKeys(data, key);
    SortedKeysMembers(data, key, k);
    if k in keys {
      var i :| 0 <= i < |keys| && keys[i] == k;
      assert Listing(data, key)[i].key == k;
    }
  }

  lemma {:induction false} ListingCount(data: seq<Record>, key: Record -> string, keys: seq<string>, i: nat)
    requires i < |keys|
    ensures CountsFor(data, key, keys)[i].count == CountWhere(data, (y: Record) => key(y) == keys[i])
  {
    if i > 0 {
      ListingCount(data, key, keys[1..], i - 1);
    }
  }

  function CountryOf(r: Record): string { r.country }
  function SectorOf(r: Record): string { r.sector }

  /** `getCountryName`'s table. */
  const CountryNames: map<string, string> := map[
    "US" := "สหรัฐอเมริกา", "CN" := "จีน", "HK" := "ฮ่องกง", "JP" := "ญี่ปุ่น", "SG" := "สิงคโปร์",
    "VN" := "เวียดนาม", "EU" := "ยุโรป", "TW" := "ไต้หวัน", "KR" := "เกาหลีใต้", "TH" := "ไทย"]

  /** `getCountryName`: the Thai name, or the code itself when the table has none. */
  function CountryName(code: string): (r: string)
    ensures r != "" || code == ""
  {
    if code in CountryNames && CountryNames[code] != "" then CountryNames[code] else code
  }

  /** Every country the classifier can produce has a Thai name distinct from its code. */
  lemma DetectedCountriesNamed(code: string)
    requires code in Classify.CountryCodes
    ensures code in CountryNames && CountryName(code) == CountryNames[code] != code
  {
  }

  datatype CountryEntry = CountryEntry(code: string, name: string, count: nat)

  /** `GET /countries`. */
  function Countries(data: seq<Record>): (r: seq<CountryEntry>)
    ensures |r| == |Listing(data, CountryOf)|
    ensures forall i :: 0 <= i < |r| ==>
      r[i].code == Listing(data, CountryOf)[i].key && r[i].count == Listing(data, CountryOf)[i].count && r[i].name == CountryName(r[i].code)
  {
    var l := Listing(data, CountryOf);
    seq(|l|, i requires 0 <= i < |l| => CountryEntry(l[i].key, CountryName(l[i].key), l[i].count))
  }

  /** `GET /sectors`: the listing by sector, a name and a count per entry. */
  function Sectors(data: seq<Record>): seq<Entry>
  {
    Listing(data, SectorOf)
  }
}
