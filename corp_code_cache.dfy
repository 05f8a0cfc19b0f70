/**
 * The DART company-code cache: the records built from the corp-code list, the
 * stock-code index over them, the 24-hour reload policy, the tiered name search
 * and the summary counts.
 *
 * The download and the ZIP/XML decoding are outside the model: a reload takes
 * their outcome as a parameter (`None` when the download or the parsing
 * failed, otherwise the parsed `<list>` items in document order). The
 * monotonic clock is read twice: `now` when freshness is tested, and `doneAt`
 * when a reload has been parsed; both are integers, in seconds.
 */
module CorpCodes {
  import opened Wrappers
  import opened Text

  /** Data older than this many seconds is reloaded. */
  const TtlSeconds: int := 24 * 60 * 60

  /** One company; `corpNameLower` is the name lowered once, at load time. */
  datatype Entry = Entry(
    corpCode: string,
    corpName: string,
    corpNameLower: string,
    stockCode: Option<string>,
    modifyDate: Option<string>)

  /** One parsed `<list>` item; a missing sub-element reads as the empty string. */
  datatype RawItem = RawItem(corpCode: string, corpName: string, stockCode: string, modifyDate: string)

  // ---------------------------------------------------------------------------
  // Building the records

  /** A raw optional field: absent when blank, otherwise its stripped text. */
  function OptionalField(raw: string): (o: Option<string>)
    ensures o.None? <==> IsBlank(raw)
    ensures o.Some? ==> o.value != [] && o.value == Strip(raw)
  {
    var stripped := Strip(raw);
    if raw != [] && stripped != [] then Some(stripped) else None
  }

  /** The record built from one item. */
  function EntryOf(item: RawItem): Entry
  {
    Entry(item.corpCode, item.corpName, Lower(item.corpName),
          OptionalField(item.stockCode), OptionalField(item.modifyDate))
  }

  /**
   * A built record keeps the code and the name, holds the lowered name, and has
   * no stock code (no modify date) exactly when the raw field is blank.
   */
  lemma EntryOfNormalises(item: RawItem)
    ensures var e := EntryOf(item);
            && WellFormed(e)
            && e.corpCode == item.corpCode && e.corpName == item.corpName
            && (e.stockCode.None? <==> IsBlank(item.stockCode))
            && (e.modifyDate.None? <==> IsBlank(item.modifyDate))
  {
  }

  /** What loading guarantees of every record. */
  predicate WellFormed(e: Entry)
  {
    && e.corpNameLower == Lower(e.corpName)
    && (e.stockCode.Some? ==> e.stockCode.value != [])
    && (e.modifyDate.Some? ==> e.modifyDate.value != [])
  }

  /** A record counts as listed when its stock code is present and non-empty. */
  predicate IsListed(e: Entry)
  {
    e.stockCode.Some? && e.stockCode.value != []
  }

  /** `e` is listed under stock code `k`. */
  predicate HasStock(e: Entry, k: string)
  {
    IsListed(e) && e.stockCode.value == k
  }

  /** The listed records, in order. */
  function Listed(es: seq<Entry>): (r: seq<Entry>)
    ensures |r| <= |es|
  {
    if es == [] then []
    else
      var e := es[|es| - 1];
      Listed(es[..|es| - 1]) + (if IsListed(e) then [e] else [])
  }

  /** A record is among the listed ones exactly when it is one of `es` and is listed. */
  lemma {:induction false} ListedMembers(es: seq<Entry>, e: Entry)
    ensures e in Listed(es) <==> e in es && IsListed(e)
  {
    if es != [] {
      var init := es[..|es| - 1];
      ListedMembers(init, e);
      assert es == init + [es[|es| - 1]];
    }
  }

  /** Listing a concatenation lists each part. */
  lemma {:induction false} ListedAppend(a: seq<Entry>, b: seq<Entry>)
    ensures Listed(a + b) == Listed(a) + Listed(b)
    decreases |b|
  {
    if b != [] {
      var init := b[..|b| - 1];
      ListedAppend(a, init);
      assert (a + b)[..|a + b| - 1] == a + init;
      assert (a + b)[|a + b| - 1] == b[|b| - 1];
    } else {
      assert a + b == a;
    }
  }

  /** When every record is listed, all of them are kept, in order. */
  lemma {:induction false} ListedAll(es: seq<Entry>)
    requires forall k :: 0 <= k < |es| ==> IsListed(es[k])
    ensures Listed(es) == es
  {
    if es != [] {
      var init := es[..|es| - 1];
      ListedAll(init);
      assert es == init + [es[|es| - 1]];
    }
  }

  /** When no record is listed, none is kept. */
  lemma {:induction false} ListedNone(es: seq<Entry>)
    requires forall k :: 0 <= k < |es| ==> !IsListed(es[k])
    ensures Listed(es) == []
  {
    if es != [] {
      ListedNone(es[..|es| - 1]);
      assert Listed(es) == [] + [];
    }
  }

  /** The stock-code map that writing the records in order produces: a later record overwrites an earlier one. */
  function StockIndex(es: seq<Entry>): (m: map<string, Entry>)
    ensures forall k :: k in m ==> HasStock(m[k], k)
  {
    if es == [] then map[]
    else
      var e := es[|es| - 1];
      var m := StockIndex(es[..|es| - 1]);
      if IsListed(e) then m[e.stockCode.value := e] else m
  }

  /** Writing one more record into the map. */
  lemma StockIndexSnoc(es: seq<Entry>, e: Entry)
    ensures StockIndex(es + [e])
         == if IsListed(e) then StockIndex(es)[e.stockCode.value := e] else StockIndex(es)
  {
    assert (es + [e])[..|es|] == es;
  }

  /** The records built from `items`, in order. */
  function Entries(items: seq<RawItem>): seq<Entry>
  {
    if items == [] then []
    else Entries(items[..|items| - 1]) + [EntryOf(items[|items| - 1])]
  }

  /** One record per item. */
  lemma {:induction false} EntriesLength(items: seq<RawItem>)
    ensures |Entries(items)| == |items|
  {
    if items != [] {
      EntriesLength(items[..|items| - 1]);
    }
  }

  /** The record at position `i` is built from the item at position `i`. */
  lemma {:induction false} EntriesAt(items: seq<RawItem>, i: nat)
    requires i < |items|
    ensures |Entries(items)| == |items| && Entries(items)[i] == EntryOf(items[i])
  {
    var init := items[..|items| - 1];
    EntriesLength(init);
    if i < |init| {
      EntriesAt(init, i);
      assert init[i] == items[i];
    }
  }

  /** The record-building loop of a reload: one record per item, in order, and the stock-code map. */
  method BuildIndex(items: seq<RawItem>) returns (entries: seq<Entry>, byStock: map<string, Entry>)
    ensures |entries| == |items|
    ensures forall i :: 0 <= i < |items| ==> entries[i] == EntryOf(items[i])
    ensures byStock == StockIndex(entries)
    ensures forall i :: 0 <= i < |entries| ==> WellFormed(entries[i])
  {
    entries, byStock := [], map[];
    for i := 0 to |items|
      invariant entries == Entries(items[..i])
      invariant byStock == StockIndex(entries)
    {
      var entry := EntryOf(items[i]);
      assert items[..i + 1][..i] == items[..i];
      StockIndexSnoc(entries, entry);
      entries := entries + [entry];
      if entry.stockCode.Some? && entry.stockCode.value != [] {
        byStock := byStock[entry.stockCode.value := entry];
      }
    }
    assert items[..|items|] == items;
    EntriesLength(items);
    forall i | 0 <= i < |items| ensures entries[i] == EntryOf(items[i]) && WellFormed(entries[i]) {
      EntriesAt(items, i);
      EntryOfNormalises(items[i]);
    }
  }

  /** The stock-code map holds exactly the stock codes of the listed records. */
  lemma {:induction false} StockIndexKeys(es: seq<Entry>, k: string)
    ensures k in StockIndex(es) <==> exists i :: 0 <= i < |es| && HasStock(es[i], k)
  {
    if es != [] {
      var init := es[..|es| - 1];
      StockIndexKeys(init, k);
      if exists i :: 0 <= i < |init| && HasStock(init[i], k) {
        var i :| 0 <= i < |init| && HasStock(init[i], k);
        assert HasStock(es[i], k);
      }
      if exists i :: 0 <= i < |es| && HasStock(es[i], k) {
        var i :| 0 <= i < |es| && HasStock(es[i], k);
        if i < |init| { assert HasStock(init[i], k); }
      }
    }
  }

  /** Each stock code maps to the last record that carries it. */
  lemma {:induction false} StockIndexLastWins(es: seq<Entry>, k: string) returns (i: nat)
    requires k in StockIndex(es)
    ensures i < |es| && HasStock(es[i], k) && StockIndex(es)[k] == es[i]
    ensures forall j :: i < j < |es| ==> !HasStock(es[j], k)
  {
    var init := es[..|es| - 1];
    var e := es[|es| - 1];
    if HasStock(e, k) {
      i := |es| - 1;
    } else {
      i := StockIndexLastWins(init, k);
    }
  }

  /** There are never more stock codes than listed records. */
  lemma {:induction false} StockIndexSize(es: seq<Entry>)
    ensures |StockIndex(es)| <= |Listed(es)| <= |es|
  {
    if es != [] {
      StockIndexSize(es[..|es| - 1]);
    }
  }

  /** Stock codes are never shared between two listed records. */
  predicate DistinctStockCodes(es: seq<Entry>)
  {
    forall i, j :: 0 <= i < j < |es| && IsListed(es[i]) && IsListed(es[j]) ==>
      es[i].stockCode.value != es[j].stockCode.value
  }

  /** With distinct stock codes, the map has one key per listed record. */
  lemma {:induction false} StockIndexSizeDistinct(es: seq<Entry>)
    requires DistinctStockCodes(es)
    ensures |StockIndex(es)| == |Listed(es)|
  {
    if es != [] {
      var init := es[..|es| - 1];
      var e := es[|es| - 1];
      assert DistinctStockCodes(init) by {
        forall i, j | 0 <= i < j < |init| && IsListed(init[i]) && IsListed(init[j])
          ensures init[i].stockCode.value != init[j].stockCode.value
        {
          assert es[i] == init[i] && es[j] == init[j];
        }
      }
      StockIndexSizeDistinct(init);
      if IsListed(e) {
        var k := e.stockCode.value;
        StockIndexKeys(init, k);
        forall i | 0 <= i < |init| ensures !HasStock(init[i], k) {
          assert es[i] == init[i];
        }
      }
    }
  }

  // ---------------------------------------------------------------------------
  // Tiered name search

  /** The bucket a record's name falls into, in the order the tests are made. */
  datatype Tier = Exact | Prefix | Substring | NoMatch

  function TierOf(name: string, queryLower: string): (t: Tier)
    ensures t == Exact || t == Prefix <==> queryLower <= name
  {
    if name == queryLower then Exact
    else if queryLower <= name then Prefix
    else if IsSubstring(queryLower, name) then Substring
    else NoMatch
  }

  /** The position of a tier in the result: exact, then prefix, then substring. */
  function Rank(t: Tier): nat
  {
    match t
    case Exact => 0
    case Prefix => 1
    case Substring => 2
    case NoMatch => 3
  }

  /** A name lands in one of the three result tiers exactly when it contains the query. */
  lemma TierMatchesSubstring(name: string, queryLower: string)
    ensures TierOf(name, queryLower) != NoMatch <==> IsSubstring(queryLower, name)
  {
    if queryLower <= name { PrefixIsSubstring(queryLower, name); }
  }

  /** The records of `pool` whose name falls into tier `t`, in pool order. */
  function Bucket(pool: seq<Entry>, queryLower: string, t: Tier): seq<Entry>
  {
    if pool == [] then []
    else
      var e := pool[|pool| - 1];
      Bucket(pool[..|pool| - 1], queryLower, t)
        + (if TierOf(e.corpNameLower, queryLower) == t then [e] else [])
  }

  /** Appending a record to the pool appends it to the bucket of its tier only. */
  lemma BucketSnoc(pool: seq<Entry>, e: Entry, queryLower: string, t: Tier)
    ensures Bucket(pool + [e], queryLower, t)
         == Bucket(pool, queryLower, t) + (if TierOf(e.corpNameLower, queryLower) == t then [e] else [])
  {
    assert (pool + [e])[..|pool|] == pool;
  }

  /** The bucket of a concatenation is the concatenation of the buckets. */
  lemma {:induction false} BucketAppend(a: seq<Entry>, b: seq<Entry>, queryLower: string, t: Tier)
    ensures Bucket(a + b, queryLower, t) == Bucket(a, queryLower, t) + Bucket(b, queryLower, t)
    decreases |b|
  {
    if b != [] {
      var init := b[..|b| - 1];
      BucketAppend(a, init, queryLower, t);
      assert (a + b)[..|a + b| - 1] == a + init;
      assert (a + b)[|a + b| - 1] == b[|b| - 1];
    } else {
      assert a + b == a;
    }
  }

  /** A pool whose every record has tier `t` is its own bucket. */
  lemma {:induction false} BucketAll(pool: seq<Entry>, queryLower: string, t: Tier)
    requires forall k :: 0 <= k < |pool| ==> TierOf(pool[k].corpNameLower, queryLower) == t
    ensures Bucket(pool, queryLower, t) == pool
  {
    if pool != [] {
      var init := pool[..|pool| - 1];
      BucketAll(init, queryLower, t);
      assert pool == init + [pool[|pool| - 1]];
    }
  }

  /** A pool with no record of tier `t` has an empty bucket. */
  lemma {:induction false} BucketNone(pool: seq<Entry>, queryLower: string, t: Tier)
    requires forall k :: 0 <= k < |pool| ==> TierOf(pool[k].corpNameLower, queryLower) != t
    ensures Bucket(pool, queryLower, t) == []
  {
    if pool != [] {
      BucketNone(pool[..|pool| - 1], queryLower, t);
      assert Bucket(pool, queryLower, t) == [] + [];
    }
  }

  /** The pool positions whose record falls into tier `t`, ascending. */
  function Positions(pool: seq<Entry>, queryLower: string, t: Tier): (ps: seq<nat>)
    ensures forall k :: 0 <= k < |ps| ==> ps[k] < |pool|
    ensures forall k, l :: 0 <= k < l < |ps| ==> ps[k] < ps[l]
    ensures forall i :: 0 <= i < |pool| ==> (i in ps <==> TierOf(pool[i].corpNameLower, queryLower) == t)
  {
    if pool == [] then []
    else
      var last := |pool| - 1;
      var ps := Positions(pool[..last], queryLower, t);
      assert forall i :: 0 <= i < last ==> pool[..last][i] == pool[i];
      if TierOf(pool[last].corpNameLower, queryLower) == t then ps + [last] else ps
  }

  /**
   * A bucket is the pool restricted to the positions of its tier: it keeps pool
   * order, and (since every record has one tier) no record is in two buckets.
   */
  lemma {:induction false} BucketSelection(pool: seq<Entry>, queryLower: string, t: Tier)
    ensures var b, ps := Bucket(pool, queryLower, t), Positions(pool, queryLower, t);
            |b| == |ps| && forall k :: 0 <= k < |b| ==> b[k] == pool[ps[k]]
  {
    if pool != [] {
      var init := pool[..|pool| - 1];
      BucketSelection(init, queryLower, t);
    }
  }

  /** Every record in a bucket has that bucket's tier. */
  lemma BucketTier(pool: seq<Entry>, queryLower: string, t: Tier, k: nat)
    requires k < |Bucket(pool, queryLower, t)|
    ensures TierOf(Bucket(pool, queryLower, t)[k].corpNameLower, queryLower) == t
  {
    BucketSelection(pool, queryLower, t);
  }

  /** The name-path ranking: exact matches, then prefix matches, then substring matches. */
  function Ranked(pool: seq<Entry>, queryLower: string): seq<Entry>
  {
    Bucket(pool, queryLower, Exact) + Bucket(pool, queryLower, Prefix) + Bucket(pool, queryLower, Substring)
  }

  /** The records whose lowered name contains the query, in pool order. */
  function Matching(pool: seq<Entry>, queryLower: string): seq<Entry>
  {
    if pool == [] then []
    else
      var e := pool[|pool| - 1];
      Matching(pool[..|pool| - 1], queryLower)
        + (if IsSubstring(queryLower, e.corpNameLower) then [e] else [])
  }

  /** The ranking only reorders the matching records: it neither drops nor adds one. */
  lemma {:induction false} RankedIsPermutation(pool: seq<Entry>, queryLower: string)
    ensures multiset(Ranked(pool, queryLower)) == multiset(Matching(pool, queryLower))
  {
    if pool != [] {
      var init := pool[..|pool| - 1];
      var e := pool[|pool| - 1];
      RankedIsPermutation(init, queryLower);
      TierMatchesSubstring(e.corpNameLower, queryLower);
    }
  }

  /** Along the ranking the tier never goes back: exact before prefix before substring. */
  lemma {:induction false} RankedTierOrder(pool: seq<Entry>, queryLower: string, i: nat, j: nat)
    requires i <= j < |Ranked(pool, queryLower)|
    ensures TierOf(Ranked(pool, queryLower)[j].corpNameLower, queryLower) != NoMatch
    ensures Rank(TierOf(Ranked(pool, queryLower)[i].corpNameLower, queryLower))
         <= Rank(TierOf(Ranked(pool, queryLower)[j].corpNameLower, queryLower))
  {
    var e, p, s := Bucket(pool, queryLower, Exact), Bucket(pool, queryLower, Prefix),
                   Bucket(pool, queryLower, Substring);
    var r := Ranked(pool, queryLower);
    forall k | 0 <= k < |r|
      ensures TierOf(r[k].corpNameLower, queryLower)
              == if k < |e| then Exact else if k < |e| + |p| then Prefix else Substring
    {
      if k < |e| {
        BucketTier(pool, queryLower, Exact, k);
      } else if k < |e| + |p| {
        BucketTier(pool, queryLower, Prefix, k - |e|);
      } else {
        BucketTier(pool, queryLower, Substring, k - |e| - |p|);
      }
    }
  }

  /** `results[:max_results]`. */
  function Truncate(r: seq<Entry>, maxResults: nat): (t: seq<Entry>)
    ensures t <= r
    ensures |t| == if |r| <= maxResults then |r| else maxResults
  {
    if |r| <= maxResults then r else r[..maxResults]
  }

  /** The records the name tiers look at: all of them, or only the listed ones. */
  function Pool(entries: seq<Entry>, listedOnly: bool): seq<Entry>
  {
    if listedOnly then Listed(entries) else entries
  }

  /** The records a search of the current data returns. */
  function SearchResult(entries: seq<Entry>, byStock: map<string, Entry>, query: string,
                        maxResults: nat, listedOnly: bool): seq<Entry>
  {
    var queryStripped := Strip(query);
    if queryStripped == [] then []
    else if queryStripped in byStock then [byStock[queryStripped]]
    else
      Truncate(Ranked(Pool(entries, listedOnly), Lower(queryStripped)), maxResults)
  }

  /** The name-matching loop of a search: one pass over the pool filling the three tiers. */
  method RankByName(pool: seq<Entry>, queryLower: string) returns (ranked: seq<Entry>)
    ensures ranked == Ranked(pool, queryLower)
  {
    var exact, prefix, substring := [], [], [];
    for i := 0 to |pool|
      invariant exact == Bucket(pool[..i], queryLower, Exact)
      invariant prefix == Bucket(pool[..i], queryLower, Prefix)
      invariant substring == Bucket(pool[..i], queryLower, Substring)
    {
      var e := pool[i];
      assert pool[..i + 1] == pool[..i] + [e];
      BucketSnoc(pool[..i], e, queryLower, Exact);
      BucketSnoc(pool[..i], e, queryLower, Prefix);
      BucketSnoc(pool[..i], e, queryLower, Substring);
      var name := e.corpNameLower;
      if name == queryLower {
        exact := exact + [e];
      } else if queryLower <= name {
        prefix := prefix + [e];
      } else if IsSubstring(queryLower, name) {
        substring := substring + [e];
      }
    }
    assert pool[..|pool|] == pool;
    ranked := exact + prefix + substring;
  }

  /** The search over the loaded data, as the source runs it. */
  method SearchIndex(entries: seq<Entry>, byStock: map<string, Entry>, query: string,
                     maxResults: nat, listedOnly: bool) returns (results: seq<Entry>)
    ensures results == SearchResult(entries, byStock, query, maxResults, listedOnly)
  {
    var queryStripped := Strip(query);
    if queryStripped == [] {
      return [];
    }
    var queryLower := Lower(queryStripped);
    if queryStripped in byStock {
      return [byStock[queryStripped]];
    }
    var pool := if listedOnly then Listed(entries) else entries;
    results := RankByName(pool, queryLower);
    results := if |results| <= maxResults then results else results[..maxResults];
  }

  /** A blank query finds nothing, whatever the data. */
  lemma BlankQueryFindsNothing(entries: seq<Entry>, byStock: map<string, Entry>, query: string,
                               maxResults: nat, listedOnly: bool)
    requires IsBlank(query)
    ensures SearchResult(entries, byStock, query, maxResults, listedOnly) == []
  {
  }

  /**
   * A stripped query that is a stock code returns that one record, whatever
   * `maxResults` and `listedOnly` are.
   */
  lemma StockCodeHit(entries: seq<Entry>, byStock: map<string, Entry>, query: string,
                     maxResults: nat, listedOnly: bool)
    requires !IsBlank(query) && Strip(query) in byStock
    ensures SearchResult(entries, byStock, query, maxResults, listedOnly) == [byStock[Strip(query)]]
  {
  }

  /**
   * On the name path the result is the ranking cut to `maxResults`: never
   * longer than that, a prefix of exact ++ prefix ++ substring, and the whole
   * ranking when it fits.
   */
  lemma NameSearchTruncates(entries: seq<Entry>, byStock: map<string, Entry>, query: string,
                            maxResults: nat, listedOnly: bool)
    requires !IsBlank(query) && Strip(query) !in byStock
    ensures var r := SearchResult(entries, byStock, query, maxResults, listedOnly);
            var ranked := Ranked(Pool(entries, listedOnly), Lower(Strip(query)));
            && |r| <= maxResults
            && r <= ranked
            && (|ranked| <= maxResults ==> r == ranked)
  {
  }

  /** Along the result the tier never goes back: exact, then prefix, then substring. */
  lemma {:induction false} NameSearchTierOrder(entries: seq<Entry>, byStock: map<string, Entry>, query: string,
                                              maxResults: nat, listedOnly: bool, i: nat, j: nat)
    requires !IsBlank(query) && Strip(query) !in byStock
    requires i <= j < |SearchResult(entries, byStock, query, maxResults, listedOnly)|
    ensures var r := SearchResult(entries, byStock, query, maxResults, listedOnly);
            var queryLower := Lower(Strip(query));
            Rank(TierOf(r[i].corpNameLower, queryLower)) <= Rank(TierOf(r[j].corpNameLower, queryLower))
  {
    NameSearchTruncates(entries, byStock, query, maxResults, listedOnly);
    RankedTierOrder(Pool(entries, listedOnly), Lower(Strip(query)), i, j);
  }

  /**
   * Every record found by name is a record of the searched pool whose lowered
   * name contains the lowered query; with `listedOnly` it is a listed one.
   */
  lemma {:induction false} NameSearchMatches(entries: seq<Entry>, byStock: map<string, Entry>, query: string,
                                            maxResults: nat, listedOnly: bool, i: nat)
    requires !IsBlank(query) && Strip(query) !in byStock
    requires i < |SearchResult(entries, byStock, query, maxResults, listedOnly)|
    ensures var r := SearchResult(entries, byStock, query, maxResults, listedOnly);
            && IsSubstring(Lower(Strip(query)), r[i].corpNameLower)
            && r[i] in Pool(entries, listedOnly)
            && (listedOnly ==> IsListed(r[i]))
  {
    var r := SearchResult(entries, byStock, query, maxResults, listedOnly);
    var pool := Pool(entries, listedOnly);
    var queryLower := Lower(Strip(query));
    NameSearchTruncates(entries, byStock, query, maxResults, listedOnly);
    RankedTierOrder(pool, queryLower, i, i);
    TierMatchesSubstring(r[i].corpNameLower, queryLower);
    RankedIsPermutation(pool, queryLower);
    assert r[i] in multiset(Ranked(pool, queryLower));
    MatchingInPool(pool, queryLower, r[i]);
    if listedOnly {
      ListedMembers(entries, r[i]);
    }
  }

  /** When the ranking fits in `maxResults`, every matching record of the pool is found. */
  lemma {:induction false} NameSearchComplete(entries: seq<Entry>, byStock: map<string, Entry>, query: string,
                                             maxResults: nat, listedOnly: bool, e: Entry)
    requires !IsBlank(query) && Strip(query) !in byStock
    requires |Ranked(Pool(entries, listedOnly), Lower(Strip(query)))| <= maxResults
    requires e in Pool(entries, listedOnly) && IsSubstring(Lower(Strip(query)), e.corpNameLower)
    ensures e in SearchResult(entries, byStock, query, maxResults, listedOnly)
  {
    var pool := Pool(entries, listedOnly);
    var queryLower := Lower(Strip(query));
    NameSearchTruncates(entries, byStock, query, maxResults, listedOnly);
    MatchingInPool(pool, queryLower, e);
    RankedIsPermutation(pool, queryLower);
    assert e in multiset(Ranked(pool, queryLower));
  }

  /** A record is in `Matching` exactly when it is in the pool and its name contains the query. */
  lemma {:induction false} MatchingInPool(pool: seq<Entry>, queryLower: string, e: Entry)
    ensures e in Matching(pool, queryLower) <==> e in pool && IsSubstring(queryLower, e.corpNameLower)
  {
    if pool != [] {
      var init := pool[..|pool| - 1];
      MatchingInPool(init, queryLower, e);
      assert pool == init + [pool[|pool| - 1]];
    }
  }

  // ---------------------------------------------------------------------------
  // Summary

  datatype SummaryInfo = SummaryInfo(totalCount: int, listedCount: int, unlistedCount: int, message: string)

  /** Decimal digits of a natural number, as `str()` writes them. */
  function NatDigits(n: nat): (r: string)
    ensures r != [] && forall k :: 0 <= k < |r| ==> '0' <= r[k] <= '9'
    ensures DigitsValue(r) == n
    ensures r[0] != '0' || r == "0"
  {
    var d := ['0' + (n % 10) as char];
    if n < 10 then d
    else
      var front := NatDigits(n / 10);
      assert (front + d)[..|front|] == front;
      front + d
  }

  /** The number a string of decimal digits denotes. */
  function DigitsValue(s: string): int
  {
    if s == [] then 0 else DigitsValue(s[..|s| - 1]) * 10 + (s[|s| - 1] as int - '0' as int)
  }

  /** `str(n)` for any integer. */
  function IntString(n: int): string
  {
    if n < 0 then "-" + NatDigits(-n) else NatDigits(n)
  }

  /** The counts and the status line reported for the loaded data. */
  function Summarize(entries: seq<Entry>, byStock: map<string, Entry>): (s: SummaryInfo)
    ensures s.listedCount + s.unlistedCount == s.totalCount == |entries|
    ensures s.listedCount == |byStock|
    ensures byStock == StockIndex(entries) ==> 0 <= s.listedCount <= |Listed(entries)| <= s.totalCount
    ensures byStock == StockIndex(entries) && DistinctStockCodes(entries) ==> s.listedCount == |Listed(entries)|
  {
    StockIndexSize(entries);
    var total := |entries|;
    var listed := |byStock|;
    var s := SummaryInfo(total, listed, total - listed,
                         "고유번호 목록 로드 완료: 전체 " + IntString(total) + "개 (상장 " + IntString(listed)
                         + "개, 비상장 " + IntString(total - listed) + "개)");
    if DistinctStockCodes(entries) then StockIndexSizeDistinct(entries); s else s
  }

  // ---------------------------------------------------------------------------
  // The cache

  class CorpCodeCache {
    var entries: seq<Entry>
    var byStock: map<string, Entry>
    var loadedAt: int

    /** The map is the index of the records, and every record is as loading builds it. */
    ghost predicate Valid()
      reads this
    {
      && byStock == StockIndex(entries)
      && forall i :: 0 <= i < |entries| ==> WellFormed(entries[i])
    }

    constructor ()
      ensures Valid()
      ensures entries == [] && byStock == map[] && loadedAt == 0
    {
      entries := [];
      byStock := map[];
      loadedAt := 0;
    }

    predicate IsLoaded()
      reads this
    {
      entries != []
    }

    predicate IsExpired(now: int)
      reads this
    {
      now - loadedAt > TtlSeconds
    }

    /** The test `_ensure_loaded` makes before and after taking the lock. */
    predicate NeedsReload(now: int)
      reads this
    {
      !IsLoaded() || IsExpired(now)
    }

    /**
     * Reload from a download outcome. On failure nothing changes; on success the
     * records, the map and the timestamp are replaced together. `doneAt` is the
     * clock reading taken once the download has been parsed.
     */
    method Load(doneAt: int, fetched: Option<seq<RawItem>>) returns (ok: bool)
      requires Valid()
      modifies this
      ensures Valid()
      ensures ok == fetched.Some?
      ensures ok ==> && |entries| == |fetched.value|
                     && (forall i :: 0 <= i < |entries| ==> entries[i] == EntryOf(fetched.value[i]))
                     && loadedAt == doneAt
      ensures !ok ==> entries == old(entries) && byStock == old(byStock) && loadedAt == old(loadedAt)
    {
      if fetched.None? {
        return false;
      }
      var newEntries, newByStock := BuildIndex(fetched.value);
      entries := newEntries;
      byStock := newByStock;
      loadedAt := doneAt;
      ok := true;
    }

    /**
     * Fetch only when there are no records or they are older than the TTL at
     * time `now`; a reload is stamped with the later reading `doneAt`.
     * `didFetch` says whether the download was asked for; `ok` is false when it
     * was and failed.
     */
    method EnsureLoaded(now: int, fetched: Option<seq<RawItem>>, doneAt: int) returns (ok: bool, didFetch: bool)
      requires Valid()
      modifies this
      ensures Valid()
      ensures didFetch == old(NeedsReload(now))
      ensures ok == (!didFetch || fetched.Some?)
      ensures didFetch && ok ==> && |entries| == |fetched.value|
                                 && (forall i :: 0 <= i < |entries| ==> entries[i] == EntryOf(fetched.value[i]))
                                 && loadedAt == doneAt
      ensures !(didFetch && ok) ==> entries == old(entries) && byStock == old(byStock) && loadedAt == old(loadedAt)
    {
      if entries != [] && !(now - loadedAt > TtlSeconds) {
        return true, false;
      }
      didFetch := true;
      ok := Load(doneAt, fetched);
    }

    /**
     * `search`: make sure the data is fresh, then run the search pass over it;
     * `None` is a failed reload.
     */
    method Search(now: int, fetched: Option<seq<RawItem>>, doneAt: int,
                  query: string, maxResults: nat, listedOnly: bool)
      returns (r: Option<seq<Entry>>)
      requires Valid()
      modifies this
      ensures Valid()
      ensures r.None? <==> old(NeedsReload(now)) && fetched.None?
      ensures r.Some? ==> r.value == SearchResult(entries, byStock, query, maxResults, listedOnly)
      ensures r.Some? && old(NeedsReload(now)) ==>
                && |entries| == |fetched.value|
                && (forall i :: 0 <= i < |entries| ==> entries[i] == EntryOf(fetched.value[i]))
                && loadedAt == doneAt
      ensures r.None? || !old(NeedsReload(now)) ==>
                entries == old(entries) && byStock == old(byStock) && loadedAt == old(loadedAt)
    {
      var ok, _ := EnsureLoaded(now, fetched, doneAt);
      if !ok {
        return None;
      }
      var results := SearchIndex(entries, byStock, query, maxResults, listedOnly);
      r := Some(results);
    }

    /** `summary`: make sure the data is fresh, then count; `None` is a failed reload. */
    method Summary(now: int, fetched: Option<seq<RawItem>>, doneAt: int) returns (r: Option<SummaryInfo>)
      requires Valid()
      modifies this
      ensures Valid()
      ensures r.None? <==> old(NeedsReload(now)) && fetched.None?
      ensures r.Some? ==> r.value == Summarize(entries, byStock)
      ensures r.Some? ==> r.value.listedCount + r.value.unlistedCount == r.value.totalCount
                          && 0 <= r.value.listedCount <= r.value.totalCount
      ensures r.Some? && old(NeedsReload(now)) ==>
                && |entries| == |fetched.value|
                && (forall i :: 0 <= i < |entries| ==> entries[i] == EntryOf(fetched.value[i]))
                && loadedAt == doneAt
      ensures r.None? || !old(NeedsReload(now)) ==>
                entries == old(entries) && byStock == old(byStock) && loadedAt == old(loadedAt)
    {
      var ok, _ := EnsureLoaded(now, fetched, doneAt);
      if !ok {
        return None;
      }
      r := Some(Summarize(entries, byStock));
    }
  }

  /**
   * A fresh cache fetches on its first use, at `t1`, and stamps the data with
   * the reading `d1` taken after the download. A second use at `t2` fetches
   * again exactly when more than the TTL has passed since `d1`; in particular a
   * second use within the TTL of the first call does not fetch.
   */
  method ReloadPolicy(t1: int, d1: int, t2: int, d2: int, items: seq<RawItem>, again: Option<seq<RawItem>>)
    returns (first: bool, second: bool)
    requires items != []
    requires t1 <= d1 <= t2 <= d2
    ensures first
    ensures second <==> t2 - d1 > TtlSeconds
    ensures t2 - t1 <= TtlSeconds ==> !second
  {
    var cache := new CorpCodeCache();
    var ok;
    ok, first := cache.EnsureLoaded(t1, Some(items), d1);
    ok, second := cache.EnsureLoaded(t2, again, d2);
  }
}
