/**
 * The seven-company data set of the cache tests, loaded through `EntryOf`, and
 * what a stock-code search, a name search and the summary return on it.
 */
module CacheExamples {
  import opened Wrappers
  import opened Text
  import opened CorpCodes

  /** The seven companies of the cache tests. */
  function SampleItems(): seq<RawItem>
  {
    [ RawItem("00126380", "삼성전자", "005930", "20240101"),
      RawItem("00164779", "삼성SDI", "006400", "20240101"),
      RawItem("00104842", "삼성생명", "032830", "20240101"),
      RawItem("00401731", "LG전자", "066570", "20240101"),
      RawItem("00356361", "현대자동차", "005380", "20240101"),
      RawItem("99999999", "비상장테스트", "", "20240101"),
      RawItem("88888888", "비상장삼성", "", "20240101") ]
  }

  /** `es` is what the record-building loop produces from `items`. */
  predicate BuiltFrom(es: seq<Entry>, items: seq<RawItem>)
  {
    |es| == |items| && forall i :: 0 <= i < |items| ==> es[i] == EntryOf(items[i])
  }

  lemma PresentField(raw: string)
    requires raw != [] && !IsSpace(raw[0]) && !IsSpace(raw[|raw| - 1])
    ensures OptionalField(raw) == Some(raw)
  {
    StripTrimmed(raw);
  }

  lemma SampleRecord0()
    ensures EntryOf(RawItem("00126380", "삼성전자", "005930", "20240101")).corpNameLower == "삼성전자"
    ensures EntryOf(RawItem("00126380", "삼성전자", "005930", "20240101")).stockCode == Some("005930")
  {
    PresentField("005930");
  }

  lemma SampleEntry0(es: seq<Entry>)
    requires BuiltFrom(es, SampleItems())
    ensures es[0].corpNameLower == "삼성전자" && es[0].stockCode == Some("005930")
  {
    assert SampleItems()[0] == RawItem("00126380", "삼성전자", "005930", "20240101");
    SampleRecord0();
  }

  lemma SampleRecord1()
    ensures EntryOf(RawItem("00164779", "삼성SDI", "006400", "20240101")).corpNameLower == "삼성sdi"
    ensures EntryOf(RawItem("00164779", "삼성SDI", "006400", "20240101")).stockCode == Some("006400")
  {
    PresentField("006400");
  }

  lemma SampleEntry1(es: seq<Entry>)
    requires BuiltFrom(es, SampleItems())
    ensures es[1].corpNameLower == "삼성sdi" && es[1].stockCode == Some("006400")
  {
    assert SampleItems()[1] == RawItem("00164779", "삼성SDI", "006400", "20240101");
    SampleRecord1();
  }

  lemma SampleRecord2()
    ensures EntryOf(RawItem("00104842", "삼성생명", "032830", "20240101")).corpNameLower == "삼성생명"
    ensures EntryOf(RawItem("00104842", "삼성생명", "032830", "20240101")).stockCode == Some("032830")
  {
    PresentField("032830");
  }

  lemma SampleEntry2(es: seq<Entry>)
    requires BuiltFrom(es, SampleItems())
    ensures es[2].corpNameLower == "삼성생명" && es[2].stockCode == Some("032830")
  {
    assert SampleItems()[2] == RawItem("00104842", "삼성생명", "032830", "20240101");
    SampleRecord2();
  }

  lemma SampleRecord3()
    ensures EntryOf(RawItem("00401731", "LG전자", "066570", "20240101")).corpNameLower == "lg전자"
    ensures EntryOf(RawItem("00401731", "LG전자", "066570", "20240101")).stockCode == Some("066570")
  {
    PresentField("066570");
  }

  lemma SampleEntry3(es: seq<Entry>)
    requires BuiltFrom(es, SampleItems())
    ensures es[3].corpNameLower == "lg전자" && es[3].stockCode == Some("066570")
  {
    assert SampleItems()[3] == RawItem("00401731", "LG전자", "066570", "20240101");
    SampleRecord3();
  }

  lemma SampleRecord4()
    ensures EntryOf(RawItem("00356361", "현대자동차", "005380", "20240101")).corpNameLower == "현대자동차"
    ensures EntryOf(RawItem("00356361", "현대자동차", "005380", "20240101")).stockCode == Some("005380")
  {
    PresentField("005380");
  }

  lemma SampleEntry4(es: seq<Entry>)
    requires BuiltFrom(es, SampleItems())
    ensures es[4].corpNameLower == "현대자동차" && es[4].stockCode == Some("005380")
  {
    assert SampleItems()[4] == RawItem("00356361", "현대자동차", "005380", "20240101");
    SampleRecord4();
  }

  lemma SampleRecord5()
    ensures EntryOf(RawItem("99999999", "비상장테스트", "", "20240101")).corpNameLower == "비상장테스트"
    ensures EntryOf(RawItem("99999999", "비상장테스트", "", "20240101")).stockCode == None
  {
  }

  lemma SampleEntry5(es: seq<Entry>)
    requires BuiltFrom(es, SampleItems())
    ensures es[5].corpNameLower == "비상장테스트" && es[5].stockCode == None
  {
    assert SampleItems()[5] == RawItem("99999999", "비상장테스트", "", "20240101");
    SampleRecord5();
  }

  lemma SampleRecord6()
    ensures EntryOf(RawItem("88888888", "비상장삼성", "", "20240101")).corpNameLower == "비상장삼성"
    ensures EntryOf(RawItem("88888888", "비상장삼성", "", "20240101")).stockCode == None
  {
  }

  lemma SampleEntry6(es: seq<Entry>)
    requires BuiltFrom(es, SampleItems())
    ensures es[6].corpNameLower == "비상장삼성" && es[6].stockCode == None
  {
    assert SampleItems()[6] == RawItem("88888888", "비상장삼성", "", "20240101");
    SampleRecord6();
  }

  /** Any seven records with the sample's stock codes. */
  predicate SampleCodes(es: seq<Entry>)
  {
    && |es| == 7
    && es[0].stockCode == Some("005930") && es[1].stockCode == Some("006400")
    && es[2].stockCode == Some("032830") && es[3].stockCode == Some("066570")
    && es[4].stockCode == Some("005380") && es[5].stockCode == None && es[6].stockCode == None
  }

  /** Any seven records with the sample's lowered names. */
  predicate SampleNames(es: seq<Entry>)
  {
    && |es| == 7
    && es[0].corpNameLower == "삼성전자"
    && es[1].corpNameLower == "삼성sdi"
    && es[2].corpNameLower == "삼성생명"
    && es[3].corpNameLower == "lg전자"
    && es[4].corpNameLower == "현대자동차"
    && es[5].corpNameLower == "비상장테스트"
    && es[6].corpNameLower == "비상장삼성"
  }

  lemma SampleBuilt(es: seq<Entry>)
    requires BuiltFrom(es, SampleItems())
    ensures SampleCodes(es) && SampleNames(es)
  {
    SampleEntry0(es); SampleEntry1(es); SampleEntry2(es); SampleEntry3(es);
    SampleEntry4(es); SampleEntry5(es); SampleEntry6(es);
  }

  lemma StockLookupFor(es: seq<Entry>)
    requires SampleCodes(es)
    ensures SearchResult(es, StockIndex(es), "005930", 10, false) == [es[0]]
  {
    assert HasStock(es[0], "005930");
    StockIndexKeys(es, "005930");
    var i := StockIndexLastWins(es, "005930");
    assert i == 0;
    StripTrimmed("005930");
    StockCodeHit(es, StockIndex(es), "005930", 10, false);
  }

  /** Query "005930": the one record carrying that stock code. */
  lemma SampleStockLookup(es: seq<Entry>)
    requires BuiltFrom(es, SampleItems())
    ensures SearchResult(es, StockIndex(es), "005930", 10, false) == [es[0]]
  {
    SampleBuilt(es);
    StockLookupFor(es);
  }

  /** The tier each sample name falls into for the query "삼성". */
  lemma SampleTiers()
    ensures TierOf("삼성전자", "삼성") == Prefix
    ensures TierOf("삼성sdi", "삼성") == Prefix
    ensures TierOf("삼성생명", "삼성") == Prefix
    ensures TierOf("비상장삼성", "삼성") == Substring
    ensures TierOf("lg전자", "삼성") == NoMatch
    ensures TierOf("현대자동차", "삼성") == NoMatch
    ensures TierOf("비상장테스트", "삼성") == NoMatch
  {
    assert "비상장삼성"[0] != "삼성"[0];
    assert "삼성" <= "비상장삼성"[3..];
    assert IsSubstring("삼성", "비상장삼성");
    NoOccurrence("삼성", "lg전자");
    NoOccurrence("삼성", "현대자동차");
    NoOccurrence("삼성", "비상장테스트");
  }

  /** A name that never holds the query's first character does not contain the query. */
  lemma NoOccurrence(q: string, name: string)
    requires q != [] && forall k :: 0 <= k < |name| ==> name[k] != q[0]
    ensures !IsSubstring(q, name)
  {
    forall i | 0 <= i <= |name| ensures !(q <= name[i..]) {
      if i < |name| { assert name[i..][0] == name[i]; }
    }
  }

  /**
   * A name none of whose windows of the query's length starts and ends with the
   * query's first and last characters does not contain the query.
   */
  lemma NoWindow(q: string, name: string)
    requires q != []
    requires forall i :: 0 <= i && i + |q| <= |name| ==> name[i] != q[0] || name[i + |q| - 1] != q[|q| - 1]
    ensures !IsSubstring(q, name)
  {
    forall i | 0 <= i <= |name| ensures !(q <= name[i..]) {
      if i + |q| <= |name| {
        assert name[i..][0] == name[i] && name[i..][|q| - 1] == name[i + |q| - 1];
      }
    }
  }

  /** The bucket of tier `t` when only the record at `k` can fall into it. */
  lemma SoleBucket(es: seq<Entry>, q: string, k: nat, t: Tier)
    requires k < |es|
    requires forall j :: 0 <= j < |es| && j != k ==> TierOf(es[j].corpNameLower, q) != t
    ensures Bucket(es, q, t) == if TierOf(es[k].corpNameLower, q) == t then [es[k]] else []
  {
    var a, c, b := es[..k], es[..k + 1], es[k + 1..];
    assert c == a + [es[k]];
    assert es == c + b;
    BucketAppend(c, b, q, t);
    BucketSnoc(a, es[k], q, t);
    BucketNone(a, q, t);
    BucketNone(b, q, t);
  }

  /**
   * When one record's name equals the query and no other name contains it, the
   * ranking is that record alone.
   */
  lemma RankedSoleExact(es: seq<Entry>, q: string, k: nat)
    requires k < |es|
    requires TierOf(es[k].corpNameLower, q) == Exact
    requires forall j :: 0 <= j < |es| && j != k ==> TierOf(es[j].corpNameLower, q) == NoMatch
    ensures Ranked(es, q) == [es[k]]
  {
    SoleBucket(es, q, k, Exact);
    SoleBucket(es, q, k, Prefix);
    SoleBucket(es, q, k, Substring);
  }

  /** A query that is none of the five sample stock codes is not a key of the map. */
  lemma NotSampleCode(es: seq<Entry>, k: string)
    requires SampleCodes(es)
    requires k != "005930" && k != "006400" && k != "032830" && k != "066570" && k != "005380"
    ensures k !in StockIndex(es)
  {
    StockIndexKeys(es, k);
  }

  /** For the query "삼성전자" only the record of that name matches, exactly. */
  lemma ExactNameTiers()
    ensures TierOf("삼성전자", "삼성전자") == Exact
    ensures TierOf("삼성sdi", "삼성전자") == NoMatch
    ensures TierOf("삼성생명", "삼성전자") == NoMatch
    ensures TierOf("lg전자", "삼성전자") == NoMatch
    ensures TierOf("현대자동차", "삼성전자") == NoMatch
    ensures TierOf("비상장테스트", "삼성전자") == NoMatch
    ensures TierOf("비상장삼성", "삼성전자") == NoMatch
  {
    assert "삼성sdi"[2] != "삼성전자"[2] && "삼성생명"[2] != "삼성전자"[2];
    NoWindow("삼성전자", "삼성sdi");
    NoWindow("삼성전자", "삼성생명");
    NoWindow("삼성전자", "비상장삼성");
    NoOccurrence("삼성전자", "lg전자");
    NoOccurrence("삼성전자", "현대자동차");
    NoOccurrence("삼성전자", "비상장테스트");
  }

  /** For the query "lg전자" only the record of that lowered name matches, exactly. */
  lemma LowerNameTiers()
    ensures TierOf("lg전자", "lg전자") == Exact
    ensures TierOf("삼성전자", "lg전자") == NoMatch
    ensures TierOf("삼성sdi", "lg전자") == NoMatch
    ensures TierOf("삼성생명", "lg전자") == NoMatch
    ensures TierOf("현대자동차", "lg전자") == NoMatch
    ensures TierOf("비상장테스트", "lg전자") == NoMatch
    ensures TierOf("비상장삼성", "lg전자") == NoMatch
  {
    NoOccurrence("lg전자", "삼성전자");
    NoOccurrence("lg전자", "삼성sdi");
    NoOccurrence("lg전자", "삼성생명");
    NoOccurrence("lg전자", "현대자동차");
    NoOccurrence("lg전자", "비상장테스트");
    NoOccurrence("lg전자", "비상장삼성");
  }

  /**
   * Seven records whose first three names start with the query, whose next three
   * do not contain it and whose last contains it further in: the ranking is the
   * first three, then the last.
   */
  lemma RankedPrefixThenSubstring(es: seq<Entry>, q: string)
    requires |es| == 7
    requires forall k :: 0 <= k < 3 ==> TierOf(es[k].corpNameLower, q) == Prefix
    requires forall k :: 3 <= k < 6 ==> TierOf(es[k].corpNameLower, q) == NoMatch
    requires TierOf(es[6].corpNameLower, q) == Substring
    ensures Ranked(es, q) == es[..3] + es[6..]
  {
    BucketNone(es, q, Exact);
    assert Bucket(es, q, Prefix) == es[..3] by {
      assert es == es[..3] + es[3..];
      BucketFront(es[..3], es[3..], q, Prefix);
    }
    assert Bucket(es, q, Substring) == es[6..] by {
      assert es == es[..6] + es[6..];
      BucketBack(es[..6], es[6..], q, Substring);
    }
  }

  /** A pool whose front all has tier `t` and whose back has none: the bucket is the front. */
  lemma BucketFront(a: seq<Entry>, b: seq<Entry>, q: string, t: Tier)
    requires forall k :: 0 <= k < |a| ==> TierOf(a[k].corpNameLower, q) == t
    requires forall k :: 0 <= k < |b| ==> TierOf(b[k].corpNameLower, q) != t
    ensures Bucket(a + b, q, t) == a
  {
    BucketAppend(a, b, q, t);
    BucketAll(a, q, t);
    BucketNone(b, q, t);
  }

  /** A pool whose front has no record of tier `t` and whose back is all `t`: the bucket is the back. */
  lemma BucketBack(a: seq<Entry>, b: seq<Entry>, q: string, t: Tier)
    requires forall k :: 0 <= k < |a| ==> TierOf(a[k].corpNameLower, q) != t
    requires forall k :: 0 <= k < |b| ==> TierOf(b[k].corpNameLower, q) == t
    ensures Bucket(a + b, q, t) == b
  {
    BucketAppend(a, b, q, t);
    BucketNone(a, q, t);
    BucketAll(b, q, t);
  }

  lemma PrefixTiersFor(es: seq<Entry>)
    requires SampleNames(es)
    ensures && TierOf(es[0].corpNameLower, "삼성") == Prefix && TierOf(es[1].corpNameLower, "삼성") == Prefix
            && TierOf(es[2].corpNameLower, "삼성") == Prefix && TierOf(es[3].corpNameLower, "삼성") == NoMatch
            && TierOf(es[4].corpNameLower, "삼성") == NoMatch && TierOf(es[5].corpNameLower, "삼성") == NoMatch
            && TierOf(es[6].corpNameLower, "삼성") == Substring
  {
    SampleTiers();
  }

  lemma RankedFor(es: seq<Entry>)
    requires SampleNames(es)
    ensures Ranked(es, "삼성") == [es[0], es[1], es[2], es[6]]
  {
    PrefixTiersFor(es);
    RankedPrefixThenSubstring(es, "삼성");
    assert es[..3] + es[6..] == [es[0], es[1], es[2], es[6]];
  }

  /**
   * On the sample, a trimmed query that is none of the stock codes takes the
   * name path: the ranking for its lowered form, cut to `n`.
   */
  lemma NamePath(es: seq<Entry>, q: string, n: nat)
    requires SampleCodes(es)
    requires q != [] && !IsSpace(q[0]) && !IsSpace(q[|q| - 1])
    requires q != "005930" && q != "006400" && q != "032830" && q != "066570" && q != "005380"
    ensures SearchResult(es, StockIndex(es), q, n, false) == Truncate(Ranked(es, Lower(q)), n)
  {
    StripTrimmed(q);
    NotSampleCode(es, q);
  }

  lemma RankedExactFor(es: seq<Entry>)
    requires SampleNames(es)
    ensures Ranked(es, "삼성전자") == [es[0]]
  {
    var q := "삼성전자";
    assert && TierOf(es[0].corpNameLower, q) == Exact
           && TierOf(es[1].corpNameLower, q) == NoMatch && TierOf(es[2].corpNameLower, q) == NoMatch
           && TierOf(es[3].corpNameLower, q) == NoMatch && TierOf(es[4].corpNameLower, q) == NoMatch
           && TierOf(es[5].corpNameLower, q) == NoMatch && TierOf(es[6].corpNameLower, q) == NoMatch by {
      ExactNameTiers();
    }
    RankedSoleExact(es, q, 0);
  }

  lemma ExactNameFor(es: seq<Entry>)
    requires SampleCodes(es) && SampleNames(es)
    ensures SearchResult(es, StockIndex(es), "삼성전자", 10, false) == [es[0]]
  {
    NamePath(es, "삼성전자", 10);
    assert Lower("삼성전자") == "삼성전자";
    RankedExactFor(es);
  }

  /**
   * Query "삼성전자": the one record of that name, 00126380 with stock code
   * 005930; an exact match comes first.
   */
  lemma SampleExactName(es: seq<Entry>)
    requires BuiltFrom(es, SampleItems())
    ensures SearchResult(es, StockIndex(es), "삼성전자", 10, false) == [es[0]]
    ensures es[0].corpCode == "00126380" && es[0].stockCode == Some("005930")
  {
    SampleBuilt(es);
    ExactNameFor(es);
    assert SampleItems()[0].corpCode == "00126380";
  }

  lemma RankedLowerFor(es: seq<Entry>)
    requires SampleNames(es)
    ensures Ranked(es, "lg전자") == [es[3]]
  {
    var q := "lg전자";
    assert && TierOf(es[3].corpNameLower, q) == Exact
           && TierOf(es[0].corpNameLower, q) == NoMatch && TierOf(es[1].corpNameLower, q) == NoMatch
           && TierOf(es[2].corpNameLower, q) == NoMatch && TierOf(es[4].corpNameLower, q) == NoMatch
           && TierOf(es[5].corpNameLower, q) == NoMatch && TierOf(es[6].corpNameLower, q) == NoMatch by {
      LowerNameTiers();
    }
    RankedSoleExact(es, q, 3);
  }

  lemma LowerNameFor(es: seq<Entry>)
    requires SampleCodes(es) && SampleNames(es)
    ensures SearchResult(es, StockIndex(es), "lg전자", 10, false) == [es[3]]
  {
    NamePath(es, "lg전자", 10);
    assert Lower("lg전자") == "lg전자";
    RankedLowerFor(es);
  }

  /** Query "lg전자": the record named "LG전자", found through its lowered name. */
  lemma SampleLowerName(es: seq<Entry>)
    requires BuiltFrom(es, SampleItems())
    ensures SearchResult(es, StockIndex(es), "lg전자", 10, false) == [es[3]]
    ensures es[3].corpName == "LG전자"
  {
    SampleBuilt(es);
    LowerNameFor(es);
    assert SampleItems()[3].corpName == "LG전자";
  }

  lemma PrefixBeforeSubstringFor(es: seq<Entry>)
    requires SampleCodes(es) && SampleNames(es)
    ensures SearchResult(es, StockIndex(es), "삼성", 20, false) == [es[0], es[1], es[2], es[6]]
  {
    NamePath(es, "삼성", 20);
    assert Lower("삼성") == "삼성";
    RankedFor(es);
  }

  /** Query "삼성" with room for 20: the three prefix matches, then the substring match. */
  lemma SamplePrefixBeforeSubstring(es: seq<Entry>)
    requires BuiltFrom(es, SampleItems())
    ensures SearchResult(es, StockIndex(es), "삼성", 20, false) == [es[0], es[1], es[2], es[6]]
  {
    SampleBuilt(es);
    PrefixBeforeSubstringFor(es);
  }

  lemma MaxResultsFor(es: seq<Entry>)
    requires SampleCodes(es) && SampleNames(es)
    ensures SearchResult(es, StockIndex(es), "삼성", 2, false) == [es[0], es[1]]
  {
    NamePath(es, "삼성", 2);
    assert Lower("삼성") == "삼성";
    RankedFor(es);
    assert [es[0], es[1], es[2], es[6]][..2] == [es[0], es[1]];
  }

  /** Query "삼성" with room for 2: the first two prefix matches. */
  lemma SampleMaxResults(es: seq<Entry>)
    requires BuiltFrom(es, SampleItems())
    ensures SearchResult(es, StockIndex(es), "삼성", 2, false) == [es[0], es[1]]
  {
    SampleBuilt(es);
    MaxResultsFor(es);
  }

  /** Five of the seven sample records are listed. */
  lemma ListedFor(es: seq<Entry>)
    requires SampleCodes(es)
    ensures Listed(es) == es[..5]
  {
    assert es == es[..5] + es[5..];
    ListedAppend(es[..5], es[5..]);
    ListedAll(es[..5]);
    ListedNone(es[5..]);
  }

  lemma DistinctFor(es: seq<Entry>)
    requires SampleCodes(es)
    ensures DistinctStockCodes(es)
  {
  }

  lemma SummaryFor(es: seq<Entry>)
    requires SampleCodes(es)
    ensures var s := Summarize(es, StockIndex(es));
            s.totalCount == 7 && s.listedCount == 5 && s.unlistedCount == 2
  {
    ListedFor(es);
    DistinctFor(es);
    StockIndexSizeDistinct(es);
  }

  /** The summary of the sample: seven records, five listed, two unlisted. */
  lemma SampleSummary(es: seq<Entry>)
    requires BuiltFrom(es, SampleItems())
    ensures var s := Summarize(es, StockIndex(es));
            s.totalCount == 7 && s.listedCount == 5 && s.unlistedCount == 2
  {
    SampleBuilt(es);
    SummaryFor(es);
  }
}
