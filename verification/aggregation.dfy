/**
  The chart inputs the dashboard derives from its brand list (the `useMemo`
  projections of App.tsx) and the sidebar search. All are pure functions of
  the list, the selected record, the search term and the chosen category.
*/
module Aggregation {
  import opened Wrappers
  import opened Domain
  import opened Tally
  import opened StableSort
  import opened Sequences

  // ----- lookups -----

  /** Index of the first element satisfying `p` (`Array.prototype.findIndex`). */
  function FirstIndex<T>(xs: seq<T>, p: T -> bool): (r: Option<nat>)
    ensures r.Some? ==> r.value < |xs| && p(xs[r.value]) && forall j :: 0 <= j < r.value ==> !p(xs[j])
    ensures r.None? ==> forall j :: 0 <= j < |xs| ==> !p(xs[j])
  {
    if xs == [] then None
    else if p(xs[0]) then Some(0)
    else
      match FirstIndex(xs[1..], p)
      case None => None
      case Some(i) => Some(i + 1)
  }

  /** `competitors.find(c => c.id === id)`: the first record with that id. */
  function FindById(cs: seq<Competitor>, id: string): (r: Option<Competitor>)
    ensures r.None? <==> forall i :: 0 <= i < |cs| ==> cs[i].id != id
    ensures r.Some? ==> exists i :: 0 <= i < |cs| && r.value == cs[i] && cs[i].id == id &&
                          forall j :: 0 <= j < i ==> cs[j].id != id
  {
    match FirstIndex(cs, (c: Competitor) => c.id == id)
    case None => None
    case Some(i) => Some(cs[i])
  }

  /** `c.data.find(d => d.category === category)`: a brand's first entry for a category. */
  function FindCategory(data: seq<StyleCount>, category: string): (r: Option<StyleCount>)
    ensures r.None? <==> forall i :: 0 <= i < |data| ==> data[i].category != category
    ensures r.Some? ==> exists i :: 0 <= i < |data| && r.value == data[i] && data[i].category == category &&
                          forall j :: 0 <= j < i ==> data[j].category != category
  {
    match FirstIndex(data, (d: StyleCount) => d.category == category)
    case None => None
    case Some(i) => Some(data[i])
  }

  /**
    `selectedCompetitor`: nothing without a selection; otherwise the first
    record carrying the selected id, or nothing when no record carries it.
  */
  function Selected(cs: seq<Competitor>, selectedId: Option<string>): (r: Option<Competitor>)
    ensures selectedId.None? ==> r.None?
    ensures selectedId.Some? ==> (r.None? <==> forall i :: 0 <= i < |cs| ==> cs[i].id != selectedId.value)
    ensures r.Some? ==>
              && selectedId.Some?
              && exists i :: 0 <= i < |cs| && r.value == cs[i] && cs[i].id == selectedId.value &&
                   forall j :: 0 <= j < i ==> cs[j].id != selectedId.value
  {
    if selectedId.None? then None else FindById(cs, selectedId.value)
  }

  // ----- price distribution of the selected brand -----

  /** One bar of the price histogram. */
  datatype BucketRow = BucketRow(bucket: Bucket, count: int)

  function Histogram(bs: seq<Bucket>, data: seq<StyleCount>): (r: seq<BucketRow>)
    ensures |r| == |bs|
    ensures forall i :: 0 <= i < |bs| ==> r[i].bucket == bs[i] && r[i].count == ColumnTotal(data, bs[i])
  {
    if bs == [] then [] else [BucketRow(bs[0], ColumnTotal(data, bs[0]))] + Histogram(bs[1..], data)
  }

  function RowsTotal(rows: seq<BucketRow>): int
  {
    if rows == [] then 0 else rows[0].count + RowsTotal(rows[1..])
  }

  lemma {:induction false} HistogramTotal(bs: seq<Bucket>, data: seq<StyleCount>)
    ensures RowsTotal(Histogram(bs, data)) == ColumnsTotal(bs, data)
    decreases |bs|
  {
    if bs != [] {
      HistogramTotal(bs[1..], data);
      assert Histogram(bs, data)[1..] == Histogram(bs[1..], data);
    }
  }

  /**
    `priceDistributionData`: empty with no selection, otherwise one row per
    bucket in `PRICE_BUCKETS` order holding that bucket's count summed over
    the brand's categories (missing buckets as zero). The bars add up to
    every count of the brand.
  */
  function PriceDistribution(selected: Option<Competitor>): (r: seq<BucketRow>)
    ensures selected.None? ==> r == []
    ensures selected.Some? ==> |r| == |Buckets|
    ensures selected.Some? ==> forall i :: 0 <= i < |r| ==>
              r[i].bucket == Buckets[i] && r[i].count == ColumnTotal(selected.value.data, Buckets[i])
    ensures selected.Some? ==> RowsTotal(r) == GrandTotal(selected.value.data)
  {
    match selected
    case None => []
    case Some(c) =>
      HistogramTotal(Buckets, c.data);
      ColumnsSumToGrandTotal(c.data);
      Histogram(Buckets, c.data)
  }

  // ----- category mix of the selected brand -----

  /** One entry of `categoryMixData`: a category and its style count. */
  datatype MixEntry = MixEntry(name: string, value: int)

  function MixValue(e: MixEntry): int
  {
    e.value
  }

  /** `selectedCompetitor.data.map(cat => ({ name: cat.category, value: <sum of Object.values> }))`. */
  function MixEntries(data: seq<StyleCount>): (r: seq<MixEntry>)
    ensures |r| == |data|
    ensures forall i :: 0 <= i < |data| ==> r[i] == MixEntry(data[i].category, BucketTotal(data[i].counts))
    ensures SumKeys(r, MixValue) == GrandTotal(data)
  {
    if data == [] then []
    else
      ValuesTotalIsBucketTotal(data[0].counts);
      var rest := MixEntries(data[1..]);
      var r := [MixEntry(data[0].category, ValuesTotal(data[0].counts))] + rest;
      assert r[1..] == rest;
      r
  }

  /**
    `categoryMixData`: empty with no selection, otherwise one entry per
    category entry of the brand, valued at the sum of its counts, in
    non-increasing value order with equal values in their original order.
    The slices add up to every count of the brand.
  */
  function CategoryMix(selected: Option<Competitor>): (r: seq<MixEntry>)
    ensures selected.None? ==> r == []
    ensures selected.Some? ==> |r| == |selected.value.data|
    ensures selected.Some? ==> SortedDesc(r, MixValue)
    ensures selected.Some? ==> multiset(r) == multiset(MixEntries(selected.value.data))
    ensures selected.Some? ==> forall k :: WithKey(r, MixValue, k) == WithKey(MixEntries(selected.value.data), MixValue, k)
    ensures selected.Some? ==> SumKeys(r, MixValue) == GrandTotal(selected.value.data)
  {
    match selected
    case None => []
    case Some(c) => SortDesc(MixEntries(c.data), MixValue)
  }

  // ----- cross-brand assortment -----

  /** One bar of the assortment ranking: name, `totalStyles` and logo. */
  datatype Standing = Standing(name: string, styles: int, logo: string)

  function StylesOf(s: Standing): int
  {
    s.styles
  }

  function StandingOf(c: Competitor): Standing
  {
    Standing(c.name, c.totalStyles, c.logo)
  }

  function Standings(cs: seq<Competitor>): (r: seq<Standing>)
    ensures |r| == |cs|
    ensures forall i :: 0 <= i < |cs| ==> r[i] == StandingOf(cs[i])
  {
    seq(|cs|, i requires 0 <= i < |cs| => StandingOf(cs[i]))
  }

  /**
    `crossBrandAssortment`: every brand exactly once (as many times as it
    occurs), sorted by `totalStyles`, largest first, ties in list order.
  */
  function CrossBrandAssortment(cs: seq<Competitor>): (r: seq<Standing>)
    ensures |r| == |cs|
    ensures SortedDesc(r, StylesOf)
    ensures multiset(r) == multiset(Standings(cs))
    ensures forall i :: 0 <= i < |cs| ==> StandingOf(cs[i]) in r
    ensures forall x :: x in r ==> exists i :: 0 <= i < |cs| && x == StandingOf(cs[i])
    ensures forall k :: WithKey(r, StylesOf, k) == WithKey(Standings(cs), StylesOf, k)
  {
    var rows := Standings(cs);
    var r := SortDesc(rows, StylesOf);
    assert forall x :: x in r <==> x in rows by {
      forall x ensures x in r <==> x in rows {
        assert x in r <==> x in multiset(r);
        assert x in rows <==> x in multiset(rows);
      }
    }
    r
  }

  // ----- per-brand columns of the comparison charts -----

  /** No later element of `cs` has the name of `cs[i]`: its value is the one an object keyed by name keeps. */
  predicate LastOfName(cs: seq<Competitor>, i: int)
    requires 0 <= i < |cs|
  {
    forall j :: i < j < |cs| ==> cs[j].name != cs[i].name
  }

  /** The names of the brands in `cs`. */
  function Names(cs: seq<Competitor>): (r: set<string>)
    ensures forall i :: 0 <= i < |cs| ==> cs[i].name in r
    ensures forall s :: s in r ==> exists i :: 0 <= i < |cs| && cs[i].name == s
  {
    set i | 0 <= i < |cs| :: cs[i].name
  }

  lemma NamesSnoc(cs: seq<Competitor>)
    requires cs != []
    ensures Names(cs) == Names(cs[..|cs| - 1]) + {cs[|cs| - 1].name}
  {
    var init := cs[..|cs| - 1];
    forall i | 0 <= i < |init| ensures init[i] == cs[i] { }
    assert cs[|cs| - 1].name in Names(cs);
  }

  /**
    `competitors.forEach(c => { row[c.name] = f(c) })`: one entry per brand
    name; when two records share a name the later one wins.
  */
  function BrandColumns(cs: seq<Competitor>, f: Competitor -> int): (r: map<string, int>)
    ensures r.Keys == Names(cs)
    ensures forall i :: 0 <= i < |cs| && LastOfName(cs, i) ==> r[cs[i].name] == f(cs[i])
    decreases |cs|
  {
    if cs == [] then map[]
    else
      var m := BrandColumns(cs[..|cs| - 1], f);
      ColumnsSnoc(cs, f, cs[..|cs| - 1], m);
      m[cs[|cs| - 1].name := f(cs[|cs| - 1])]
  }

  /** Writing the last brand's value over the columns of the others gives the columns of all. */
  lemma ColumnsSnoc(cs: seq<Competitor>, f: Competitor -> int, init: seq<Competitor>, m: map<string, int>)
    requires cs != [] && init == cs[..|cs| - 1]
    requires m.Keys == Names(init)
    requires forall i :: 0 <= i < |init| && LastOfName(init, i) ==> m[init[i].name] == f(init[i])
    ensures m[cs[|cs| - 1].name := f(cs[|cs| - 1])].Keys == Names(cs)
    ensures forall i :: 0 <= i < |cs| && LastOfName(cs, i) ==> m[cs[|cs| - 1].name := f(cs[|cs| - 1])][cs[i].name] == f(cs[i])
  {
    var last := cs[|cs| - 1];
    var r := m[last.name := f(last)];
    NamesSnoc(cs);
    forall i | 0 <= i < |cs| && LastOfName(cs, i) ensures r[cs[i].name] == f(cs[i]) {
      if i < |cs| - 1 {
        assert init[i] == cs[i];
        assert cs[i].name != last.name;
        assert LastOfName(init, i);
      }
    }
  }

  // ----- cross-brand pricing curve -----

  /** One point of the pricing curve: a bucket and, per brand name, a count. */
  datatype CurveRow = CurveRow(bucket: Bucket, byBrand: map<string, int>)

  function CurveRows(bs: seq<Bucket>, cs: seq<Competitor>): (r: seq<CurveRow>)
    ensures |r| == |bs|
    ensures forall k :: 0 <= k < |bs| ==> r[k].bucket == bs[k]
    ensures forall k :: 0 <= k < |bs| ==> r[k].byBrand == BrandColumns(cs, (c: Competitor) => ColumnTotal(c.data, bs[k]))
  {
    if bs == [] then []
    else [CurveRow(bs[0], BrandColumns(cs, (c: Competitor) => ColumnTotal(c.data, bs[0])))] + CurveRows(bs[1..], cs)
  }

  /**
    `pricingArchitectureComparison`: one row per bucket in `PRICE_BUCKETS`
    order, mapping every brand name to that brand's count for the bucket
    summed over its categories, zero when absent.
  */
  function PricingCurve(cs: seq<Competitor>): (r: seq<CurveRow>)
    ensures |r| == |Buckets|
    ensures forall k :: 0 <= k < |r| ==> r[k].bucket == Buckets[k]
    ensures forall k :: 0 <= k < |r| ==> r[k].byBrand.Keys == Names(cs)
    ensures forall k, i :: 0 <= k < |r| && 0 <= i < |cs| && LastOfName(cs, i) ==>
              cs[i].name in r[k].byBrand && r[k].byBrand[cs[i].name] == ColumnTotal(cs[i].data, Buckets[k])
  {
    CurveRows(Buckets, cs)
  }

  // ----- category x brand heatmap -----

  /** A brand's total for a category: the first entry's counts summed, or 0 without one. */
  function CategoryCell(c: Competitor, category: Category): (n: int)
    ensures (forall j :: 0 <= j < |c.data| ==> c.data[j].category != CategoryLabel(category)) ==> n == 0
    ensures (exists j :: 0 <= j < |c.data| && c.data[j].category == CategoryLabel(category)) ==>
              exists j :: 0 <= j < |c.data| && c.data[j].category == CategoryLabel(category) &&
                (forall i :: 0 <= i < j ==> c.data[i].category != CategoryLabel(category)) &&
                n == BucketTotal(c.data[j].counts)
  {
    match FindCategory(c.data, CategoryLabel(category))
    case None => 0
    case Some(d) =>
      ValuesTotalIsBucketTotal(d.counts);
      ValuesTotal(d.counts)
  }

  /** One heatmap row: a category and, per brand name, that brand's total for it. */
  datatype HeatRow = HeatRow(category: Category, byBrand: map<string, int>)

  function HeatRows(cats: seq<Category>, cs: seq<Competitor>): (r: seq<HeatRow>)
    ensures |r| == |cats|
    ensures forall k :: 0 <= k < |cats| ==> r[k].category == cats[k]
    ensures forall k :: 0 <= k < |cats| ==> r[k].byBrand == BrandColumns(cs, (c: Competitor) => CategoryCell(c, cats[k]))
  {
    if cats == [] then []
    else [HeatRow(cats[0], BrandColumns(cs, (c: Competitor) => CategoryCell(c, cats[0])))] + HeatRows(cats[1..], cs)
  }

  /**
    `categoryHeatmapData`: one row per category in `CATEGORIES` order, every
    brand name present, each cell the brand's total for that category.
  */
  function Heatmap(cs: seq<Competitor>): (r: seq<HeatRow>)
    ensures |r| == |Categories|
    ensures forall k :: 0 <= k < |r| ==> r[k].category == Categories[k]
    ensures forall k :: 0 <= k < |r| ==> r[k].byBrand.Keys == Names(cs)
    ensures forall k, i :: 0 <= k < |r| && 0 <= i < |cs| && LastOfName(cs, i) ==>
              cs[i].name in r[k].byBrand && r[k].byBrand[cs[i].name] == CategoryCell(cs[i], Categories[k])
  {
    HeatRows(Categories, cs)
  }

  // ----- single-category drilldown -----

  /** One brand's bars in the drilldown: its name and a count for every bucket. */
  datatype DrillRow = DrillRow(brand: string, counts: map<Bucket, int>)

  /** A brand's drilldown row for one category: every bucket, zero-filled. */
  function DrillRowOf(c: Competitor, category: Category): (r: DrillRow)
    ensures r.brand == c.name
    ensures CompleteCounts(r.counts)
    ensures (forall j :: 0 <= j < |c.data| ==> c.data[j].category != CategoryLabel(category)) ==>
              forall b :: r.counts[b] == 0
    ensures (exists j :: 0 <= j < |c.data| && c.data[j].category == CategoryLabel(category)) ==>
              exists j :: 0 <= j < |c.data| && c.data[j].category == CategoryLabel(category) &&
                (forall i :: 0 <= i < j ==> c.data[i].category != CategoryLabel(category)) &&
                forall b :: r.counts[b] == Lookup(c.data[j].counts, b)
  {
    AllBucketsListed();
    match FindCategory(c.data, CategoryLabel(category))
    case None => DrillRow(c.name, map b | b in Buckets :: 0)
    case Some(d) => DrillRow(c.name, map b | b in Buckets :: Lookup(d.counts, b))
  }

  /** `drilldownComparisonData`: one row per brand, in list order. */
  function Drilldown(cs: seq<Competitor>, category: Category): (r: seq<DrillRow>)
    ensures |r| == |cs|
    ensures forall i :: 0 <= i < |cs| ==> r[i] == DrillRowOf(cs[i], category)
  {
    seq(|cs|, i requires 0 <= i < |cs| => DrillRowOf(cs[i], category))
  }

  // ----- sidebar search -----

  /** ASCII `toLowerCase` of one character. */
  function LowerChar(ch: char): char
  {
    if 'A' <= ch <= 'Z' then (ch as int + 32) as char else ch
  }

  /** ASCII `toLowerCase`. */
  function Lower(s: string): (r: string)
    ensures |r| == |s|
    ensures forall i :: 0 <= i < |s| ==> r[i] == LowerChar(s[i])
  {
    if s == [] then [] else [LowerChar(s[0])] + Lower(s[1..])
  }

  /** `s.includes(t)`. */
  function Contains(s: string, t: string): (r: bool)
    ensures r <==> exists i :: 0 <= i <= |s| && t <= s[i..]
    decreases |s|
  {
    if t <= s then
      assert s[0..] == s;
      true
    else if s == [] then false
    else
      var r := Contains(s[1..], t);
      assert forall i :: 1 <= i <= |s| ==> s[i..] == s[1..][i - 1..];
      if r then
        var i :| 0 <= i <= |s[1..]| && t <= s[1..][i..];
        assert s[i + 1..] == s[1..][i..];
        r
      else r
  }

  predicate MatchesSearch(c: Competitor, term: string)
  {
    Contains(Lower(c.name), Lower(term))
  }

  /**
    `filteredCompetitors`: the records whose lower-cased name contains the
    lower-cased search term, in list order, each as often as it occurs.
  */
  function FilterByName(cs: seq<Competitor>, term: string): (r: seq<Competitor>)
    ensures |r| <= |cs|
    ensures IsSubsequence(r, cs)
    ensures forall c :: multiset(r)[c] == if MatchesSearch(c, term) then multiset(cs)[c] else 0
  {
    if cs == [] then []
    else
      var rest := FilterByName(cs[1..], term);
      assert cs == [cs[0]] + cs[1..];
      assert multiset(cs) == multiset{cs[0]} + multiset(cs[1..]);
      if MatchesSearch(cs[0], term) then
        var r := [cs[0]] + rest;
        assert r[1..] == rest;
        assert multiset(r) == multiset{cs[0]} + multiset(rest);
        r
      else
        rest
  }

  // ----- how the projections relate -----

  /** For a brand whose name is not reused later in the list, its pricing-curve column is its price distribution. */
  lemma CurveColumnIsDistribution(cs: seq<Competitor>, i: int)
    requires 0 <= i < |cs| && LastOfName(cs, i)
    ensures forall k :: 0 <= k < |Buckets| ==>
              PricingCurve(cs)[k].byBrand[cs[i].name] == PriceDistribution(Some(cs[i]))[k].count
  {
  }

  lemma {:induction false} BucketsSumAgree(bs: seq<Bucket>, m1: map<Bucket, int>, m2: map<Bucket, int>)
    requires forall b :: Lookup(m1, b) == Lookup(m2, b)
    ensures BucketsSum(bs, m1) == BucketsSum(bs, m2)
    decreases |bs|
  {
    if bs != [] {
      BucketsSumAgree(bs[1..], m1, m2);
    }
  }

  /** A brand's drilldown bars for a category add up to its heatmap cell for that category. */
  lemma DrilldownSumsToHeatmapCell(cs: seq<Competitor>, category: Category, i: int)
    requires 0 <= i < |cs|
    ensures BucketTotal(Drilldown(cs, category)[i].counts) == CategoryCell(cs[i], category)
  {
    var row := DrillRowOf(cs[i], category);
    AllBucketsListed();
    match FindCategory(cs[i].data, CategoryLabel(category))
    case None =>
      BucketsSumAgree(Buckets, row.counts, map[]);
      ZeroBucketsSum(Buckets);
    case Some(d) =>
      ValuesTotalIsBucketTotal(d.counts);
      BucketsSumAgree(Buckets, row.counts, d.counts);
  }

  lemma {:induction false} ZeroBucketsSum(bs: seq<Bucket>)
    ensures BucketsSum(bs, map[]) == 0
    decreases |bs|
  {
    if bs != [] {
      ZeroBucketsSum(bs[1..]);
    }
  }

  /** A category no brand carries yields an all-zero drilldown row per brand and zero heatmap cells. */
  lemma AbsentCategoryIsZero(cs: seq<Competitor>, category: Category)
    requires forall i, j :: 0 <= i < |cs| && 0 <= j < |cs[i].data| ==> cs[i].data[j].category != CategoryLabel(category)
    ensures |Drilldown(cs, category)| == |cs|
    ensures forall i, b :: 0 <= i < |cs| ==> Drilldown(cs, category)[i].counts[b] == 0
    ensures forall i :: 0 <= i < |cs| ==> CategoryCell(cs[i], category) == 0
  {
  }

  lemma {:induction false} FilterKeepsAll(cs: seq<Competitor>, term: string)
    requires forall i :: 0 <= i < |cs| ==> MatchesSearch(cs[i], term)
    ensures FilterByName(cs, term) == cs
    decreases |cs|
  {
    if cs != [] {
      var rest := FilterByName(cs[1..], term);
      FilterKeepsAll(cs[1..], term);
      assert rest == cs[1..];
      FilterKeepsHead(cs, term);
      assert cs == [cs[0]] + cs[1..];
    }
  }

  lemma FilterKeepsHead(cs: seq<Competitor>, term: string)
    requires cs != [] && MatchesSearch(cs[0], term)
    ensures FilterByName(cs, term) == [cs[0]] + FilterByName(cs[1..], term)
  {
  }

  /** An empty search term keeps every record, in order. */
  lemma EmptySearchKeepsAll(cs: seq<Competitor>)
    ensures FilterByName(cs, "") == cs
  {
    forall i | 0 <= i < |cs| ensures MatchesSearch(cs[i], "") {
      assert Lower("") == "";
      assert Lower(cs[i].name)[0..] == Lower(cs[i].name);
    }
    FilterKeepsAll(cs, "");
  }

  lemma LowerIdempotent(s: string)
    ensures Lower(Lower(s)) == Lower(s)
  {
  }

  lemma {:induction false} FilterSameMatches(cs: seq<Competitor>, t1: string, t2: string)
    requires forall c :: MatchesSearch(c, t1) == MatchesSearch(c, t2)
    ensures FilterByName(cs, t1) == FilterByName(cs, t2)
    decreases |cs|
  {
    if cs != [] {
      FilterSameMatches(cs[1..], t1, t2);
    }
  }

  /** The search ignores ASCII case: a term and its lower-cased form select the same records. */
  lemma SearchIgnoresCase(cs: seq<Competitor>, term: string)
    ensures FilterByName(cs, term) == FilterByName(cs, Lower(term))
  {
    LowerIdempotent(term);
    FilterSameMatches(cs, term, Lower(term));
  }
}
