/**
  The two ways the program adds up style counts, and why they agree.

  Some places read one bucket at a time with a zero default
  (`cat.counts[bucket] || 0`, App.tsx:93, 121, 145); others add up whatever
  values the counts object holds (`Object.values(counts).reduce(...)`,
  App.tsx:104, 132 and services/geminiService.ts:135).
*/
module Tally {
  import opened Domain

  /** `counts[b] || 0`: a missing bucket reads as zero. */
  function Lookup(counts: map<Bucket, int>, b: Bucket): int
  {
    if b in counts then counts[b] else 0
  }

  /** Sum of a sequence of numbers (`reduce((a, b) => a + b, 0)`). */
  function Sum(xs: seq<int>): int
  {
    if xs == [] then 0 else xs[0] + Sum(xs[1..])
  }

  /** The values a counts object actually holds, visiting keys in the order `bs` lists them (`Object.values`). */
  function PresentValues(counts: map<Bucket, int>, bs: seq<Bucket>): seq<int>
  {
    if bs == [] then []
    else (if bs[0] in counts then [counts[bs[0]]] else []) + PresentValues(counts, bs[1..])
  }

  /** `Object.values(counts).reduce((a, b) => a + b, 0)`. */
  function ValuesTotal(counts: map<Bucket, int>): int
  {
    Sum(PresentValues(counts, Buckets))
  }

  /** Sum over the buckets `bs` of `counts[b] || 0`. */
  function BucketsSum(bs: seq<Bucket>, counts: map<Bucket, int>): int
  {
    if bs == [] then 0 else Lookup(counts, bs[0]) + BucketsSum(bs[1..], counts)
  }

  /** Sum of every bucket's count, missing ones as zero. */
  function BucketTotal(counts: map<Bucket, int>): int
  {
    BucketsSum(Buckets, counts)
  }

  /** One bucket summed over a brand's categories: `data.reduce((sum, cat) => sum + (cat.counts[b] || 0), 0)`. */
  function ColumnTotal(data: seq<StyleCount>, b: Bucket): int
  {
    if data == [] then 0 else Lookup(data[0].counts, b) + ColumnTotal(data[1..], b)
  }

  /** Every count of every category of a brand. */
  function GrandTotal(data: seq<StyleCount>): int
  {
    if data == [] then 0 else BucketTotal(data[0].counts) + GrandTotal(data[1..])
  }

  /** The column totals for the buckets `bs`, added up. */
  function ColumnsTotal(bs: seq<Bucket>, data: seq<StyleCount>): int
  {
    if bs == [] then 0 else ColumnTotal(data, bs[0]) + ColumnsTotal(bs[1..], data)
  }

  /** Category totals over a brand's entries, in the form `Object.values` gives them. */
  function ValuesGrandTotal(data: seq<StyleCount>): int
  {
    if data == [] then 0 else ValuesTotal(data[0].counts) + ValuesGrandTotal(data[1..])
  }

  lemma {:induction false} PresentValuesSum(counts: map<Bucket, int>, bs: seq<Bucket>)
    ensures Sum(PresentValues(counts, bs)) == BucketsSum(bs, counts)
    decreases |bs|
  {
    if bs != [] {
      PresentValuesSum(counts, bs[1..]);
      var head := if bs[0] in counts then [counts[bs[0]]] else [];
      var rest := PresentValues(counts, bs[1..]);
      if bs[0] in counts {
        assert (head + rest)[0] == counts[bs[0]];
        assert (head + rest)[1..] == rest;
      } else {
        assert head + rest == rest;
      }
    }
  }

  /**
    Adding up the values a counts object holds gives the same number as
    adding up all eight buckets with missing ones as zero.
  */
  lemma {:induction false} ValuesTotalIsBucketTotal(counts: map<Bucket, int>)
    ensures ValuesTotal(counts) == BucketTotal(counts)
  {
    PresentValuesSum(counts, Buckets);
  }

  /** The same, summed over all of a brand's categories. */
  lemma {:induction false} ValuesGrandTotalIsGrandTotal(data: seq<StyleCount>)
    ensures ValuesGrandTotal(data) == GrandTotal(data)
    decreases |data|
  {
    if data != [] {
      ValuesTotalIsBucketTotal(data[0].counts);
      ValuesGrandTotalIsGrandTotal(data[1..]);
    }
  }

  lemma {:induction false} ColumnsTotalEmpty(bs: seq<Bucket>)
    ensures ColumnsTotal(bs, []) == 0
    decreases |bs|
  {
    if bs != [] {
      ColumnsTotalEmpty(bs[1..]);
    }
  }

  lemma {:induction false} ColumnsTotalSplit(bs: seq<Bucket>, data: seq<StyleCount>)
    requires data != []
    ensures ColumnsTotal(bs, data) == BucketsSum(bs, data[0].counts) + ColumnsTotal(bs, data[1..])
    decreases |bs|
  {
    if bs != [] {
      ColumnsTotalSplit(bs[1..], data);
    }
  }

  /**
    Summing bucket by bucket (the price histogram) and category by category
    (the category totals) count the same styles.
  */
  lemma {:induction false} ColumnsSumToGrandTotal(data: seq<StyleCount>)
    ensures ColumnsTotal(Buckets, data) == GrandTotal(data)
    decreases |data|
  {
    if data == [] {
      ColumnsTotalEmpty(Buckets);
    } else {
      ColumnsTotalSplit(Buckets, data);
      ColumnsSumToGrandTotal(data[1..]);
    }
  }
}
