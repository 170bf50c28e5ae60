/**
  The dashboard's vocabulary: the eight price buckets, the sixteen apparel
  categories, the six seed brands, and the record shapes the rest of the
  model works on (constants.tsx and types.ts).
*/
module Domain {
  import opened Wrappers

  /** `PriceBucket`: eight opaque labels, listed in display (ascending price) order. */
  datatype Bucket =
    | Under100
    | From100To199
    | From200To299
    | From300To399
    | From400To599
    | From600To799
    | From799To999
    | Over1000

  /** `PRICE_BUCKETS`. */
  const Buckets: seq<Bucket> :=
    [Under100, From100To199, From200To299, From300To399,
     From400To599, From600To799, From799To999, Over1000]

  /** `Category`: sixteen menswear categories. */
  datatype Category =
    | TeesHenleysTanks
    | CasualShirts
    | DressShirts
    | Polos
    | SweaterPolos
    | Sweaters
    | CardigansZipUps
    | Sweatshirts
    | ShirtJacketsOvershirts
    | CoatsOuterwear
    | SuitJacketsSportCoats
    | JeansDenim
    | CasualPants
    | DressPants
    | Sweatpants
    | Shorts

  /** `CATEGORIES`. */
  const Categories: seq<Category> :=
    [TeesHenleysTanks, CasualShirts, DressShirts, Polos,
     SweaterPolos, Sweaters, CardigansZipUps, Sweatshirts,
     ShirtJacketsOvershirts, CoatsOuterwear, SuitJacketsSportCoats, JeansDenim,
     CasualPants, DressPants, Sweatpants, Shorts]

  /** Position of a bucket in `PRICE_BUCKETS` (the `idx` of the mock generator's loop). */
  function BucketIndex(b: Bucket): (i: nat)
    ensures i < |Buckets| && Buckets[i] == b
  {
    match b
    case Under100 => 0
    case From100To199 => 1
    case From200To299 => 2
    case From300To399 => 3
    case From400To599 => 4
    case From600To799 => 5
    case From799To999 => 6
    case Over1000 => 7
  }

  /** Position of a category in `CATEGORIES`. */
  function CategoryIndex(c: Category): (i: nat)
    ensures i < |Categories| && Categories[i] == c
  {
    match c
    case TeesHenleysTanks => 0
    case CasualShirts => 1
    case DressShirts => 2
    case Polos => 3
    case SweaterPolos => 4
    case Sweaters => 5
    case CardigansZipUps => 6
    case Sweatshirts => 7
    case ShirtJacketsOvershirts => 8
    case CoatsOuterwear => 9
    case SuitJacketsSportCoats => 10
    case JeansDenim => 11
    case CasualPants => 12
    case DressPants => 13
    case Sweatpants => 14
    case Shorts => 15
  }

  /** The string a bucket stands for in TypeScript. */
  function BucketLabel(b: Bucket): string
  {
    match b
    case Under100 => "Under $100"
    case From100To199 => "$100 to $199"
    case From200To299 => "$200 to $299"
    case From300To399 => "$300 to $399"
    case From400To599 => "$400 to $599"
    case From600To799 => "$600 to $799"
    case From799To999 => "$799 to $999"
    case Over1000 => "$1000+"
  }

  /** The string a category stands for in TypeScript (and in the AI's replies). */
  function CategoryLabel(c: Category): string
  {
    match c
    case TeesHenleysTanks => "Tees, Henleys & Tanks"
    case CasualShirts => "Casual Shirts"
    case DressShirts => "Dress Shirts"
    case Polos => "Polos"
    case SweaterPolos => "Sweater Polos"
    case Sweaters => "Sweaters"
    case CardigansZipUps => "Cardigans & Zip-Ups"
    case Sweatshirts => "Sweatshirts"
    case ShirtJacketsOvershirts => "Shirt Jackets & Overshirts"
    case CoatsOuterwear => "Coats & Outerwear"
    case SuitJacketsSportCoats => "Suit Jackets & Sport Coats"
    case JeansDenim => "Jeans & Denim"
    case CasualPants => "Casual Pants (chinos and khakis)"
    case DressPants => "Dress Pants"
    case Sweatpants => "Sweatpants"
    case Shorts => "Shorts"
  }

  /**
    The lower bound of the price range a bucket's label names: 0 for
    "Under $100", otherwise the first dollar figure printed in the label.
    The buckets are opaque labels to the program; this only reads off the
    label text (note that "$600 to $799" and "$799 to $999" share 799).
  */
  function LabelFloor(b: Bucket): nat
  {
    match b
    case Under100 => 0
    case From100To199 => 100
    case From200To299 => 200
    case From300To399 => 300
    case From400To599 => 400
    case From600To799 => 600
    case From799To999 => 799
    case Over1000 => 1000
  }

  /** First element of `xs` whose label is `s`. */
  function FirstLabelled<T>(s: string, xs: seq<T>, nameOf: T -> string): (r: Option<T>)
    ensures r.Some? ==> r.value in xs && nameOf(r.value) == s
    ensures r.None? ==> forall x :: x in xs ==> nameOf(x) != s
  {
    if xs == [] then None
    else if nameOf(xs[0]) == s then Some(xs[0])
    else FirstLabelled(s, xs[1..], nameOf)
  }

  /** The `PriceBucket` a string denotes, if it denotes one. */
  function ParseBucket(s: string): (r: Option<Bucket>)
    ensures r.Some? ==> BucketLabel(r.value) == s
    ensures r.None? ==> forall b :: BucketLabel(b) != s
  {
    AllBucketsListed();
    FirstLabelled(s, Buckets, BucketLabel)
  }

  /** The `Category` a string denotes, if it denotes one. */
  function ParseCategory(s: string): (r: Option<Category>)
    ensures r.Some? ==> CategoryLabel(r.value) == s
    ensures r.None? ==> forall c :: CategoryLabel(c) != s
  {
    AllCategoriesListed();
    FirstLabelled(s, Categories, CategoryLabel)
  }

  /** `PRICE_BUCKETS` lists every bucket, exactly once. */
  lemma AllBucketsListed()
    ensures |Buckets| == 8
    ensures forall b: Bucket :: b in Buckets
    ensures forall i, j :: 0 <= i < j < |Buckets| ==> Buckets[i] != Buckets[j]
  {
    forall b: Bucket ensures b in Buckets {
      assert Buckets[BucketIndex(b)] == b;
    }
  }

  /** `CATEGORIES` lists every category, exactly once. */
  lemma AllCategoriesListed()
    ensures |Categories| == 16
    ensures forall c: Category :: c in Categories
    ensures forall i, j :: 0 <= i < j < |Categories| ==> Categories[i] != Categories[j]
  {
    forall c: Category ensures c in Categories {
      assert Categories[CategoryIndex(c)] == c;
    }
  }

  /** The bucket labels run from "Under $100" to "$1000+" in ascending price order. */
  lemma BucketsAscending()
    ensures BucketLabel(Buckets[0]) == "Under $100"
    ensures BucketLabel(Buckets[|Buckets| - 1]) == "$1000+"
    ensures forall i, j :: 0 <= i < j < |Buckets| ==> LabelFloor(Buckets[i]) < LabelFloor(Buckets[j])
  {
  }

  /** Distinct buckets have distinct labels, so `PriceBucket` is a union of eight different strings. */
  lemma BucketLabelInjective(b1: Bucket, b2: Bucket)
    ensures BucketLabel(b1) == BucketLabel(b2) ==> b1 == b2
  {
  }

  /** Distinct categories have distinct labels, so `Category` is a union of sixteen different strings. */
  lemma CategoryLabelInjective(c1: Category, c2: Category)
    ensures CategoryLabel(c1) == CategoryLabel(c2) ==> c1 == c2
  {
  }

  /** Parsing inverts labelling, both ways: a string is a `PriceBucket` exactly when it is one of the eight labels. */
  lemma BucketLabelRoundTrip(b: Bucket, s: string)
    ensures ParseBucket(BucketLabel(b)) == Some(b)
    ensures ParseBucket(s) == Some(b) <==> BucketLabel(b) == s
  {
    BucketLabelInjective(ParseBucket(BucketLabel(b)).value, b);
    if BucketLabel(b) == s {
      BucketLabelInjective(ParseBucket(s).value, b);
    }
  }

  /** Parsing inverts labelling, both ways: a string is a `Category` exactly when it is one of the sixteen labels. */
  lemma CategoryLabelRoundTrip(c: Category, s: string)
    ensures ParseCategory(CategoryLabel(c)) == Some(c)
    ensures ParseCategory(s) == Some(c) <==> CategoryLabel(c) == s
  {
    CategoryLabelInjective(ParseCategory(CategoryLabel(c)).value, c);
    if CategoryLabel(c) == s {
      CategoryLabelInjective(ParseCategory(s).value, c);
    }
  }

  /** `GroundingSource`: one web citation. */
  datatype Source = Source(title: string, uri: string)

  /**
    `StyleCountData`. The category is a plain string and the counts a partial
    map, because records that come back from the AI service are not checked
    against the `Category` and `PriceBucket` unions.
  */
  datatype StyleCount = StyleCount(category: string, counts: map<Bucket, int>)

  /** `CompetitorData`: one brand record. `totalStyles` is stored, not derived. */
  datatype Competitor = Competitor(
    id: string,
    name: string,
    url: string,
    logo: string,
    lastUpdated: string,
    totalStyles: int,
    data: seq<StyleCount>,
    sources: Option<seq<Source>>)

  /** Whether `counts` has an entry for every bucket, as the `Record<PriceBucket, number>` type claims. */
  predicate CompleteCounts(counts: map<Bucket, int>)
  {
    forall b: Bucket :: b in counts
  }

  /** An entry of `MOCK_COMPETITORS`. */
  datatype SeedBrand = SeedBrand(id: string, name: string, url: string, logo: string)

  /** `MOCK_COMPETITORS`. */
  const Seeds: seq<SeedBrand> := [
    SeedBrand("1", "Buck Mason", "https://www.buckmason.com/?g=men", "https://picsum.photos/seed/buckmason/200/200"),
    SeedBrand("2", "Ralph Lauren", "https://www.ralphlauren.com/men", "https://picsum.photos/seed/ralphlauren/200/200"),
    SeedBrand("3", "Brooks Brothers", "https://www.brooksbrothers.com/mens", "https://picsum.photos/seed/brooksbrothers/200/200"),
    SeedBrand("4", "Suit Supply", "https://suitsupply.com/en-us/", "https://picsum.photos/seed/suitsupply/200/200"),
    SeedBrand("5", "Todd Snyder", "https://www.toddsnyder.com/", "https://picsum.photos/seed/toddsnyder/200/200"),
    SeedBrand("6", "Sid Mashburn", "https://shopmashburn.com/", "https://picsum.photos/seed/sidmashburn/200/200")
  ]

  /** The seed list has six brands with pairwise-distinct ids and pairwise-distinct names. */
  lemma SeedsDistinct()
    ensures |Seeds| == 6
    ensures forall i, j :: 0 <= i < j < |Seeds| ==> Seeds[i].id != Seeds[j].id
    ensures forall i, j :: 0 <= i < j < |Seeds| ==> Seeds[i].name != Seeds[j].name
  {
  }
}
