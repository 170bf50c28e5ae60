/**
  The data sources behind the dashboard (services/geminiService.ts): the
  offline mock synthesiser and the mapping of an AI service reply into a
  brand record. The AI call itself, the prompt and `JSON.parse` are outside
  the model; it starts from an already-parsed reply.
*/
module Service {
  import opened Wrappers
  import opened Domain
  import opened Tally
  import opened Sequences

  /** A category's "natural" price bucket indices, for standard and for premium brands. */
  datatype Profile = Profile(typical: seq<int>, premium: seq<int>)

  /** `CATEGORY_PRICE_PROFILES`, keyed by category label. */
  const PriceProfiles: map<string, Profile> := map[
    "Tees, Henleys & Tanks" := Profile([0], [0, 1]),
    "Casual Shirts" := Profile([0, 1], [1, 2]),
    "Dress Shirts" := Profile([0, 1], [1, 2]),
    "Polos" := Profile([0, 1], [1, 2]),
    "Sweater Polos" := Profile([1, 2], [2, 3]),
    "Sweaters" := Profile([1, 2, 3], [3, 4, 5]),
    "Cardigans & Zip-Ups" := Profile([1, 2, 3], [3, 4, 5]),
    "Sweatshirts" := Profile([0, 1], [1, 2]),
    "Shirt Jackets & Overshirts" := Profile([1, 2, 3], [3, 4, 5]),
    "Coats & Outerwear" := Profile([4, 5, 6], [6, 7]),
    "Suit Jackets & Sport Coats" := Profile([3, 4, 5], [5, 6, 7]),
    "Jeans & Denim" := Profile([1, 2], [2, 3]),
    "Casual Pants (chinos and khakis)" := Profile([1, 2], [1, 2]),
    "Dress Pants" := Profile([1, 2, 3], [2, 3, 4]),
    "Sweatpants" := Profile([0, 1], [1, 2]),
    "Shorts" := Profile([0, 1], [0, 1])
  ]

  /** The profile used for a category the table does not list. */
  const DefaultProfile: Profile := Profile([0, 1, 2], [2, 3, 4])

  /** Brands the synthesiser treats as premium. */
  const PremiumBrands: seq<string> := ["Ralph Lauren", "Todd Snyder", "Sid Mashburn", "Suit Supply"]

  function ProfileFor(category: string): Profile
  {
    if category in PriceProfiles then PriceProfiles[category] else DefaultProfile
  }

  /** The bucket indices a brand's counts for `category` concentrate on. */
  function TargetBuckets(name: string, category: string): seq<int>
  {
    var profile := ProfileFor(category);
    if name in PremiumBrands then profile.premium else profile.typical
  }

  /** Some target index lies one bucket away from `idx`. */
  predicate Adjacent(targets: seq<int>, idx: int)
  {
    exists t :: t in targets && (t - idx == 1 || idx - t == 1)
  }

  /** The range a bucket's mock count falls in: target, neighbour of a target, or outlier. */
  predicate InDrawRange(targets: seq<int>, idx: int, n: int)
  {
    if idx in targets then 10 <= n <= 49
    else if Adjacent(targets, idx) then 0 <= n <= 9
    else n == 0 || n == 1
  }

  /** A value of `Math.random()`. */
  type Unit = u: real | 0.0 <= u < 1.0

  /**
    The random numbers one bucket may consume: `first` is the draw every
    branch makes, `second` the extra draw of the outlier branch.
  */
  datatype Draw = Draw(first: Unit, second: Unit)

  /** The count the synthesiser writes for bucket `idx` given its random draws. */
  function BucketCount(targets: seq<int>, idx: int, d: Draw): (n: int)
    ensures InDrawRange(targets, idx, n)
  {
    if idx in targets then (d.first * 40.0).Floor + 10
    else if Adjacent(targets, idx) then (d.first * 10.0).Floor
    else if d.first > 0.95 then (d.second * 2.0).Floor
    else 0
  }

  /** Every count `InDrawRange` allows is produced by some draw, so the ranges are exact. */
  lemma {:induction false} DrawRangeExact(targets: seq<int>, idx: int, n: int)
    requires InDrawRange(targets, idx, n)
    ensures exists d: Draw :: BucketCount(targets, idx, d) == n
  {
    if idx in targets {
      var d := Draw((n - 10) as real / 40.0, 0.0);
      assert BucketCount(targets, idx, d) == n;
    } else if Adjacent(targets, idx) {
      var d := Draw(n as real / 10.0, 0.0);
      assert BucketCount(targets, idx, d) == n;
    } else {
      var d := Draw(0.96, n as real / 2.0);
      assert BucketCount(targets, idx, d) == n;
    }
  }

  /** The picsum logo URL a generated record carries. */
  function LogoFor(name: string): string
  {
    "https://picsum.photos/seed/" + name + "/200/200"
  }

  /** One category's counts: every bucket, each drawn from its own randomness. */
  function MockCounts(targets: seq<int>, c: Category, draw: (Category, Bucket) -> Draw): (m: map<Bucket, int>)
    ensures CompleteCounts(m)
    ensures forall b :: b in m ==> InDrawRange(targets, BucketIndex(b), m[b])
  {
    AllBucketsListed();
    map b | b in Buckets :: BucketCount(targets, BucketIndex(b), draw(c, b))
  }

  /** One `StyleCountData` per category, in `CATEGORIES` order. */
  function MockEntries(name: string, draw: (Category, Bucket) -> Draw): (r: seq<StyleCount>)
    ensures |r| == |Categories|
    ensures forall i :: 0 <= i < |r| ==>
              r[i] == StyleCount(CategoryLabel(Categories[i]),
                                 MockCounts(TargetBuckets(name, CategoryLabel(Categories[i])), Categories[i], draw))
  {
    seq(|Categories|, i requires 0 <= i < |Categories| =>
      StyleCount(CategoryLabel(Categories[i]),
                 MockCounts(TargetBuckets(name, CategoryLabel(Categories[i])), Categories[i], draw)))
  }

  /**
    `generateMockData`. The random id, the timestamp and every
    `Math.random()` draw are parameters.
  */
  function GenerateMockData(name: string, url: string, id: string, timestamp: string,
                            draw: (Category, Bucket) -> Draw): (r: Competitor)
    ensures r.id == id && r.name == name && r.url == url && r.lastUpdated == timestamp
    ensures r.logo == LogoFor(name)
    ensures r.sources.None?
    ensures MockShaped(name, r.data)
    ensures r.totalStyles == GrandTotal(r.data)
  {
    var data := MockEntries(name, draw);
    MockEntriesShaped(name, draw);
    ValuesGrandTotalIsGrandTotal(data);
    Competitor(id, name, url, LogoFor(name), timestamp, ValuesGrandTotal(data), data, None)
  }

  /**
    The shape `generateMockData` promises: one entry per category, in
    `CATEGORIES` order, every bucket present, and each count in the range
    the brand's profile allows for that bucket.
  */
  predicate MockShaped(name: string, data: seq<StyleCount>)
  {
    && |data| == |Categories|
    && (forall i :: 0 <= i < |data| ==> data[i].category == CategoryLabel(Categories[i]))
    && (forall i :: 0 <= i < |data| ==> CompleteCounts(data[i].counts))
    && (forall i, b :: 0 <= i < |data| && b in data[i].counts ==>
          InDrawRange(TargetBuckets(name, CategoryLabel(Categories[i])), BucketIndex(b), data[i].counts[b]))
  }

  lemma MockEntriesShaped(name: string, draw: (Category, Bucket) -> Draw)
    ensures MockShaped(name, MockEntries(name, draw))
  {
  }

  /**
    Every category label has a profile, so the default profile is never used
    for a category of `CATEGORIES`.
  */
  lemma ProfilesCoverCategories()
    ensures forall c: Category :: CategoryLabel(c) in PriceProfiles
  {
    forall c: Category ensures CategoryLabel(c) in PriceProfiles {
      match c
      case TeesHenleysTanks =>
      case CasualShirts =>
      case DressShirts =>
      case Polos =>
      case SweaterPolos =>
      case Sweaters =>
      case CardigansZipUps =>
      case Sweatshirts =>
      case ShirtJacketsOvershirts =>
      case CoatsOuterwear =>
      case SuitJacketsSportCoats =>
      case JeansDenim =>
      case CasualPants =>
      case DressPants =>
      case Sweatpants =>
      case Shorts =>
    }
  }

  /** The table has no key besides the sixteen category labels. */
  lemma ProfileKeysAreCategories()
    ensures forall s :: s in PriceProfiles ==> exists c :: CategoryLabel(c) == s
  {
    forall s | s in PriceProfiles ensures exists c :: CategoryLabel(c) == s {
      if s == "Tees, Henleys & Tanks" { assert CategoryLabel(TeesHenleysTanks) == s; }
      else if s == "Casual Shirts" { assert CategoryLabel(CasualShirts) == s; }
      else if s == "Dress Shirts" { assert CategoryLabel(DressShirts) == s; }
      else if s == "Polos" { assert CategoryLabel(Polos) == s; }
      else if s == "Sweater Polos" { assert CategoryLabel(SweaterPolos) == s; }
      else if s == "Sweaters" { assert CategoryLabel(Sweaters) == s; }
      else if s == "Cardigans & Zip-Ups" { assert CategoryLabel(CardigansZipUps) == s; }
      else if s == "Sweatshirts" { assert CategoryLabel(Sweatshirts) == s; }
      else if s == "Shirt Jackets & Overshirts" { assert CategoryLabel(ShirtJacketsOvershirts) == s; }
      else if s == "Coats & Outerwear" { assert CategoryLabel(CoatsOuterwear) == s; }
      else if s == "Suit Jackets & Sport Coats" { assert CategoryLabel(SuitJacketsSportCoats) == s; }
      else if s == "Jeans & Denim" { assert CategoryLabel(JeansDenim) == s; }
      else if s == "Casual Pants (chinos and khakis)" { assert CategoryLabel(CasualPants) == s; }
      else if s == "Dress Pants" { assert CategoryLabel(DressPants) == s; }
      else if s == "Sweatpants" { assert CategoryLabel(Sweatpants) == s; }
      else { assert CategoryLabel(Shorts) == s; }
    }
  }

  /** Every index in the table, and in the default profile, names one of the eight buckets. */
  lemma ProfileIndicesInRange()
    ensures forall s, i :: s in PriceProfiles && i in PriceProfiles[s].typical ==> 0 <= i < |Buckets|
    ensures forall s, i :: s in PriceProfiles && i in PriceProfiles[s].premium ==> 0 <= i < |Buckets|
    ensures forall i :: (i in DefaultProfile.typical || i in DefaultProfile.premium) ==> 0 <= i < |Buckets|
  {
  }

  /**
    Premium brands aim at the profile's premium buckets and the others at
    its typical buckets; a category without a profile falls back to
    typical [0, 1, 2] and premium [2, 3, 4].
  */
  lemma TargetSelection(name: string, category: string)
    ensures category in PriceProfiles && name in PremiumBrands ==> TargetBuckets(name, category) == PriceProfiles[category].premium
    ensures category in PriceProfiles && name !in PremiumBrands ==> TargetBuckets(name, category) == PriceProfiles[category].typical
    ensures category !in PriceProfiles && name in PremiumBrands ==> TargetBuckets(name, category) == [2, 3, 4]
    ensures category !in PriceProfiles && name !in PremiumBrands ==> TargetBuckets(name, category) == [0, 1, 2]
  {
  }

  /** Every premium name is a seed brand, so the seed holds four premium brands (positions 1, 3, 4, 5) and two standard ones. */
  lemma PremiumSeedSplit()
    ensures forall p :: p in PremiumBrands ==> exists i :: 0 <= i < |Seeds| && Seeds[i].name == p
    ensures forall i :: 0 <= i < |Seeds| ==> (Seeds[i].name in PremiumBrands <==> i in {1, 3, 4, 5})
  {
    assert Seeds[1].name == "Ralph Lauren";
    assert Seeds[3].name == "Suit Supply";
    assert Seeds[4].name == "Todd Snyder";
    assert Seeds[5].name == "Sid Mashburn";
  }

  /**
    Buck Mason is a standard brand, so its coats concentrate on buckets 4
    to 6, buckets 3 and 7 get bleed-over, and buckets 0 to 2 are outliers.
  */
  lemma BuckMasonCoats(d: Draw)
    ensures TargetBuckets("Buck Mason", CategoryLabel(CoatsOuterwear)) == [4, 5, 6]
    ensures forall k :: 4 <= k <= 6 ==> 10 <= BucketCount(TargetBuckets("Buck Mason", CategoryLabel(CoatsOuterwear)), k, d) <= 49
    ensures forall k :: k == 3 || k == 7 ==> 0 <= BucketCount(TargetBuckets("Buck Mason", CategoryLabel(CoatsOuterwear)), k, d) <= 9
    ensures forall k :: 0 <= k <= 2 ==> BucketCount(TargetBuckets("Buck Mason", CategoryLabel(CoatsOuterwear)), k, d) in {0, 1}
  {
    var t := TargetBuckets("Buck Mason", CategoryLabel(CoatsOuterwear));
    assert t == [4, 5, 6];
    forall k | 0 <= k <= 2 ensures !Adjacent(t, k) { }
  }

  // ----- analyzeCompetitor: mapping an already-parsed reply -----

  /** `chunk.web`: a web citation whose fields may be missing. */
  datatype WebRef = WebRef(title: Option<string>, uri: Option<string>)

  /** One grounding chunk of the reply. */
  datatype Chunk = Chunk(web: Option<WebRef>)

  /** The parsed JSON body; either field may be missing. */
  datatype RawBody = RawBody(totalStyles: Option<int>, data: Option<seq<StyleCount>>)

  /**
    The parts of a reply the mapping reads: the first candidate's grounding
    chunks (absent anywhere along the optional path) and the parsed body.
  */
  datatype Reply = Reply(groundingChunks: Option<seq<Chunk>>, body: RawBody)

  /** What `analyzeCompetitor` resolves to: the record and, again, its sources. */
  datatype Analysis = Analysis(record: Competitor, sources: seq<Source>)

  /** JavaScript's `s || fallback` on an optional string: missing and empty both fall back. */
  function OrElse(s: Option<string>, fallback: string): string
  {
    if s.Some? && s.value != "" then s.value else fallback
  }

  /** `{ title: chunk.web?.title || 'Source', uri: chunk.web?.uri || '#' }`. */
  function ChunkSource(c: Chunk): Source
  {
    match c.web
    case None => Source("Source", "#")
    case Some(w) => Source(OrElse(w.title, "Source"), OrElse(w.uri, "#"))
  }

  /** A chunk that cites a usable web address. */
  predicate HasWebUri(c: Chunk)
  {
    c.web.Some? && c.web.value.uri.Some? && c.web.value.uri.value != "" && c.web.value.uri.value != "#"
  }

  /** A chunk's mapped uri is kept by the `'#'` filter exactly when the chunk cites a usable web address. */
  lemma KeptIffUsable(c: Chunk)
    ensures ChunkSource(c).uri != "#" <==> HasWebUri(c)
  {
  }

  /** The chunks that cite a usable web address, in reply order, each as often as it occurs. */
  function UsableChunks(chunks: seq<Chunk>): (r: seq<Chunk>)
    ensures IsSubsequence(r, chunks)
    ensures forall i :: 0 <= i < |r| ==> HasWebUri(r[i])
    ensures forall c :: multiset(r)[c] == if HasWebUri(c) then multiset(chunks)[c] else 0
  {
    if chunks == [] then []
    else
      var rest := UsableChunks(chunks[1..]);
      assert chunks == [chunks[0]] + chunks[1..];
      assert multiset(chunks) == multiset{chunks[0]} + multiset(chunks[1..]);
      if HasWebUri(chunks[0]) then
        var r := [chunks[0]] + rest;
        assert r[1..] == rest;
        assert multiset(r) == multiset{chunks[0]} + multiset(rest);
        r
      else
        rest
  }

  /**
    `groundingChunks.map(toSource).filter(s => s.uri !== '#')`: one source
    per usable chunk, in chunk order. Every source has a real uri and a
    non-empty title.
  */
  function GroundingSources(chunks: seq<Chunk>): (r: seq<Source>)
    ensures |r| == |UsableChunks(chunks)| <= |chunks|
    ensures forall i :: 0 <= i < |r| ==> r[i] == ChunkSource(UsableChunks(chunks)[i])
  {
    if chunks == [] then []
    else
      var rest := GroundingSources(chunks[1..]);
      KeptIffUsable(chunks[0]);
      if ChunkSource(chunks[0]).uri != "#" then
        assert UsableChunks(chunks) == [chunks[0]] + UsableChunks(chunks[1..]);
        [ChunkSource(chunks[0])] + rest
      else
        assert UsableChunks(chunks) == UsableChunks(chunks[1..]);
        rest
  }

  /**
    Every source has a real uri and a non-empty title; a usable chunk is
    never lost and no source is invented.
  */
  lemma GroundingSourcesMembers(chunks: seq<Chunk>)
    ensures forall s :: s in GroundingSources(chunks) ==> s.uri != "" && s.uri != "#" && s.title != ""
    ensures forall c :: c in chunks && HasWebUri(c) ==> ChunkSource(c) in GroundingSources(chunks)
    ensures forall s :: s in GroundingSources(chunks) ==> exists c :: c in chunks && HasWebUri(c) && ChunkSource(c) == s
  {
    var r := GroundingSources(chunks);
    var u := UsableChunks(chunks);
    forall s | s in r ensures s.uri != "" && s.uri != "#" && s.title != "" &&
                              exists c :: c in chunks && HasWebUri(c) && ChunkSource(c) == s {
      var i :| 0 <= i < |r| && r[i] == s;
      assert u[i] in multiset(u);
      KeptIffUsable(u[i]);
    }
    forall c | c in chunks && HasWebUri(c) ensures ChunkSource(c) in r {
      assert c in multiset(u);
      var i :| 0 <= i < |u| && u[i] == c;
      assert r[i] == ChunkSource(c);
    }
  }

  /**
    The tail of `analyzeCompetitor` after the reply arrives. The random id
    and the timestamp are parameters.
  */
  function AnalyzeReply(name: string, url: string, id: string, timestamp: string, reply: Reply): (r: Analysis)
    ensures r.record.id == id && r.record.name == name && r.record.url == url
    ensures r.record.logo == LogoFor(name) && r.record.lastUpdated == timestamp
    ensures r.record.sources == Some(r.sources)
    ensures reply.groundingChunks.None? ==> r.sources == []
    ensures reply.groundingChunks.Some? ==> r.sources == GroundingSources(reply.groundingChunks.value)
    ensures reply.body.totalStyles.None? ==> r.record.totalStyles == 0
    ensures reply.body.totalStyles.Some? ==> r.record.totalStyles == reply.body.totalStyles.value
    ensures reply.body.data.None? ==> r.record.data == []
    ensures reply.body.data.Some? ==> r.record.data == reply.body.data.value
  {
    var sources := GroundingSources(reply.groundingChunks.GetOr([]));
    var record := Competitor(id, name, url, LogoFor(name), timestamp,
                             reply.body.totalStyles.GetOr(0), reply.body.data.GetOr([]), Some(sources));
    Analysis(record, sources)
  }

  /**
    `totalStyles` is stored, not derived: a reply may state a total that is
    not the sum of its counts, and a reply without `data` keeps whatever
    total it states.
  */
  lemma TotalStylesIsStored()
    ensures exists reply: Reply, name, url, id, stamp ::
              var a := AnalyzeReply(name, url, id, stamp, reply);
              a.record.data == [] && a.record.totalStyles != GrandTotal(a.record.data)
  {
    var reply := Reply(None, RawBody(Some(5), None));
    var a := AnalyzeReply("", "", "", "", reply);
    assert a.record.data == [] && a.record.totalStyles == 5;
  }
}
