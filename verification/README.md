# Competitor pricing dashboard — a Dafny model of its derivation logic

The dashboard tracks menswear brands. For each brand it keeps a record of
how many full-price styles the brand offers per category (sixteen
categories) and per price bucket (eight buckets, "Under $100" to "$1000+").
It shows:

- per-brand charts: a price histogram and a category mix;
- cross-brand comparisons: an assortment ranking, a pricing curve, a
  category × brand heatmap and a single-category drilldown.

Records come from an offline mock synthesiser or from one AI service call
per refresh.

This project models the logic behind those views as pure Dafny functions,
in one module per source file or concern:

| module | file | models |
|---|---|---|
| `Wrappers` | wrappers.dfy | `Option`, the stand-in for `undefined` |
| `Domain` | domain.dfy | buckets, categories, labels, seed brands, record shapes (constants.tsx, types.ts) |
| `Tally` | tally.dfy | the two ways counts are summed (`|| 0` per bucket and `Object.values(...).reduce`) and why they agree |
| `Service` | service.dfy | the price-profile table, `generateMockData`, and the mapping of an already-parsed AI reply in `analyzeCompetitor` |
| `StableSort` | sorting.dfy | `Array.prototype.sort` with a `b - a` comparator: a stable sort into non-increasing order |
| `Aggregation` | aggregation.dfy | the chart projections of App.tsx and the sidebar search |
| `App` | app.dfy | the app state, the initial seed, the refresh list update, and the corrected refresh |

Random draws, generated ids, timestamps and the AI reply are parameters:

- `Math.random()` is a real number in [0, 1) (the subset type `Service.Unit`);
- each bucket of each category gets its own `Draw`;
- the `Math.floor` arithmetic of the source is kept as written.

So the verifier checks the count ranges and the sums, not probabilities.

Two behaviours of the code worth knowing before reading the model:

- **Refresh and ids.** A refreshed record gets a new random id
  (services/geminiService.ts:91), so the selection is lost. See "Findings".
- **Order of AI records.** Records from the AI service carry whatever
  categories and order the reply has. The model keeps them as given and
  reads them with first-match lookups, as the code does.

## Model

| member | source | states |
|---|---|---|
| Domain.BucketIndex | constants.tsx:4-13 | every bucket sits at a position of `PRICE_BUCKETS`, and that position holds it |
| Domain.CategoryIndex | constants.tsx:15-32 | every category sits at a position of `CATEGORIES`, and that position holds it |
| Domain.AllBucketsListed | constants.tsx:4-13 | `PRICE_BUCKETS` has 8 entries, lists every bucket, and has no repeats |
| Domain.AllCategoriesListed | constants.tsx:15-32 | `CATEGORIES` has 16 entries, lists every category, and has no repeats |
| Domain.BucketsAscending | constants.tsx:4-13 | the list runs from "Under $100" to "$1000+", and the lower bounds of the labelled price ranges strictly increase along it |
| Domain.ParseBucket | types.ts:2-10 | a string parses to a bucket exactly when it is that bucket's label; otherwise no bucket has that label |
| Domain.ParseCategory | types.ts:12-28 | a string parses to a category exactly when it is that category's label; otherwise no category has that label |
| Domain.BucketLabelInjective | types.ts:2-10 | the eight bucket labels are pairwise different strings |
| Domain.CategoryLabelInjective | types.ts:12-28 | the sixteen category labels are pairwise different strings |
| Domain.BucketLabelRoundTrip | types.ts:2-10 | parsing inverts labelling in both directions, so `PriceBucket` is a closed union of the 8 listed strings |
| Domain.CategoryLabelRoundTrip | types.ts:12-28 | parsing inverts labelling in both directions, so `Category` is a closed union of the 16 listed strings |
| Domain.SeedsDistinct | constants.tsx:34-41 | the seed list has 6 brands with pairwise-distinct ids and pairwise-distinct names |
| Tally.ValuesTotalIsBucketTotal | App.tsx:89-106 | summing the values a counts object holds equals summing all 8 buckets with missing ones as 0 |
| Tally.ValuesGrandTotalIsGrandTotal | services/geminiService.ts:135 | the same equality summed over all of a brand's categories |
| Tally.ColumnsSumToGrandTotal | App.tsx:89-98 | summing bucket by bucket over the categories counts the same styles as summing category by category |
| Service.ProfilesCoverCategories | services/geminiService.ts:13-30 | every category label has a profile, so the default profile is never used for a seeded category |
| Service.ProfileKeysAreCategories | services/geminiService.ts:13-30 | the profile table has no key besides the 16 category labels |
| Service.ProfileIndicesInRange | services/geminiService.ts:13-30 | every index in the table and in the default profile lies in 0..7 |
| Service.TargetSelection | services/geminiService.ts:105-110 | premium brands get the profile's premium list, others its typical list; unlisted categories fall back to [2,3,4] and [0,1,2] |
| Service.PremiumSeedSplit | services/geminiService.ts:105 | every premium name is a seed brand; exactly seed positions 1, 3, 4, 5 are premium, leaving two standard brands |
| Service.BucketCount | services/geminiService.ts:112-125 | a target bucket's count lies in [10, 49], a neighbour's in [0, 9], any other bucket's in {0, 1} |
| Service.DrawRangeExact | services/geminiService.ts:115-122 | every count in those ranges is produced by some draw, so the ranges are exact |
| Service.BuckMasonCoats | services/geminiService.ts:23 | Buck Mason's coats aim at buckets 4-6, each getting 10-49; buckets 3 and 7 get 0-9; buckets 0-2 get 0 or 1 |
| Service.GenerateMockData | services/geminiService.ts:104-138 | id, name, url, time and logo as given; one entry per category in `CATEGORIES` order; every bucket present and within its profile range; `totalStyles` is the sum of all counts |
| Service.UsableChunks | services/geminiService.ts:83-86 | the chunks citing a usable web uri, as an order-preserving subsequence holding each such chunk as often as the reply does |
| Service.GroundingSources | services/geminiService.ts:82-86 | one source per usable chunk, in chunk order: the usable chunks mapped through the `title`/`uri` fallbacks |
| Service.GroundingSourcesMembers | services/geminiService.ts:83-86 | every source has a real uri and a non-empty title; no usable chunk is lost and no source is invented |
| Service.AnalyzeReply | services/geminiService.ts:88-101 | the record takes the given name, url, id and time; a missing `totalStyles` becomes 0 and missing `data` becomes []; sources are attached |
| Service.TotalStylesIsStored | types.ts:35-44 | some reply yields a record whose `totalStyles` differs from the sum of its counts: the field is stored, not derived |
| StableSort.SortDesc | App.tsx:100-115 | the result is a permutation of the input in non-increasing key order; equal keys keep input order; the key sum is unchanged |
| Aggregation.FindById | App.tsx:59-62 | absent exactly when no record has the id; otherwise the first record with that id |
| Aggregation.FindCategory | App.tsx:142 | absent exactly when no entry has the category; otherwise the first such entry |
| Aggregation.Selected | App.tsx:59-62 | nothing without a selection; otherwise nothing exactly when no record has the selected id, else the first record that does |
| Aggregation.PriceDistribution | App.tsx:89-98 | empty with no selection; else 8 rows in bucket order, each the bucket's count summed over categories with 0 for missing, adding up to all the brand's counts |
| Aggregation.MixEntries | App.tsx:102-104 | one entry per category entry, valued at its counts' total, the values adding up to all the brand's counts |
| Aggregation.CategoryMix | App.tsx:100-106 | empty with no selection; else a permutation of the entries, sorted non-increasing, ties in source order, summing to all counts |
| Aggregation.CrossBrandAssortment | App.tsx:109-115 | a permutation of the brands' (name, totalStyles, logo) rows, sorted by totalStyles largest first, ties in list order |
| Aggregation.BrandColumns | App.tsx:120-122 | one key per brand name, holding the value of the last record with that name |
| Aggregation.PricingCurve | App.tsx:117-125 | 8 rows in bucket order; every brand name is a key; each value is that brand's summed count for the bucket |
| Aggregation.CategoryCell | App.tsx:131-132 | 0 when the brand has no entry for the category, else the total of its first such entry |
| Aggregation.Heatmap | App.tsx:127-136 | 16 rows in category order; every brand name is a key; each cell is that brand's total for the category |
| Aggregation.DrillRowOf | App.tsx:140-153 | all 8 buckets present; all 0 without an entry, else each bucket's count in the first entry with 0 for missing |
| Aggregation.Drilldown | App.tsx:139-154 | one row per brand, in list order |
| Aggregation.Lower | App.tsx:85 | ASCII lower-casing keeps length and lowers each character |
| Aggregation.Contains | App.tsx:85 | `includes` holds exactly when the term is a prefix of some suffix of the text |
| Aggregation.FilterByName | App.tsx:84-86 | an order-preserving subsequence holding exactly the matching records, each as often as in the list |
| Aggregation.EmptySearchKeepsAll | App.tsx:84-86 | an empty search term keeps every record in order |
| Aggregation.SearchIgnoresCase | App.tsx:84-86 | a term and its lower-cased form select the same records |
| Aggregation.CurveColumnIsDistribution | App.tsx:89-125 | a brand's pricing-curve column equals its own price distribution |
| Aggregation.DrilldownSumsToHeatmapCell | App.tsx:127-154 | a brand's drilldown bars for a category add up to its heatmap cell for that category |
| Aggregation.AbsentCategoryIsZero | App.tsx:127-154 | a category no brand carries gives an all-zero drilldown row per brand and zero heatmap cells |
| App.InitialStateShowsNothing | App.tsx:45-50 | the initial state selects nothing, both per-brand charts are empty, the sidebar lists no brand, and the drilldown starts on the first category |
| App.SeedRecords | App.tsx:54 | one mock record per seed brand, in seed order |
| App.Seed | App.tsx:53-57 | six records with the seed names and urls in order, each total the sum of its counts, and the first record selected and found |
| App.MockChartsAgree | App.tsx:89-106 | for a mock record, the histogram bars and the category-mix values (`categoryMixData`) both add up to `totalStyles` |
| App.ReplaceById | App.tsx:76 | same length; records with the id replaced, all others unchanged |
| App.Refresh | App.tsx:69-82 | same length; unknown id or failed call leaves the list; on success every record with the id becomes the analysed record of that brand, carrying the new id; others unchanged |
| App.RefreshLosesSelection | App.tsx:59-76 | after a successful refresh with a new id, the selected id finds no record and the per-brand charts are empty |
| App.SeededRescanLosesSelection | App.tsx:53-76 | the seeded dashboard loses its selection on its first successful rescan |
| App.RefreshKeepingId | App.tsx:69-82 | corrected refresh: every record keeps its id; unknown id or failed call leaves the list; on success every record with the id becomes the analysed record of the same name and url; others unchanged |
| App.RefreshKeepingIdKeepsSelection | App.tsx:59-76 | with ids kept, the selected id finds the new analysis of the same brand after a successful refresh |
| App.Rescan | App.tsx:284-288 | no selection or a failed call changes nothing; only the selected brand's records change; on success each becomes the analysed record with the fresh id, and with a fresh id the selection then finds no record |
| App.RescanKeepingId | App.tsx:284-288 | corrected Rescan: only the selected brand's records change; on success each becomes the analysed record under the old id, and the selection finds it |

## Left out

- Rendering: JSX, charts, icons, `StatCard`, tabs, the analysing overlay and the strategic narrative text are presentation only.
- React lifecycle: `useState`, `useMemo` and `useEffect` become pure functions of the state.
- Async refresh: `handleRefresh`'s `setCompetitors(prev => …)` is applied to the same list the brand was found in. Interleaved refreshes are not modelled.
- AI service: the client, prompt, response schema and `JSON.parse` are foreign calls. The model starts from a parsed `Reply`, and a failed call is `None`.
- Randomness and clocks: random ids and ISO timestamps are parameters.
- Random stream order: each bucket owns its two draws, so the exact interleaving of calls on one random stream is not modelled.
- Draw weights: the 95 % chance of zero for outliers is a probability, not a range; only ranges are stated.
- Pie truncation: the category pie draws only the first eight entries of `categoryMixData` (App.tsx:643). The model states the whole list; a mock record's sixteen categories do not all appear in the pie.
- Heatmap styling: the colour intensity (`Math.min(val / 200, 1)`), `toLocaleString` and `toLocaleTimeString` are floating point and locale formatting.
- The `toddSnyder` lookup (App.tsx:64-67): it is computed but never read; the "Strategic Positioning" panel is fixed text.
- Service.TargetSelection: the fallback profile is stated for every label missing from the table, but the source looks labels up on an object literal, so inherited keys such as "constructor" or "toString" find a non-profile value and `targetBuckets.includes` would throw. `generateMockData` passes only category labels, so the case cannot arise there.
- Domain.CompleteCounts: the TypeScript type says `counts` is total, but only mock records are shown to be complete (`GenerateMockData`). AI records may lack buckets, and every reader treats a missing bucket as 0.
- Non-bucket keys: keys outside the eight buckets in AI `counts` cannot be written in the model. In the source, `Object.values` would add them into the category mix and the heatmap, but the price histogram would ignore them.
- Non-integer counts: NaN, fractional or non-number counts and totals in AI replies are not modelled. Counts are integers.
- Row-label clashes: chart rows are JavaScript objects keyed by brand name. A brand named "name" or "category" would overwrite the row's label. The model keeps the label in a separate field.
- Aggregation.Lower: models ASCII lower-casing only, not Unicode case folding.
- Logo fields: seed-list logos (`…/seed/buckmason/…`) are never copied into records. Generated records use `…/seed/${name}/…` with the raw name. Both are modelled as written.
- Seed-list ids: ids `'1'`…`'6'` are never used; records get random ids.

## Findings

| source | as written | input that shows it | evidently intended | confidence | as-written member | corrected member |
|---|---|---|---|---|---|---|
| services/geminiService.ts:91 with App.tsx:59-62 and App.tsx:76 | the record that replaces a refreshed brand gets a new random id, while `selectedId` keeps the old one | the seeded dashboard with its first brand selected (id X), then Rescan with a successful reply whose record gets id Y ≠ X: `find(c => c.id === X)` is `undefined` and the histogram and category mix are empty | the replacement keeps the id of the record it replaces, so the refreshed brand stays selected | not executed; high | App.RefreshLosesSelection | App.RefreshKeepingIdKeepsSelection |

`App.Refresh`, `App.Rescan` and `App.SeededRescanLosesSelection` model the
code as written. `App.RefreshKeepingId` is the corrected update, and the
corrected Rescan transition `App.RescanKeepingId` uses it.
