/**
  The state the dashboard keeps (App.tsx:45-50) and the two ways its brand
  list changes: the one-time seed and a refresh of one brand. React's
  hooks and the async flow are replaced by pure state transitions; the
  randomness, timestamps and the AI reply are parameters.
*/
module App {
  import opened Wrappers
  import opened Domain
  import opened Tally
  import opened Service
  import opened Aggregation

  /** The state the shell owns. The active tab and the overlay flag are presentation only. */
  datatype AppState = AppState(
    competitors: seq<Competitor>,
    selectedId: Option<string>,
    searchTerm: string,
    comparisonCategory: Category)

  /** The `useState` initial values. */
  const InitialState: AppState := AppState([], None, "", Categories[0])

  /**
    Before the seed runs the dashboard shows nothing: no brand is selected,
    both per-brand charts are empty, the sidebar lists no brand, and the
    drilldown looks at the first category.
  */
  lemma InitialStateShowsNothing()
    ensures Selected(InitialState.competitors, InitialState.selectedId).None?
    ensures PriceDistribution(Selected(InitialState.competitors, InitialState.selectedId)) == []
    ensures CategoryMix(Selected(InitialState.competitors, InitialState.selectedId)) == []
    ensures FilterByName(InitialState.competitors, InitialState.searchTerm) == []
    ensures CategoryLabel(InitialState.comparisonCategory) == "Tees, Henleys & Tanks"
  {
  }

  /** What one `generateMockData` call consumes: its random id, its timestamp and its bucket draws. */
  datatype Entropy = Entropy(id: string, timestamp: string, draw: (Category, Bucket) -> Draw)

  function SeedRecords(entropy: nat -> Entropy): (r: seq<Competitor>)
    ensures |r| == |Seeds|
    ensures forall i :: 0 <= i < |Seeds| ==>
              r[i] == GenerateMockData(Seeds[i].name, Seeds[i].url, entropy(i).id, entropy(i).timestamp, entropy(i).draw)
  {
    seq(|Seeds|, i requires 0 <= i < |Seeds| =>
      GenerateMockData(Seeds[i].name, Seeds[i].url, entropy(i).id, entropy(i).timestamp, entropy(i).draw))
  }

  /**
    The initial-seed effect: one mock record per seed brand, in seed order,
    and the first record selected. Each record's stored total is the sum of
    its counts.
  */
  function Seed(s: AppState, entropy: nat -> Entropy): (r: AppState)
    ensures |r.competitors| == |Seeds|
    ensures forall i :: 0 <= i < |Seeds| ==>
              r.competitors[i].name == Seeds[i].name && r.competitors[i].url == Seeds[i].url &&
              |r.competitors[i].data| == |Categories|
    ensures forall i :: 0 <= i < |Seeds| ==> r.competitors[i].totalStyles == GrandTotal(r.competitors[i].data)
    ensures r.selectedId == Some(r.competitors[0].id)
    ensures Selected(r.competitors, r.selectedId) == Some(r.competitors[0])
    ensures r.searchTerm == s.searchTerm && r.comparisonCategory == s.comparisonCategory
  {
    var records := SeedRecords(entropy);
    s.(competitors := records, selectedId := Some(records[0].id))
  }

  /** For a mock record, the histogram bars, the category-mix values (`categoryMixData`) and the stored total all count the same styles. */
  lemma MockChartsAgree(name: string, url: string, id: string, timestamp: string, draw: (Category, Bucket) -> Draw)
    ensures var c := GenerateMockData(name, url, id, timestamp, draw);
            RowsTotal(PriceDistribution(Some(c))) == c.totalStyles &&
            StableSort.SumKeys(CategoryMix(Some(c)), MixValue) == c.totalStyles
  {
  }

  // ----- refresh -----

  /** `prev.map(c => c.id === id ? record : c)`. */
  function ReplaceById(cs: seq<Competitor>, id: string, record: Competitor): (r: seq<Competitor>)
    ensures |r| == |cs|
    ensures forall i :: 0 <= i < |cs| && cs[i].id != id ==> r[i] == cs[i]
    ensures forall i :: 0 <= i < |cs| && cs[i].id == id ==> r[i] == record
  {
    seq(|cs|, i requires 0 <= i < |cs| => if cs[i].id == id then record else cs[i])
  }

  /**
    `handleRefresh(id)` as written: find the record, ask the AI service
    about its name and url (`fetch`; `None` is a thrown error), and on
    success put the mapped reply, which carries the new random id `freshId`,
    in place of every record with the old id. An unknown id or a failed
    call leaves the list as it was.
  */
  function Refresh(cs: seq<Competitor>, id: string, fetch: (string, string) -> Option<Reply>,
                   freshId: string, timestamp: string): (r: seq<Competitor>)
    ensures |r| == |cs|
    ensures forall i :: 0 <= i < |cs| && cs[i].id != id ==> r[i] == cs[i]
    ensures FindById(cs, id).None? ==> r == cs
    ensures FindById(cs, id).Some? && fetch(FindById(cs, id).value.name, FindById(cs, id).value.url).None? ==> r == cs
    ensures FindById(cs, id).Some? && fetch(FindById(cs, id).value.name, FindById(cs, id).value.url).Some? ==>
              forall i :: 0 <= i < |cs| && cs[i].id == id ==>
                r[i].id == freshId && r[i].name == FindById(cs, id).value.name && r[i].url == FindById(cs, id).value.url
    ensures FindById(cs, id).Some? && fetch(FindById(cs, id).value.name, FindById(cs, id).value.url).Some? ==>
              forall i :: 0 <= i < |cs| && cs[i].id == id ==>
                r[i] == AnalyzeReply(FindById(cs, id).value.name, FindById(cs, id).value.url, freshId, timestamp,
                                     fetch(FindById(cs, id).value.name, FindById(cs, id).value.url).value).record
  {
    match FindById(cs, id)
    case None => cs
    case Some(comp) =>
      match fetch(comp.name, comp.url)
      case None => cs
      case Some(reply) => ReplaceById(cs, id, AnalyzeReply(comp.name, comp.url, freshId, timestamp, reply).record)
  }

  /**
    After a successful refresh the selected id names no record any more:
    the replacement carries a fresh id, so the selected-brand charts go empty.
  */
  lemma RefreshLosesSelection(cs: seq<Competitor>, id: string, fetch: (string, string) -> Option<Reply>,
                              freshId: string, timestamp: string)
    requires FindById(cs, id).Some?
    requires fetch(FindById(cs, id).value.name, FindById(cs, id).value.url).Some?
    requires freshId != id
    ensures Selected(Refresh(cs, id, fetch, freshId, timestamp), Some(id)).None?
    ensures PriceDistribution(Selected(Refresh(cs, id, fetch, freshId, timestamp), Some(id))) == []
    ensures CategoryMix(Selected(Refresh(cs, id, fetch, freshId, timestamp), Some(id))) == []
  {
    var r := Refresh(cs, id, fetch, freshId, timestamp);
    forall i | 0 <= i < |r| ensures r[i].id != id {
    }
  }

  /** The seeded dashboard, with the first brand selected, loses its selection on its first successful rescan. */
  lemma SeededRescanLosesSelection(entropy: nat -> Entropy, fetch: (string, string) -> Option<Reply>,
                                   freshId: string, timestamp: string)
    requires fetch(Seeds[0].name, Seeds[0].url).Some?
    requires freshId != entropy(0).id
    ensures var s := Seed(InitialState, entropy);
            Selected(Refresh(s.competitors, s.selectedId.value, fetch, freshId, timestamp), s.selectedId).None?
  {
    var s := Seed(InitialState, entropy);
    assert s.competitors[0].id == entropy(0).id;
    RefreshLosesSelection(s.competitors, s.selectedId.value, fetch, freshId, timestamp);
  }

  /**
    The corrected refresh: the mapped reply keeps the id of the record it
    replaces, so the selection survives. Otherwise as `Refresh`.
  */
  function RefreshKeepingId(cs: seq<Competitor>, id: string, fetch: (string, string) -> Option<Reply>,
                            timestamp: string): (r: seq<Competitor>)
    ensures |r| == |cs|
    ensures forall i :: 0 <= i < |cs| ==> r[i].id == cs[i].id
    ensures forall i :: 0 <= i < |cs| && cs[i].id != id ==> r[i] == cs[i]
    ensures FindById(cs, id).None? ==> r == cs
    ensures FindById(cs, id).Some? && fetch(FindById(cs, id).value.name, FindById(cs, id).value.url).None? ==> r == cs
    ensures FindById(cs, id).Some? && fetch(FindById(cs, id).value.name, FindById(cs, id).value.url).Some? ==>
              forall i :: 0 <= i < |cs| && cs[i].id == id ==>
                && r[i].name == FindById(cs, id).value.name && r[i].url == FindById(cs, id).value.url
                && r[i] == AnalyzeReply(FindById(cs, id).value.name, FindById(cs, id).value.url, id, timestamp,
                                        fetch(FindById(cs, id).value.name, FindById(cs, id).value.url).value).record
  {
    match FindById(cs, id)
    case None => cs
    case Some(comp) =>
      match fetch(comp.name, comp.url)
      case None => cs
      case Some(reply) => ReplaceById(cs, id, AnalyzeReply(comp.name, comp.url, id, timestamp, reply).record)
  }

  /**
    With the id kept, the selected id still finds a record after a
    successful refresh: the new analysis of the same brand.
  */
  lemma RefreshKeepingIdKeepsSelection(cs: seq<Competitor>, id: string, fetch: (string, string) -> Option<Reply>,
                                       timestamp: string)
    requires FindById(cs, id).Some?
    requires fetch(FindById(cs, id).value.name, FindById(cs, id).value.url).Some?
    ensures var prior := FindById(cs, id).value;
            var reply := fetch(prior.name, prior.url).value;
            Selected(RefreshKeepingId(cs, id, fetch, timestamp), Some(id)) ==
              Some(AnalyzeReply(prior.name, prior.url, id, timestamp, reply).record)
  {
    var prior := FindById(cs, id).value;
    var renewed := AnalyzeReply(prior.name, prior.url, id, timestamp, fetch(prior.name, prior.url).value).record;
    var r := RefreshKeepingId(cs, id, fetch, timestamp);
    var i :| 0 <= i < |cs| && prior == cs[i] && cs[i].id == id && forall j :: 0 <= j < i ==> cs[j].id != id;
    assert r[i] == renewed;
    var found := FindById(r, id);
    var k :| 0 <= k < |r| && found.value == r[k] && r[k].id == id && forall j :: 0 <= j < k ==> r[j].id != id;
    assert r[i].id == id;
    assert forall j :: 0 <= j < i ==> r[j].id != id;
    assert k == i;
  }

  /**
    The Rescan button as written: `handleRefresh(selectedId!)`. With no
    selection nothing changes (no record has a null id), and only the
    selected brand's records change. When the call succeeds, the selection
    is lost: the replacement carries the fresh id.
  */
  function Rescan(s: AppState, fetch: (string, string) -> Option<Reply>, freshId: string, timestamp: string): (r: AppState)
    ensures r.selectedId == s.selectedId && r.searchTerm == s.searchTerm
    ensures r.comparisonCategory == s.comparisonCategory
    ensures |r.competitors| == |s.competitors|
    ensures s.selectedId.None? ==> r == s
    ensures s.selectedId.Some? ==> r.competitors == Refresh(s.competitors, s.selectedId.value, fetch, freshId, timestamp)
    ensures forall i :: 0 <= i < |s.competitors| && Some(s.competitors[i].id) != s.selectedId ==>
              r.competitors[i] == s.competitors[i]
    ensures Selected(s.competitors, s.selectedId).Some? &&
            fetch(Selected(s.competitors, s.selectedId).value.name, Selected(s.competitors, s.selectedId).value.url).None? ==>
              r == s
    ensures Selected(s.competitors, s.selectedId).Some? &&
            fetch(Selected(s.competitors, s.selectedId).value.name, Selected(s.competitors, s.selectedId).value.url).Some? ==>
              forall i :: 0 <= i < |s.competitors| && Some(s.competitors[i].id) == s.selectedId ==>
                r.competitors[i] ==
                  AnalyzeReply(Selected(s.competitors, s.selectedId).value.name, Selected(s.competitors, s.selectedId).value.url,
                               freshId, timestamp,
                               fetch(Selected(s.competitors, s.selectedId).value.name,
                                     Selected(s.competitors, s.selectedId).value.url).value).record
    ensures Selected(s.competitors, s.selectedId).Some? &&
            fetch(Selected(s.competitors, s.selectedId).value.name, Selected(s.competitors, s.selectedId).value.url).Some? &&
            Some(freshId) != s.selectedId ==>
              Selected(r.competitors, r.selectedId).None?
  {
    match s.selectedId
    case None => s
    case Some(id) =>
      var r := s.(competitors := Refresh(s.competitors, id, fetch, freshId, timestamp));
      match FindById(s.competitors, id)
      case None => r
      case Some(comp) =>
        if fetch(comp.name, comp.url).Some? && freshId != id then
          RefreshLosesSelection(s.competitors, id, fetch, freshId, timestamp);
          r
        else r
  }

  /**
    The corrected Rescan: refresh the selected brand keeping its id. With no
    selection nothing changes; only the selected brand's records change; on
    success the selection shows the new analysis of the same brand.
  */
  function RescanKeepingId(s: AppState, fetch: (string, string) -> Option<Reply>, timestamp: string): (r: AppState)
    ensures r.selectedId == s.selectedId && r.searchTerm == s.searchTerm
    ensures r.comparisonCategory == s.comparisonCategory
    ensures |r.competitors| == |s.competitors|
    ensures s.selectedId.None? ==> r == s
    ensures forall i :: 0 <= i < |s.competitors| && Some(s.competitors[i].id) != s.selectedId ==>
              r.competitors[i] == s.competitors[i]
    ensures s.selectedId.Some? ==> r.competitors == RefreshKeepingId(s.competitors, s.selectedId.value, fetch, timestamp)
    ensures Selected(s.competitors, s.selectedId).Some? &&
            fetch(Selected(s.competitors, s.selectedId).value.name, Selected(s.competitors, s.selectedId).value.url).Some? ==>
              forall i :: 0 <= i < |s.competitors| && Some(s.competitors[i].id) == s.selectedId ==>
                r.competitors[i] ==
                  AnalyzeReply(Selected(s.competitors, s.selectedId).value.name, Selected(s.competitors, s.selectedId).value.url,
                               s.selectedId.value, timestamp,
                               fetch(Selected(s.competitors, s.selectedId).value.name,
                                     Selected(s.competitors, s.selectedId).value.url).value).record
    ensures Selected(s.competitors, s.selectedId).Some? ==> Selected(r.competitors, r.selectedId).Some?
    ensures Selected(s.competitors, s.selectedId).Some? &&
            fetch(Selected(s.competitors, s.selectedId).value.name, Selected(s.competitors, s.selectedId).value.url).Some? ==>
              Selected(r.competitors, r.selectedId) ==
                Some(AnalyzeReply(Selected(s.competitors, s.selectedId).value.name, Selected(s.competitors, s.selectedId).value.url,
                                  s.selectedId.value, timestamp,
                                  fetch(Selected(s.competitors, s.selectedId).value.name,
                                        Selected(s.competitors, s.selectedId).value.url).value).record)
  {
    match s.selectedId
    case None => s
    case Some(id) =>
      var r := s.(competitors := RefreshKeepingId(s.competitors, id, fetch, timestamp));
      match FindById(s.competitors, id)
      case None => r
      case Some(comp) =>
        if fetch(comp.name, comp.url).Some? then
          RefreshKeepingIdKeepsSelection(s.competitors, id, fetch, timestamp);
          r
        else r
  }
}
