/** The feed management page: the three-stage filter over the feed list, the list of
    distinct sources, selection of feeds, the expanded-details toggle, and the guard
    in front of batch actions. */
module FeedsPage {
  import opened Optional
  import opened Seqs
  import opened Text

  /** A row of `rss_feeds`. */
  datatype RssFeed = RssFeed(
    id: string,
    name: string,
    url: string,
    source: string,
    category: Option<string>,
    description: Option<string>,
    enabled: bool,
    lastCrawled: Option<string>,
    crawlFrequency: string,
    errorCount: int,
    lastError: Option<string>)

  /** `'all' | 'active' | 'inactive'`. */
  datatype StatusFilter = All | Active | Inactive

  /** The search pass: the lower-cased query occurs in the lower-cased name, url or source. */
  predicate MatchesQuery(feed: RssFeed, lowerQuery: string) {
    Contains(Lower(feed.name), lowerQuery) || Contains(Lower(feed.url), lowerQuery)
    || Contains(Lower(feed.source), lowerQuery)
  }

  /** The status pass, applied only when the filter is not `'all'`. */
  predicate MatchesStatus(feed: RssFeed, status: StatusFilter) {
    if status == Active then feed.enabled else !feed.enabled
  }

  function ByQuery(lowerQuery: string): RssFeed -> bool {
    feed => MatchesQuery(feed, lowerQuery)
  }

  function BySource(sourceFilter: string): RssFeed -> bool {
    (feed: RssFeed) => feed.source == sourceFilter
  }

  function ByStatus(status: StatusFilter): RssFeed -> bool {
    feed => MatchesStatus(feed, status)
  }

  /** A feed survives all three passes of `applyFilters`. */
  predicate Kept(feed: RssFeed, query: string, sourceFilter: string, status: StatusFilter) {
    && (query == "" || MatchesQuery(feed, Lower(query)))
    && (sourceFilter == "all" || feed.source == sourceFilter)
    && (status == All || MatchesStatus(feed, status))
  }

  function KeptBy(query: string, sourceFilter: string, status: StatusFilter): RssFeed -> bool {
    feed => Kept(feed, query, sourceFilter, status)
  }

  /** The three successive passes equal one filter by `Kept`. */
  lemma StagedFilters(feeds: seq<RssFeed>, query: string, sourceFilter: string, status: StatusFilter)
    ensures
      var afterQuery := FilterWhen(feeds, query != "", ByQuery(Lower(query)));
      var afterSource := FilterWhen(afterQuery, sourceFilter != "all", BySource(sourceFilter));
      var afterStatus := FilterWhen(afterSource, status != All, ByStatus(status));
      afterStatus == Filter(feeds, KeptBy(query, sourceFilter, status))
  {
    var q1: RssFeed -> bool := (f: RssFeed) => query == "" || MatchesQuery(f, Lower(query));
    var q2: RssFeed -> bool := (f: RssFeed) => sourceFilter == "all" || f.source == sourceFilter;
    var q3: RssFeed -> bool := (f: RssFeed) => status == All || MatchesStatus(f, status);
    var q12: RssFeed -> bool := (f: RssFeed) => q1(f) && q2(f);
    FilterWhenIsFilter(feeds, query != "", ByQuery(Lower(query)), q1);
    var afterQuery := Filter(feeds, q1);
    FilterWhenIsFilter(afterQuery, sourceFilter != "all", BySource(sourceFilter), q2);
    FilterFilter(feeds, q1, q2, q12);
    var afterSource := Filter(feeds, q12);
    FilterWhenIsFilter(afterSource, status != All, ByStatus(status), q3);
    FilterFilter(feeds, q12, q3, KeptBy(query, sourceFilter, status));
  }

  /** The filtered list is an order-preserving subsequence of the feeds, holds only feeds
      that pass every active filter, and holds every feed that does. */
  lemma FilteredFeedsFacts(feeds: seq<RssFeed>, query: string, sourceFilter: string, status: StatusFilter)
    ensures var r := Filter(feeds, KeptBy(query, sourceFilter, status));
      && SubsequenceOf(r, feeds)
      && (forall k :: 0 <= k < |r| ==> Kept(r[k], query, sourceFilter, status))
      && (forall k :: 0 <= k < |feeds| && Kept(feeds[k], query, sourceFilter, status) ==> feeds[k] in r)
  {
    FilterIsSubsequence(feeds, KeptBy(query, sourceFilter, status));
  }

  /** With an empty query, source `'all'` and status `'all'`, nothing is filtered out. */
  lemma DefaultFiltersKeepAll(feeds: seq<RssFeed>)
    ensures Filter(feeds, KeptBy("", "all", All)) == feeds
  {
    FilterKeepsAll(feeds, KeptBy("", "all", All));
  }

  /** With only the status filter set, `'active'` keeps exactly the enabled feeds and
      `'inactive'` exactly the disabled ones, in their order. */
  lemma StatusFilterSelects(feeds: seq<RssFeed>)
    ensures Filter(feeds, KeptBy("", "all", Active)) == Filter(feeds, (f: RssFeed) => f.enabled)
    ensures Filter(feeds, KeptBy("", "all", Inactive)) == Filter(feeds, (f: RssFeed) => !f.enabled)
  {
    FilterExt(feeds, KeptBy("", "all", Active), (f: RssFeed) => f.enabled);
    FilterExt(feeds, KeptBy("", "all", Inactive), (f: RssFeed) => !f.enabled);
  }

  /** `(data || []).map(feed => feed.source)`. */
  function SourcesOf(feeds: seq<RssFeed>): (r: seq<string>)
    ensures |r| == |feeds|
    ensures forall k :: 0 <= k < |r| ==> r[k] == feeds[k].source
  {
    if feeds == [] then [] else [feeds[0].source] + SourcesOf(feeds[1..])
  }

  /** `[...new Set(sources)]` has no duplicates and lists the source of every feed. */
  lemma UniqueSourcesFacts(feeds: seq<RssFeed>)
    ensures Distinct(Dedup(SourcesOf(feeds)))
    ensures forall k :: 0 <= k < |feeds| ==> feeds[k].source in Dedup(SourcesOf(feeds))
    ensures forall k :: 0 <= k < |Dedup(SourcesOf(feeds))| ==> Dedup(SourcesOf(feeds))[k] in SourcesOf(feeds)
  {
    DedupFacts(SourcesOf(feeds));
  }

  function IsNot(id: string): string -> bool {
    x => x != id
  }

  /** `prev.filter(feedId => feedId !== id)`. */
  function Deselect(ids: seq<string>, id: string): (r: seq<string>)
    ensures id !in r
    ensures forall x :: x != id ==> multiset(r)[x] == multiset(ids)[x]
  {
    DeselectCounts(ids, id);
    Filter(ids, IsNot(id))
  }

  lemma {:induction false} DeselectCounts(ids: seq<string>, id: string)
    ensures forall x :: x != id ==> multiset(Filter(ids, IsNot(id)))[x] == multiset(ids)[x]
  {
    if ids != [] {
      DeselectCounts(ids[1..], id);
      assert ids == [ids[0]] + ids[1..];
    }
  }

  /** Deselecting keeps the order of the remaining ids. */
  lemma DeselectKeepsOrder(ids: seq<string>, id: string)
    ensures SubsequenceOf(Deselect(ids, id), ids)
  {
    FilterIsSubsequence(ids, IsNot(id));
  }

  /** `toggleFeedDetails`: collapse when `id` is the expanded feed, otherwise expand `id`. */
  function ToggleExpanded(expanded: Option<string>, id: string): (r: Option<string>)
    ensures expanded == Some(id) <==> r == None
    ensures r != None ==> r == Some(id)
  {
    if expanded == Some(id) then None else Some(id)
  }

  /** Toggling the same id twice restores the state exactly when nothing or that very feed
      was expanded; starting from another expanded feed it ends collapsed. */
  lemma ToggleTwice(expanded: Option<string>, id: string)
    ensures ToggleExpanded(ToggleExpanded(expanded, id), id) == expanded <==> expanded == None || expanded == Some(id)
    ensures ToggleExpanded(ToggleExpanded(expanded, id), id) != expanded ==> ToggleExpanded(ToggleExpanded(expanded, id), id) == None
  {
  }

  function Ids(feeds: seq<RssFeed>): (r: seq<string>)
    ensures |r| == |feeds|
    ensures forall k :: 0 <= k < |r| ==> r[k] == feeds[k].id
  {
    if feeds == [] then [] else [feeds[0].id] + Ids(feeds[1..])
  }

  datatype BatchKind = Enable | Disable | Delete | Crawl

  /** The ids a batch action sends to the store (or to the crawl route), or `None` when the
      handler returns early: no feed selected, or a deletion the user did not confirm. */
  function BatchTargets(selected: seq<string>, action: BatchKind, confirmed: bool): (r: Option<seq<string>>)
    ensures selected == [] ==> r == None
    ensures r.Some? ==> r.value == selected && |r.value| > 0
    ensures r == None <==> selected == [] || (action == Delete && !confirmed)
  {
    if |selected| == 0 then None
    else if action == Delete && !confirmed then None
    else Some(selected)
  }

  /** The page state. Store queries are inputs: `None` is a query that reported an error. */
  class FeedsPageState {
    var feeds: seq<RssFeed>
    var filteredFeeds: seq<RssFeed>
    var sources: seq<string>
    var selectedFeedIds: seq<string>
    var expandedFeedId: Option<string>
    var showFilters: bool
    var searchQuery: string
    var sourceFilter: string
    var statusFilter: StatusFilter
    var showBatchMenu: bool

    /** After the filter effect (lines 128-130) has run, the shown list is the filtered feeds. */
    ghost predicate Valid()
      reads this
    {
      filteredFeeds == Filter(feeds, KeptBy(searchQuery, sourceFilter, statusFilter))
    }

    constructor ()
      ensures Valid()
      ensures feeds == [] && filteredFeeds == [] && sources == [] && selectedFeedIds == []
      ensures expandedFeedId == None && !showFilters && !showBatchMenu
      ensures searchQuery == "" && sourceFilter == "all" && statusFilter == All
    {
      feeds, filteredFeeds, sources, selectedFeedIds := [], [], [], [];
      expandedFeedId, showFilters, showBatchMenu := None, false, false;
      searchQuery, sourceFilter, statusFilter := "", "all", All;
    }

    /** `applyFilters(feedData)`: up to three successive passes over a copy. */
    method ApplyFilters(feedData: seq<RssFeed>)
      modifies this`filteredFeeds
      ensures filteredFeeds == Filter(feedData, KeptBy(searchQuery, sourceFilter, statusFilter))
    {
      var result := feedData;
      if searchQuery != "" {
        var lowerQuery := Lower(searchQuery);
        result := Filter(result, ByQuery(lowerQuery));
      }
      if sourceFilter != "all" {
        result := Filter(result, BySource(sourceFilter));
      }
      if statusFilter != All {
        result := Filter(result, ByStatus(statusFilter));
      }
      StagedFilters(feedData, searchQuery, sourceFilter, statusFilter);
      filteredFeeds := result;
    }

    /** `fetchFeeds` after its query: store the rows, filter them, list their sources. */
    method LoadFeeds(data: Option<seq<RssFeed>>)
      requires Valid()
      modifies this`feeds, this`filteredFeeds, this`sources
      ensures Valid()
      ensures data.None? ==> feeds == old(feeds) && filteredFeeds == old(filteredFeeds) && sources == old(sources)
      ensures data.Some? ==> feeds == data.value && sources == Dedup(SourcesOf(data.value))
    {
      if data.None? {
        return;
      }
      feeds := data.value;
      ApplyFilters(data.value);
      sources := Dedup(SourcesOf(data.value));
    }

    /** Setting the search query; the filter effect then re-runs. */
    method SetSearchQuery(query: string)
      modifies this`searchQuery, this`filteredFeeds
      ensures Valid() && searchQuery == query
    {
      searchQuery := query;
      ApplyFilters(feeds);
    }

    /** Setting the source filter; the filter effect then re-runs. */
    method SetSourceFilter(source: string)
      modifies this`sourceFilter, this`filteredFeeds
      ensures Valid() && sourceFilter == source
    {
      sourceFilter := source;
      ApplyFilters(feeds);
    }

    /** Setting the status filter; the filter effect then re-runs. */
    method SetStatusFilter(status: StatusFilter)
      modifies this`statusFilter, this`filteredFeeds
      ensures Valid() && statusFilter == status
    {
      statusFilter := status;
      ApplyFilters(feeds);
    }

    /** `resetFilters`, followed by the filter effect: every feed is shown again. */
    method ResetFilters()
      modifies this`searchQuery, this`sourceFilter, this`statusFilter, this`showFilters, this`filteredFeeds
      ensures searchQuery == "" && sourceFilter == "all" && statusFilter == All && !showFilters
      ensures Valid() && filteredFeeds == feeds
    {
      searchQuery, sourceFilter, statusFilter := "", "all", All;
      showFilters := false;
      ApplyFilters(feeds);
      DefaultFiltersKeepAll(feeds);
    }

    /** `handleSelectFeed(id, checked)`. */
    method SelectFeed(id: string, checked: bool)
      modifies this`selectedFeedIds
      ensures checked ==> selectedFeedIds == old(selectedFeedIds) + [id]
      ensures !checked ==> selectedFeedIds == Deselect(old(selectedFeedIds), id)
    {
      if checked {
        selectedFeedIds := selectedFeedIds + [id];
      } else {
        selectedFeedIds := Deselect(selectedFeedIds, id);
      }
    }

    /** `handleSelectAll(checked)`: select exactly the shown feeds, or none. */
    method SelectAll(checked: bool)
      modifies this`selectedFeedIds
      ensures selectedFeedIds == if checked then Ids(filteredFeeds) else []
    {
      if checked {
        selectedFeedIds := Ids(filteredFeeds);
      } else {
        selectedFeedIds := [];
      }
    }

    /** `toggleFeedDetails(id)`. */
    method ToggleFeedDetails(id: string)
      modifies this`expandedFeedId
      ensures expandedFeedId == ToggleExpanded(old(expandedFeedId), id)
    {
      if expandedFeedId == Some(id) {
        expandedFeedId := None;
      } else {
        expandedFeedId := Some(id);
      }
    }

    /** `handleBatchAction(action)`. `confirmed` is the user's answer to the deletion prompt
        and `succeeded` whether the store (or every crawl request) reported no error.
        `targets` are the ids handed to the store or the crawl route. */
    method BatchAction(action: BatchKind, confirmed: bool, succeeded: bool) returns (targets: seq<string>)
      modifies this`showBatchMenu, this`selectedFeedIds
      ensures old(selectedFeedIds) == [] ==> targets == [] && showBatchMenu == old(showBatchMenu) && selectedFeedIds == []
      ensures old(selectedFeedIds) != [] ==> !showBatchMenu
      ensures BatchTargets(old(selectedFeedIds), action, confirmed) == None ==> targets == [] && selectedFeedIds == old(selectedFeedIds)
      ensures BatchTargets(old(selectedFeedIds), action, confirmed).Some? ==>
        targets == old(selectedFeedIds) && selectedFeedIds == (if succeeded then [] else old(selectedFeedIds))
    {
      targets := [];
      if |selectedFeedIds| == 0 {
        return;
      }
      showBatchMenu := false;
      if action == Delete && !confirmed {
        return;
      }
      targets := selectedFeedIds;
      if succeeded {
        selectedFeedIds := [];
      }
    }
  }
}
