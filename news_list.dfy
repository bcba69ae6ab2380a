/** The home page's news list: the category filter, the title/summary search and the
    "latest" and "popular" orderings applied to a copy of the loaded items. */
module NewsList {
  import opened Optional
  import opened Seqs
  import opened Sorting
  import opened Text

  /** The fields of a `crawled_contents` row the list uses. `publishedAt` stands for the
      parsed `published_at` as a timestamp. */
  datatype NewsItem = NewsItem(
    category: Option<string>,
    title: Option<string>,
    summary: Option<string>,
    publishedAt: int,
    views: Option<int>)

  /** `item.views || 0`. */
  function ViewsOrZero(item: NewsItem): (v: int)
    ensures item.views.Some? ==> v == item.views.value
    ensures item.views.None? ==> v == 0
  {
    if item.views.Some? then item.views.value else 0
  }

  /** The comparator `new Date(b.published_at) - new Date(a.published_at)`. */
  predicate NewerFirst(a: NewsItem, b: NewsItem) {
    a.publishedAt >= b.publishedAt
  }

  /** The comparator `(b.views || 0) - (a.views || 0)`. */
  predicate MoreViewedFirst(a: NewsItem, b: NewsItem) {
    ViewsOrZero(a) >= ViewsOrZero(b)
  }

  /** The category pass, applied when the filter is not `'all'`. */
  predicate InCategory(item: NewsItem, filter: string) {
    Truthy(item.category) && Lower(item.category.value) == Lower(filter)
  }

  /** The search pass, applied when the term is non-empty. */
  predicate MatchesTerm(item: NewsItem, lowerTerm: string) {
    || (Truthy(item.title) && Contains(Lower(item.title.value), lowerTerm))
    || (Truthy(item.summary) && Contains(Lower(item.summary.value), lowerTerm))
  }

  function ByCategory(filter: string): NewsItem -> bool {
    item => InCategory(item, filter)
  }

  function ByTerm(lowerTerm: string): NewsItem -> bool {
    item => MatchesTerm(item, lowerTerm)
  }

  /** An item survives both filter passes. */
  predicate Shown(item: NewsItem, filter: string, searchTerm: string) {
    && (filter == "all" || InCategory(item, filter))
    && (searchTerm == "" || MatchesTerm(item, Lower(searchTerm)))
  }

  function ShownBy(filter: string, searchTerm: string): NewsItem -> bool {
    item => Shown(item, filter, searchTerm)
  }

  /** The two successive passes equal one filter by `Shown`. */
  lemma StagedNewsFilters(news: seq<NewsItem>, filter: string, searchTerm: string)
    ensures FilterWhen(FilterWhen(news, filter != "all", ByCategory(filter)), searchTerm != "", ByTerm(Lower(searchTerm)))
      == Filter(news, ShownBy(filter, searchTerm))
  {
    var q1: NewsItem -> bool := (item: NewsItem) => filter == "all" || InCategory(item, filter);
    var q2: NewsItem -> bool := (item: NewsItem) => searchTerm == "" || MatchesTerm(item, Lower(searchTerm));
    FilterWhenIsFilter(news, filter != "all", ByCategory(filter), q1);
    FilterWhenIsFilter(Filter(news, q1), searchTerm != "", ByTerm(Lower(searchTerm)), q2);
    FilterFilter(news, q1, q2, ShownBy(filter, searchTerm));
  }

  /** The sorted copy of the filtered items: sorted by the chosen order, a permutation of the
      items that pass both filters, and those items in their own order for any other sort. */
  method FilterAndSort(news: seq<NewsItem>, filter: string, sort: string, searchTerm: string)
    returns (result: seq<NewsItem>)
    ensures multiset(result) == multiset(Filter(news, ShownBy(filter, searchTerm)))
    ensures sort == "latest" ==> SortedBy(result, NewerFirst)
    ensures sort == "popular" ==> SortedBy(result, MoreViewedFirst)
    ensures sort != "latest" && sort != "popular" ==> result == Filter(news, ShownBy(filter, searchTerm))
  {
    result := news;
    if filter != "all" {
      result := Filter(result, ByCategory(filter));
    }
    if searchTerm != "" {
      var term := Lower(searchTerm);
      result := Filter(result, ByTerm(term));
    }
    StagedNewsFilters(news, filter, searchTerm);
    if sort == "latest" {
      result := SortBy(result, NewerFirst);
    } else if sort == "popular" {
      result := SortBy(result, MoreViewedFirst);
    }
  }

  /** Every item shown passes both filters; every item that passes them is shown; only
      loaded items are shown and none more often than it was loaded. */
  lemma ShownItemsFacts(news: seq<NewsItem>, filter: string, searchTerm: string, result: seq<NewsItem>)
    requires multiset(result) == multiset(Filter(news, ShownBy(filter, searchTerm)))
    ensures forall k :: 0 <= k < |result| ==> Shown(result[k], filter, searchTerm)
    ensures forall k :: 0 <= k < |news| && Shown(news[k], filter, searchTerm) ==> news[k] in result
    ensures multiset(result) <= multiset(news)
  {
    PermutedFilter(news, ShownBy(filter, searchTerm), result);
  }

  /** With category `'all'` and an empty term every loaded item is shown. */
  lemma DefaultShowsAll(news: seq<NewsItem>)
    ensures Filter(news, ShownBy("all", "")) == news
  {
    FilterKeepsAll(news, ShownBy("all", ""));
  }

  /** The list the filter effect shows: the items passing both filters, sorted newest-first
      for `'latest'`, most-viewed-first for `'popular'`, and in load order for any other sort. */
  predicate ShowsFiltered(shown: seq<NewsItem>, news: seq<NewsItem>, filter: string, sort: string, searchTerm: string) {
    && multiset(shown) == multiset(Filter(news, ShownBy(filter, searchTerm)))
    && (sort == "latest" ==> SortedBy(shown, NewerFirst))
    && (sort == "popular" ==> SortedBy(shown, MoreViewedFirst))
    && (sort != "latest" && sort != "popular" ==> shown == Filter(news, ShownBy(filter, searchTerm)))
  }

  /** The page state; the filter effect keeps `filteredNews` the filtered, sorted copy of `news`. */
  class HomePage {
    var news: seq<NewsItem>
    var filteredNews: seq<NewsItem>
    var currentFilter: string
    var currentSort: string
    var searchTerm: string

    /** The effect has run since the last change of any of its inputs. */
    predicate Valid()
      reads this
    {
      ShowsFiltered(filteredNews, news, currentFilter, currentSort, searchTerm)
    }

    constructor ()
      ensures news == [] && filteredNews == []
      ensures currentFilter == "all" && currentSort == "latest" && searchTerm == ""
      ensures Valid()
    {
      news, filteredNews := [], [];
      currentFilter, currentSort, searchTerm := "all", "latest", "";
    }

    /** The filter effect, run after any of its inputs changes. */
    method Refresh()
      modifies this`filteredNews
      ensures Valid()
    {
      filteredNews := FilterAndSort(news, currentFilter, currentSort, searchTerm);
    }

    /** `fetchNews`: `None` is a query that reported an error and changes nothing; a null
        result is passed as the empty sequence. The effect then re-runs on the new items. */
    method LoadNews(data: Option<seq<NewsItem>>)
      requires Valid()
      modifies this`news, this`filteredNews
      ensures Valid()
      ensures data.None? ==> news == old(news) && filteredNews == old(filteredNews)
      ensures data.Some? ==> news == data.value
      ensures data.Some? ==> ShowsFiltered(filteredNews, data.value, currentFilter, currentSort, searchTerm)
    {
      if data.Some? {
        news := data.value;
        filteredNews := data.value;
        Refresh();
      }
    }

    /** `handleSearch`, `handleFilterChange`, `handleSortChange`, each followed by the effect. */
    method SetControls(filter: string, sort: string, term: string)
      modifies this`currentFilter, this`currentSort, this`searchTerm, this`filteredNews
      ensures currentFilter == filter && currentSort == sort && searchTerm == term && news == old(news)
      ensures Valid()
      ensures ShowsFiltered(filteredNews, news, filter, sort, term)
    {
      currentFilter, currentSort, searchTerm := filter, sort, term;
      Refresh();
    }
  }
}
