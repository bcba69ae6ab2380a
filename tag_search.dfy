/** The tag search box: the suggestion list computed from the query, and the handlers
    that show, hide and clear it. */
module TagSearch {
  import opened Seqs
  import opened Sorting
  import opened Text
  import opened TagTypes
  import opened TagStats

  /** Maximum number of suggestions. */
  const MaxSuggestions: nat := 15

  predicate NameMatches(tag: TagInfo, lowerQuery: string) {
    Contains(Lower(tag.name), lowerQuery)
  }

  function MatchingName(lowerQuery: string): TagInfo -> bool {
    tag => NameMatches(tag, lowerQuery)
  }

  /** The suggestions for a query: nothing for a blank query, otherwise the tags whose
      lower-cased name contains the lower-cased (untrimmed) query, by count descending,
      at most fifteen. */
  function SearchResults(allTags: seq<TagInfo>, query: string): (r: seq<TagInfo>)
    ensures Blank(query) ==> r == []
    ensures |r| <= MaxSuggestions
    ensures SortedBy(r, ByCountDesc)
    ensures multiset(r) <= multiset(allTags)
  {
    if Blank(query) then []
    else
      FilterMultiset(allTags, MatchingName(Lower(query)));
      TopByCount(Filter(allTags, MatchingName(Lower(query))), MaxSuggestions)
  }

  /** Every suggestion's lower-cased name contains the lower-cased query. */
  lemma SuggestionsMatch(allTags: seq<TagInfo>, query: string)
    ensures forall k :: 0 <= k < |SearchResults(allTags, query)| ==>
      NameMatches(SearchResults(allTags, query)[k], Lower(query))
  {
    if !Blank(query) {
      var matching := Filter(allTags, MatchingName(Lower(query)));
      var r := SearchResults(allTags, query);
      forall k | 0 <= k < |r| ensures NameMatches(r[k], Lower(query)) {
        assert r[k] in multiset(matching);
        var j :| 0 <= j < |matching| && matching[j] == r[k];
      }
    }
  }

  lemma MultisetSubEq<T>(a: multiset<T>, b: multiset<T>)
    requires a <= b && |a| == |b|
    ensures a == b
  {
    var c := b - a;
    assert b == a + c;
    assert c == multiset{};
  }

  /** When at most fifteen tags match, every matching tag is suggested. */
  lemma FewMatchesAllShown(allTags: seq<TagInfo>, query: string, x: TagInfo)
    requires !Blank(query) && x in allTags && NameMatches(x, Lower(query))
    requires |Filter(allTags, MatchingName(Lower(query)))| <= MaxSuggestions
    ensures x in SearchResults(allTags, query)
  {
    var matching := Filter(allTags, MatchingName(Lower(query)));
    var r := SearchResults(allTags, query);
    assert r == TopByCount(matching, MaxSuggestions);
    FilterMembers(allTags, MatchingName(Lower(query)));
    assert x in matching;
    MultisetSubEq(multiset(r), multiset(matching));
    assert x in multiset(r);
  }

  /** A matching tag is left out only when the list is full, and then only in favour of
      tags with at least its count. */
  lemma SuggestionsAreMostPopular(allTags: seq<TagInfo>, query: string, x: TagInfo)
    requires !Blank(query) && x in allTags && NameMatches(x, Lower(query))
    requires x !in SearchResults(allTags, query)
    ensures |SearchResults(allTags, query)| == MaxSuggestions
    ensures forall k :: 0 <= k < |SearchResults(allTags, query)| ==> SearchResults(allTags, query)[k].count >= x.count
  {
    var matching := Filter(allTags, MatchingName(Lower(query)));
    var r := SearchResults(allTags, query);
    assert r == TopByCount(matching, MaxSuggestions);
    FilterMembers(allTags, MatchingName(Lower(query)));
    assert x in matching;
    if |matching| <= MaxSuggestions {
      FewMatchesAllShown(allTags, query, x);
      assert false;
    }
  }

  /** The search box. `filteredTags` is kept equal to the suggestions by the effect. */
  class TagSearchInput {
    var allTags: seq<TagInfo>
    var searchQuery: string
    var showResults: bool
    var filteredTags: seq<TagInfo>

    ghost predicate Valid()
      reads this
    {
      filteredTags == SearchResults(allTags, searchQuery)
    }

    constructor (tags: seq<TagInfo>)
      ensures Valid()
      ensures allTags == tags && searchQuery == "" && !showResults && filteredTags == []
    {
      allTags, searchQuery, showResults, filteredTags := tags, "", false, [];
    }

    /** The suggestion effect, run whenever the query or the tag list changes. */
    method Refresh()
      modifies this`filteredTags
      ensures Valid()
    {
      if Trim(searchQuery) == "" {
        filteredTags := [];
        return;
      }
      var lowercaseQuery := Lower(searchQuery);
      var matching := Filter(allTags, MatchingName(lowercaseQuery));
      filteredTags := TopByCount(matching, MaxSuggestions);
    }

    /** A new tag list from the parent; the effect re-runs. */
    method SetAllTags(tags: seq<TagInfo>)
      modifies this`allTags, this`filteredTags
      ensures Valid() && allTags == tags && searchQuery == old(searchQuery)
    {
      allTags := tags;
      Refresh();
    }

    /** `handleTagClick(tagName)`: the returned name is what `onTagSelect` receives. */
    method TagClick(tagName: string) returns (selected: string)
      modifies this`searchQuery, this`showResults, this`filteredTags
      ensures selected == tagName
      ensures Valid() && searchQuery == "" && !showResults && filteredTags == []
    {
      selected := tagName;
      searchQuery := "";
      showResults := false;
      Refresh();
    }

    /** `handleFocus`: show the suggestions when the query is not blank. */
    method Focus()
      modifies this`showResults
      ensures showResults == (old(showResults) || !Blank(searchQuery))
    {
      if Trim(searchQuery) != "" {
        showResults := true;
      }
    }

    /** `handleChange`: store the value; show the suggestions exactly when it is not blank. */
    method Change(value: string)
      modifies this`searchQuery, this`showResults, this`filteredTags
      ensures Valid() && searchQuery == value
      ensures showResults <==> !Blank(value)
    {
      searchQuery := value;
      showResults := Trim(value) != "";
      Refresh();
    }

    /** `handleClearSearch`. */
    method ClearSearch()
      modifies this`searchQuery, this`showResults, this`filteredTags
      ensures Valid() && searchQuery == "" && !showResults && filteredTags == []
    {
      searchQuery := "";
      showResults := false;
      Refresh();
    }
  }
}
