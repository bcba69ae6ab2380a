/** The tags page: counting tag occurrences over article rows, the popular-tag
    list, the initial selection, and co-occurrence counting for the selected tag. */
module TagStats {
  import opened Optional
  import opened Seqs
  import opened Sorting
  import opened TagTypes

  /** The `tags` column of one row: an array of tag names, or any other value. */
  datatype TagsField = TagArray(tags: seq<string>) | NotAnArray

  /** The counting loop skips the tag equal to `excluded`, when there is one. */
  predicate Counted(excluded: Option<string>, tag: string) {
    excluded != Some(tag)
  }

  function CountedBy(excluded: Option<string>): string -> bool {
    t => Counted(excluded, t)
  }

  /** The tags one row contributes, in array order. */
  function RowOccurrences(row: TagsField, excluded: Option<string>): seq<string> {
    match row
    case NotAnArray => []
    case TagArray(tags) => Filter(tags, CountedBy(excluded))
  }

  /** Every tag occurrence the counting loops visit and count, in visiting order. */
  function Occurrences(rows: seq<TagsField>, excluded: Option<string>): seq<string> {
    if rows == [] then []
    else Occurrences(rows[..|rows| - 1], excluded) + RowOccurrences(rows[|rows| - 1], excluded)
  }

  lemma OccurrencesStep(rows: seq<TagsField>, i: nat, excluded: Option<string>)
    requires i < |rows|
    ensures Occurrences(rows[..i + 1], excluded) == Occurrences(rows[..i], excluded) + RowOccurrences(rows[i], excluded)
  {
    assert rows[..i + 1][..i] == rows[..i];
  }

  /** `Object.entries(counts).map(...)` over a record filled from `occ`:
      one entry per distinct tag, in first-insertion order, with its number of occurrences. */
  function Tally(occ: seq<string>): seq<TagInfo> {
    var names := Dedup(occ);
    seq(|names|, k requires 0 <= k < |names| => TagInfo(names[k], multiset(occ)[names[k]]))
  }

  /** The record `counts` after `counts[tag] = (counts[tag] || 0) + 1` for each tag of `occ` in turn. */
  function CountMap(occ: seq<string>): map<string, nat> {
    if occ == [] then map[]
    else
      var m := CountMap(occ[..|occ| - 1]);
      var tag := occ[|occ| - 1];
      m[tag := (if tag in m then m[tag] else 0) + 1]
  }

  lemma CountMapSnoc(occ: seq<string>, tag: string)
    ensures var m := CountMap(occ);
      CountMap(occ + [tag]) == m[tag := (if tag in m then m[tag] else 0) + 1]
  {
    assert (occ + [tag])[..|occ|] == occ;
  }

  lemma {:induction false} CountMapHas(occ: seq<string>, t: string)
    ensures t in CountMap(occ) <==> t in occ
  {
    if occ != [] {
      CountMapHas(occ[..|occ| - 1], t);
      assert occ == occ[..|occ| - 1] + [occ[|occ| - 1]];
    }
  }

  /** The record holds exactly the tags of `occ`, each with its number of occurrences. */
  lemma {:induction false} CountMapFacts(occ: seq<string>)
    ensures forall t :: t in CountMap(occ) <==> t in occ
    ensures forall t :: t in CountMap(occ) ==> CountMap(occ)[t] == multiset(occ)[t]
  {
    if occ != [] {
      var init := occ[..|occ| - 1];
      CountMapFacts(init);
      assert occ == init + [occ[|occ| - 1]];
    }
  }

  /** The nested `forEach` loops that fill `tagCounts` (or `relatedTagCounts`, when a tag
      is excluded), followed by the conversion of the record to an array. */
  method CountTags(rows: seq<TagsField>, excluded: Option<string>) returns (infos: seq<TagInfo>)
    ensures infos == Tally(Occurrences(rows, excluded))
  {
    var counts: map<string, nat> := map[];
    var order: seq<string> := [];
    ghost var seen: seq<string> := [];
    var i := 0;
    while i < |rows|
      invariant 0 <= i <= |rows|
      invariant seen == Occurrences(rows[..i], excluded)
      invariant counts == CountMap(seen) && order == Dedup(seen)
    {
      OccurrencesStep(rows, i, excluded);
      match rows[i] {
        case NotAnArray =>
        case TagArray(tags) =>
          counts, order, seen := CountRow(tags, excluded, counts, order, seen);
      }
      i := i + 1;
    }
    assert rows[..i] == rows;
    EntriesAreTally(counts, order, seen);
    infos := Entries(counts, order);
  }

  /** `Object.entries(counts).map(([name, count]) => ({ name, count }))`, keys in insertion order. */
  function Entries(counts: map<string, nat>, order: seq<string>): seq<TagInfo>
    requires forall k :: 0 <= k < |order| ==> order[k] in counts
  {
    seq(|order|, k requires 0 <= k < |order| => TagInfo(order[k], counts[order[k]]))
  }

  lemma EntriesAreTally(counts: map<string, nat>, order: seq<string>, seen: seq<string>)
    requires counts == CountMap(seen) && order == Dedup(seen)
    ensures forall k :: 0 <= k < |order| ==> order[k] in counts
    ensures Entries(counts, order) == Tally(seen)
  {
    CountMapFacts(seen);
    DedupFacts(seen);
  }

  /** The inner `item.tags.forEach(...)` loop over one row's array. */
  method CountRow(tags: seq<string>, excluded: Option<string>,
                  counts0: map<string, nat>, order0: seq<string>, ghost seen0: seq<string>)
    returns (counts: map<string, nat>, order: seq<string>, ghost seen: seq<string>)
    requires counts0 == CountMap(seen0) && order0 == Dedup(seen0)
    ensures seen == seen0 + Filter(tags, CountedBy(excluded))
    ensures counts == CountMap(seen0 + Filter(tags, CountedBy(excluded)))
    ensures order == Dedup(seen0 + Filter(tags, CountedBy(excluded)))
  {
    counts, order, seen := counts0, order0, seen0;
    var j := 0;
    while j < |tags|
      invariant 0 <= j <= |tags|
      invariant seen == seen0 + Filter(tags[..j], CountedBy(excluded))
      invariant counts == CountMap(seen) && order == Dedup(seen)
    {
      ghost var seenBefore := seen;
      counts, order, seen := CountOne(tags[j], excluded, counts, order, seen);
      CountRowStep(tags, j, excluded, seen0, seenBefore, seen);
      j := j + 1;
    }
    assert tags[..j] == tags;
  }

  lemma CountRowStep(tags: seq<string>, j: nat, excluded: Option<string>,
                     seen0: seq<string>, seen: seq<string>, seen': seq<string>)
    requires j < |tags|
    requires seen == seen0 + Filter(tags[..j], CountedBy(excluded))
    requires seen' == seen + (if Counted(excluded, tags[j]) then [tags[j]] else [])
    ensures seen' == seen0 + Filter(tags[..j + 1], CountedBy(excluded))
  {
    var p := CountedBy(excluded);
    assert tags[..j + 1] == tags[..j] + [tags[j]];
    FilterSnoc(tags[..j], tags[j], p);
    AppendAssoc(seen0, Filter(tags[..j], p), if p(tags[j]) then [tags[j]] else []);
  }

  /** One step of the inner loop: `counts[tag] = (counts[tag] || 0) + 1` unless `tag` is excluded. */
  method CountOne(tag: string, excluded: Option<string>,
                  counts0: map<string, nat>, order0: seq<string>, ghost seen0: seq<string>)
    returns (counts: map<string, nat>, order: seq<string>, ghost seen: seq<string>)
    requires counts0 == CountMap(seen0) && order0 == Dedup(seen0)
    ensures seen == seen0 + (if Counted(excluded, tag) then [tag] else [])
    ensures counts == CountMap(seen0 + (if Counted(excluded, tag) then [tag] else []))
    ensures order == Dedup(seen0 + (if Counted(excluded, tag) then [tag] else []))
  {
    counts, order, seen := counts0, order0, seen0;
    if excluded != Some(tag) {
      CountMapSnoc(seen0, tag);
      CountMapHas(seen0, tag);
      DedupSnoc(seen0, tag);
      var previous := if tag in counts then counts[tag] else 0;
      if tag !in counts {
        order := order + [tag];
      }
      counts := counts[tag := previous + 1];
      seen := seen + [tag];
    }
  }

  /** Sum of the counts of a tag list. */
  function TotalCount(infos: seq<TagInfo>): nat {
    if infos == [] then 0 else infos[0].count + TotalCount(infos[1..])
  }

  /** Sum of the multiplicities in `m` of the names in `names`. */
  function SumOver(names: seq<string>, m: multiset<string>): nat {
    if names == [] then 0 else m[names[0]] + SumOver(names[1..], m)
  }

  lemma {:induction false} SumOverSnoc(names: seq<string>, x: string, m: multiset<string>)
    ensures SumOver(names + [x], m) == SumOver(names, m) + m[x]
  {
    if names != [] {
      assert (names + [x])[1..] == names[1..] + [x];
      SumOverSnoc(names[1..], x, m);
    }
  }

  /** One more occurrence of `x` adds one to the sum when `x` is listed once, and nothing when it is not listed. */
  lemma {:induction false} SumOverBump(names: seq<string>, x: string, m: multiset<string>)
    requires Distinct(names)
    ensures SumOver(names, m + multiset{x}) == SumOver(names, m) + (if x in names then 1 else 0)
  {
    if names != [] {
      assert Distinct(names[1..]);
      SumOverBump(names[1..], x, m);
      assert x in names <==> x == names[0] || x in names[1..];
      assert x == names[0] ==> x !in names[1..];
    }
  }

  /** The counts of a tally add up to the number of occurrences counted. */
  lemma {:induction false} SumOverDedup(occ: seq<string>)
    ensures SumOver(Dedup(occ), multiset(occ)) == |occ|
    decreases |occ|
  {
    if occ != [] {
      var init, x := occ[..|occ| - 1], occ[|occ| - 1];
      assert occ == init + [x];
      SumOverDedup(init);
      DedupSnoc(init, x);
      DedupFacts(init);
      SumOverBump(Dedup(init), x, multiset(init));
      if x !in init {
        SumOverSnoc(Dedup(init), x, multiset(occ));
      }
    }
  }

  lemma {:induction false} TotalCountOfEntries(names: seq<string>, m: multiset<string>)
    ensures TotalCount(seq(|names|, k requires 0 <= k < |names| => TagInfo(names[k], m[names[k]]))) == SumOver(names, m)
  {
    var infos := seq(|names|, k requires 0 <= k < |names| => TagInfo(names[k], m[names[k]]));
    if names != [] {
      TotalCountOfEntries(names[1..], m);
      assert infos[1..] == seq(|names[1..]|, k requires 0 <= k < |names[1..]| => TagInfo(names[1..][k], m[names[1..][k]]));
    }
  }

  /** The counted tag list holds each counted tag exactly once, with its number of
      occurrences, and its counts add up to the number of occurrences. */
  lemma TallyFacts(occ: seq<string>)
    ensures Names(Tally(occ)) == Dedup(occ)
    ensures Distinct(Names(Tally(occ)))
    ensures forall k :: 0 <= k < |occ| ==> occ[k] in Names(Tally(occ))
    ensures forall k :: 0 <= k < |Tally(occ)| ==> Tally(occ)[k].count == multiset(occ)[Tally(occ)[k].name] >= 1
    ensures TotalCount(Tally(occ)) == |occ|
  {
    var names := Dedup(occ);
    DedupFacts(occ);
    TotalCountOfEntries(names, multiset(occ));
    SumOverDedup(occ);
  }

  /** Each occurrence of a tag in a row's array counts once, duplicates included; rows
      whose `tags` is not an array contribute nothing. */
  lemma {:induction false} OccurrencesCount(rows: seq<TagsField>, excluded: Option<string>, tag: string)
    ensures multiset(Occurrences(rows, excluded))[tag] ==
      if !Counted(excluded, tag) then 0 else RowsCount(rows, tag)
  {
    if rows != [] {
      OccurrencesCount(rows[..|rows| - 1], excluded, tag);
      match rows[|rows| - 1]
      case NotAnArray =>
      case TagArray(tags) =>
        FilterCount(tags, excluded, tag);
    }
  }

  /** The number of times `tag` stands in the `tags` arrays of `rows`. */
  function RowsCount(rows: seq<TagsField>, tag: string): nat {
    if rows == [] then 0
    else
      var last := match rows[|rows| - 1]
        case NotAnArray => 0
        case TagArray(tags) => multiset(tags)[tag];
      RowsCount(rows[..|rows| - 1], tag) + last
  }

  lemma FilterCount(tags: seq<string>, excluded: Option<string>, tag: string)
    ensures multiset(Filter(tags, CountedBy(excluded)))[tag] ==
      if Counted(excluded, tag) then multiset(tags)[tag] else 0
  {
    FilterCountOf(tags, CountedBy(excluded), tag);
  }

  /** The related counts never mention the excluded (selected) tag. */
  lemma ExcludedNeverCounted(rows: seq<TagsField>, tag: string)
    ensures tag !in Names(Tally(Occurrences(rows, Some(tag))))
  {
    var occ := Occurrences(rows, Some(tag));
    TallyFacts(occ);
    OccurrencesCount(rows, Some(tag), tag);
  }

  /** `[...infos].sort((a, b) => b.count - a.count).slice(0, limit)`. */
  function TopByCount(infos: seq<TagInfo>, limit: nat): (r: seq<TagInfo>)
    ensures |r| == if |infos| <= limit then |infos| else limit
    ensures SortedBy(r, ByCountDesc)
    ensures multiset(r) <= multiset(infos)
    ensures forall k, x :: 0 <= k < |r| && x in infos && x !in r ==> r[k].count >= x.count
  {
    var sorted := SortBy(infos, ByCountDesc);
    TakeMultiset(sorted, limit);
    TopByCountBound(sorted, infos, limit);
    Take(sorted, limit)
  }

  lemma TopByCountBound(sorted: seq<TagInfo>, infos: seq<TagInfo>, limit: nat)
    requires SortedBy(sorted, ByCountDesc) && multiset(sorted) == multiset(infos)
    ensures var r := Take(sorted, limit);
      forall k, x :: 0 <= k < |r| && x in infos && x !in r ==> r[k].count >= x.count
  {
    var r := Take(sorted, limit);
    forall k, x | 0 <= k < |r| && x in infos && x !in r
      ensures r[k].count >= x.count
    {
      assert x in multiset(sorted);
      SortedPrefixFirst(sorted, ByCountDesc, |r|, x, k);
    }
  }

  /** `setPopularTags(sortedTags.slice(0, 20))`. */
  function PopularTags(allTags: seq<TagInfo>): seq<TagInfo> {
    TopByCount(allTags, 20)
  }

  /** The popular tags are the first twenty entries of the sorted copy; the full list keeps
      its counting order. */
  lemma PopularIsSortedPrefix(allTags: seq<TagInfo>)
    ensures var sorted := SortBy(allTags, ByCountDesc);
      PopularTags(allTags) == sorted[..|PopularTags(allTags)|]
  {
    var sorted := SortBy(allTags, ByCountDesc);
    assert PopularTags(allTags) == Take(sorted, 20);
  }

  /** `setSelectedTag(sortedTags[0].name)` when no tag is selected and some tag exists. */
  function InitialSelection(current: Option<string>, sorted: seq<TagInfo>): (r: Option<string>)
    ensures |sorted| > 0 && !(current.Some? && current.value != "") ==> r == Some(sorted[0].name)
    ensures |sorted| == 0 || (current.Some? && current.value != "") ==> r == current
  {
    if |sorted| > 0 && !(current.Some? && current.value != "") then Some(sorted[0].name) else current
  }

  /** The tag chosen first has the highest count of all tags. */
  lemma InitialSelectionIsMostPopular(allTags: seq<TagInfo>)
    requires |allTags| > 0
    ensures var sorted := SortBy(allTags, ByCountDesc);
      InitialSelection(None, sorted) == Some(sorted[0].name) &&
      sorted[0] in allTags &&
      forall k :: 0 <= k < |allTags| ==> sorted[0].count >= allTags[k].count
  {
    var sorted := SortBy(allTags, ByCountDesc);
    assert sorted[0] in multiset(allTags);
    forall k | 0 <= k < |allTags| ensures sorted[0].count >= allTags[k].count {
      assert allTags[k] in multiset(sorted);
      SortedHeadFirst(sorted, ByCountDesc, allTags[k]);
    }
  }

  /** `relatedTagsArray.map(tag => ({ source: tagName, target: tag.name, strength: tag.count / articles.length }))`. */
  function RelationsFor(tagName: string, related: seq<TagInfo>, articleCount: nat): (r: seq<TagRelation>)
    ensures |r| == |related|
    ensures forall k :: 0 <= k < |r| ==>
      r[k] == TagRelation(tagName, related[k].name, Ratio(related[k].count, articleCount))
  {
    if related == [] then []
    else
      var first := TagRelation(tagName, related[0].name, Ratio(related[0].count, articleCount));
      [first] + RelationsFor(tagName, related[1..], articleCount)
  }

  /** Page state filled by `fetchAllTags` and `fetchTagRelations`. Query results are inputs:
      `None` is a query that reported an error; a `null` result is passed as the empty sequence. */
  class TagsPage {
    var allTags: seq<TagInfo>
    var popularTags: seq<TagInfo>
    var selectedTag: Option<string>
    var relatedTags: seq<TagInfo>
    var tagRelations: seq<TagRelation>

    constructor ()
      ensures allTags == [] && popularTags == [] && selectedTag == None
      ensures relatedTags == [] && tagRelations == []
    {
      allTags, popularTags, selectedTag := [], [], None;
      relatedTags, tagRelations := [], [];
    }

    /** `fetchAllTags` after its query. */
    method FetchAllTags(data: Option<seq<TagsField>>)
      modifies this`allTags, this`popularTags, this`selectedTag
      ensures data.None? ==> allTags == old(allTags) && popularTags == old(popularTags) && selectedTag == old(selectedTag)
      ensures data.Some? ==> allTags == Tally(Occurrences(data.value, None))
      ensures data.Some? ==> popularTags == PopularTags(allTags)
      ensures data.Some? ==> selectedTag == InitialSelection(old(selectedTag), SortBy(allTags, ByCountDesc))
    {
      if data.None? {
        return;
      }
      var tagInfoArray := CountTags(data.value, None);
      var sortedTags := SortBy(tagInfoArray, ByCountDesc);
      allTags := tagInfoArray;
      popularTags := Take(sortedTags, 20);
      if |sortedTags| > 0 && !(selectedTag.Some? && selectedTag.value != "") {
        selectedTag := Some(sortedTags[0].name);
      }
    }

    /** `fetchTagRelations(tagName)` after its query. */
    method FetchTagRelations(tagName: string, articles: Option<seq<TagsField>>)
      modifies this`relatedTags, this`tagRelations
      ensures tagName == "" || articles.None? ==> relatedTags == old(relatedTags) && tagRelations == old(tagRelations)
      ensures tagName != "" && articles == Some([]) ==> relatedTags == [] && tagRelations == []
      ensures tagName != "" && articles.Some? && articles.value != [] ==>
        relatedTags == TopByCount(Tally(Occurrences(articles.value, Some(tagName))), 15) &&
        tagRelations == RelationsFor(tagName, relatedTags, |articles.value|)
    {
      if tagName == "" || articles.None? {
        return;
      }
      if |articles.value| == 0 {
        relatedTags, tagRelations := [], [];
        return;
      }
      var counted := CountTags(articles.value, Some(tagName));
      var relatedTagsArray := TopByCount(counted, 15);
      relatedTags := relatedTagsArray;
      tagRelations := RelationsFor(tagName, relatedTagsArray, |articles.value|);
    }
  }

  /** The related tags are at most fifteen, sorted by count, drawn from the co-occurrence
      counts, and never the selected tag itself. */
  lemma RelatedTagsFacts(tagName: string, rows: seq<TagsField>)
    ensures var related := TopByCount(Tally(Occurrences(rows, Some(tagName))), 15);
      |related| <= 15 &&
      SortedBy(related, ByCountDesc) &&
      multiset(related) <= multiset(Tally(Occurrences(rows, Some(tagName)))) &&
      forall k :: 0 <= k < |related| ==> related[k].name != tagName
  {
    var all := Tally(Occurrences(rows, Some(tagName)));
    var related := TopByCount(all, 15);
    ExcludedNeverCounted(rows, tagName);
    forall k | 0 <= k < |related| ensures related[k].name != tagName {
      assert related[k] in multiset(all);
      var j :| 0 <= j < |all| && all[j] == related[k];
      assert Names(all)[j] == related[k].name;
    }
  }
}
