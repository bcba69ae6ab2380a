# A Dafny model of the news-aggregator front end

The system is a Next.js web front end for a news-aggregation service. It loads crawled
articles and RSS feed records from a hosted store. It shows them as a filterable news
list, a feed-management page, a tag explorer and a daily digest. The digest is an HTML
page that a language model writes from the day's articles.

This project models the data transformations that sit inside those pages. It states their
behaviour as contracts and proves them.

- **Tag statistics** (`TagStats`): tag occurrences are counted into an insertion-ordered
  dictionary, which becomes the tag list. The top twenty are taken, and the most popular tag
  is selected first. Co-occurring tags are counted with the selected tag excluded. The top
  fifteen become relation records whose strength is an exact count/articles ratio.
- **Feed management** (`FeedsPage`): a three-pass filter (search, source, status), the list
  of distinct sources, the selected-ids list, the expanded-row toggle and the guard in front
  of batch actions.
- **Feed form** (`FeedForm`): the initial and edit-mode field records, the change handler
  that clears a field's error, the validation messages and the submit guard.
- **Tag search box** (`TagSearch`): the suggestion list (substring match, by count, at most
  fifteen) and the show/hide handlers.
- **Tag graph** (`TagGraph`): the node list built from a map filled in visiting order, the
  group of each node, the guarantee that the centre node exists, the click rule and the
  strength label.
- **News list** (`NewsList`): the category and search filters and the "latest" and
  "popular" orderings.
- **Related articles** (`RelatedArticles`): the row range of a page, the page count, the
  previous/next controls, the total-count update and the short form of a source.
- **Digest** (`Digest`): the numbered prompt lines, the post-processing of the model's reply
  (wrap, strip a code fence, or keep) and the error fallback.
- **Trend chart** (`TrendChart`) and **news card** (`NewsCard`): the week-key label, the date
  ordering of chart points, the source-colour table and the display fallbacks.

Shared modules model the JavaScript built-ins the pages use:

- `Seqs` has `filter`, `slice(0, k)` and `[...new Set(xs)]`.
- `Sorting` has `sort` with a comparator, specified as sorted plus a permutation.
- `Text` has `toLowerCase`, `includes`, `indexOf`, `split`, `join`, `trim`, `replace` with a
  string pattern, and `||` on optional strings.

Each mutating handler becomes a method of a class whose fields are the component's state.
Store queries, the language-model call, the URL constructor and date formatting are inputs
to the model: a query result is an `Option` (`None` means the query reported an error), and
a parsed host name or a formatted date is a parameter.

## Model

| member | source | states |
|---|---|---|
| TagStats.CountTags | app/tags/page.tsx:55-68 | The counted tag list equals the tally of all occurrences in rows whose `tags` is an array: first-seen order, one entry per distinct tag, count = multiplicity. The proof runs through the dictionary-filling loop. |
| TagStats.CountRow | app/tags/page.tsx:58-60 | The inner `forEach` adds the counted tags of one row to the dictionary and its key order; both stay equal to the count map and the first-seen order of everything seen so far. |
| TagStats.TallyFacts | app/tags/page.tsx:55-68 | The tally's names are exactly the distinct occurrences, with no repeats. Every occurrence is listed. Each count equals the tag's multiplicity and is at least 1. The counts sum to the number of occurrences. |
| TagStats.OccurrencesCount | app/tags/page.tsx:56-62 | A tag's occurrence count is its number of appearances in array-valued rows, duplicates within one row included. Non-array rows add nothing. The excluded tag counts 0. |
| TagStats.ExcludedNeverCounted | app/tags/page.tsx:113-116 | The co-occurrence tally never contains the selected tag. |
| TagStats.TopByCount | app/tags/page.tsx:71-73 | Sort by count descending, then take `limit`. The result has length min(n, limit), is sorted, and is a sub-multiset of the input. Every tag left out has a count no greater than every tag kept. |
| TagStats.PopularIsSortedPrefix | app/tags/page.tsx:71-73 | The popular tags are a prefix of the sorted copy. |
| TagStats.InitialSelection | app/tags/page.tsx:76-78 | When no tag is selected (none, or the empty string, which is falsy) and there is at least one tag, the first sorted tag is selected. Otherwise the selection is unchanged. |
| TagStats.InitialSelectionIsMostPopular | app/tags/page.tsx:71-78 | The tag selected first is one of the tags and has the highest count. |
| TagStats.RelationsFor | app/tags/page.tsx:130-134 | One relation per related tag, in order: source is the selected tag, target is the tag's name, strength is count / number of articles. |
| TagStats.RelatedTagsFacts | app/tags/page.tsx:109-125 | The related tags number at most 15, are sorted by count, are drawn from the co-occurrence tally, and never include the selected tag. |
| TagStats.TagsPage.constructor | app/tags/page.tsx:31-37 | Initial page state: empty lists and no selection. |
| TagStats.TagsPage.FetchAllTags | app/tags/page.tsx:41-78 | On a query error nothing changes. Otherwise `allTags` is the tally in counting order, `popularTags` its top 20, and the selection follows the initial-selection rule. |
| TagStats.TagsPage.FetchTagRelations | app/tags/page.tsx:87-136 | An empty tag name or a query error changes nothing. An empty article list clears both lists. Otherwise the related tags are the top 15 of the tally that excludes the tag, and the relations are built from them. |
| FeedsPage.StagedFilters | app/feeds/page.tsx:94-119 | The three conditional passes equal one filter by the conjunction of the active conditions. |
| FeedsPage.FilteredFeedsFacts | app/feeds/page.tsx:94-119 | The filtered list is an order-preserving subsequence of the feeds. It keeps only feeds passing every active filter, and keeps every feed that does. |
| FeedsPage.DefaultFiltersKeepAll | app/feeds/page.tsx:98-117 | With an empty query, source `'all'` and status `'all'`, the result is the input. |
| FeedsPage.StatusFilterSelects | app/feeds/page.tsx:113-117 | `'active'` keeps exactly the enabled feeds and `'inactive'` exactly the disabled ones, in order. |
| FeedsPage.SourcesOf | app/feeds/page.tsx:84 | The i-th entry is the i-th feed's source. |
| FeedsPage.UniqueSourcesFacts | app/feeds/page.tsx:84 | The unique source list has no duplicates, contains every feed's source, and contains nothing else. |
| FeedsPage.Deselect | app/feeds/page.tsx:246 | Every occurrence of the id is removed, and every other id keeps its multiplicity. |
| FeedsPage.DeselectKeepsOrder | app/feeds/page.tsx:246 | The ids that remain keep their order. |
| FeedsPage.ToggleExpanded | app/feeds/page.tsx:260-266 | The result is null exactly when the id was expanded; otherwise the id becomes the expanded one. |
| FeedsPage.ToggleTwice | app/feeds/page.tsx:260-266 | Toggling twice restores the state exactly when nothing or that same id was expanded; starting from another expanded id, it ends collapsed. |
| FeedsPage.Ids | app/feeds/page.tsx:253 | `filteredFeeds.map(feed => feed.id)`, pointwise. |
| FeedsPage.BatchTargets | app/feeds/page.tsx:293-300 | No action without a selection or for an unconfirmed deletion. Otherwise the action goes to exactly the selected ids. |
| FeedsPage.FeedsPageState.constructor | app/feeds/page.tsx:33-52 | Initial state: empty lists, no expanded row, filters `''`/`'all'`/`'all'`. |
| FeedsPage.FeedsPageState.ApplyFilters | app/feeds/page.tsx:94-120 | The rebinding passes leave the displayed list equal to the filter by `Kept` of the given feeds. |
| FeedsPage.FeedsPageState.LoadFeeds | app/feeds/page.tsx:67-91 | On a query error nothing changes. Otherwise it stores the feeds, filters them, and sets the de-duplicated sources. |
| FeedsPage.FeedsPageState.SetSearchQuery | app/feeds/page.tsx:128-130 | Setting the query re-runs the filter effect, so the displayed list again matches the filters. |
| FeedsPage.FeedsPageState.SetSourceFilter | app/feeds/page.tsx:128-130 | Setting the source filter re-runs the filter effect. |
| FeedsPage.FeedsPageState.SetStatusFilter | app/feeds/page.tsx:128-130 | Setting the status filter re-runs the filter effect. |
| FeedsPage.FeedsPageState.ResetFilters | app/feeds/page.tsx:133-138 | Filters return to their defaults, the filter panel closes, and every feed is shown again. |
| FeedsPage.FeedsPageState.SelectFeed | app/feeds/page.tsx:242-248 | Checking appends the id, with no duplicate check. Unchecking removes every occurrence. |
| FeedsPage.FeedsPageState.SelectAll | app/feeds/page.tsx:251-257 | Select exactly the ids of the displayed feeds, or none. |
| FeedsPage.FeedsPageState.ToggleFeedDetails | app/feeds/page.tsx:260-266 | The expanded id becomes the toggle of the old one. |
| FeedsPage.FeedsPageState.BatchAction | app/feeds/page.tsx:293-332 | With an empty selection nothing changes. Otherwise the menu closes. An unconfirmed deletion stops there. Otherwise the selected ids are dispatched, and the selection is cleared on success. |
| FeedForm.InitialForm | components/FeedForm.tsx:28-36 | Name, url, source, category and description are `''`, `enabled` is true, and `crawl_frequency` is `'daily'`. |
| FeedForm.FromFeed | components/FeedForm.tsx:53-65 | Edit mode copies the feed's fields. A null category or description becomes `''`. |
| FeedForm.FormErrors | components/FeedForm.tsx:87-106 | Name and source errors appear exactly when the field is blank after trim. The url error appears exactly when the url is blank or invalid, with "required" for blank and "invalid format" otherwise, never both. No other keys. |
| FeedForm.ValidIff | components/FeedForm.tsx:87-106 | The error map is empty exactly when name, source and url are non-blank and the url parses. |
| FeedForm.InitialFormErrors | components/FeedForm.tsx:28-36 | An untouched form fails with exactly the three "required" messages. |
| FeedForm.ClearError | components/FeedForm.tsx:78-84 | A field's truthy error is removed; every other error is kept. |
| FeedForm.FeedFormState.constructor | components/FeedForm.tsx:28-38 | Starts from the initial record with no errors. |
| FeedForm.FeedFormState.Populate | components/FeedForm.tsx:53-65 | Loads the feed only when editing an existing feed; otherwise nothing changes. |
| FeedForm.FeedFormState.Change | components/FeedForm.tsx:67-85 | Writes a boolean for a checkbox and the text otherwise, to the named field only, and clears only that field's error. |
| FeedForm.FeedFormState.Validate | components/FeedForm.tsx:87-106 | Replaces the errors with the validation result and reports whether it is empty. |
| FeedForm.FeedFormState.Submit | components/FeedForm.tsx:117-123 | The form data is submitted exactly when validation leaves no error. |
| TagSearch.SearchResults | components/TagSearchInput.tsx:24-37 | A blank query gives no suggestions. Otherwise the list is sorted by count, at most 15 long, and drawn from `allTags`. |
| TagSearch.SuggestionsMatch | components/TagSearchInput.tsx:30-32 | Every suggestion's lower-cased name contains the lower-cased, untrimmed query. |
| TagSearch.SuggestionsAreMostPopular | components/TagSearchInput.tsx:31-34 | A matching tag is left out only when the list is full, and only in favour of tags with at least its count. |
| TagSearch.FewMatchesAllShown | components/TagSearchInput.tsx:31-34 | With at most 15 matches, every matching tag is suggested. |
| TagSearch.TagSearchInput.constructor | components/TagSearchInput.tsx:16-19 | Empty query, results hidden, no suggestions. |
| TagSearch.TagSearchInput.Refresh | components/TagSearchInput.tsx:24-37 | The effect leaves the suggestions equal to the search results for the current query and tags. |
| TagSearch.TagSearchInput.SetAllTags | components/TagSearchInput.tsx:37 | A new tag list re-runs the effect with the query unchanged. |
| TagSearch.TagSearchInput.TagClick | components/TagSearchInput.tsx:59-63 | Hands the clicked name to the parent, clears the query and hides the results. |
| TagSearch.TagSearchInput.Focus | components/TagSearchInput.tsx:66-70 | Shows the results when the query is non-blank; otherwise visibility is unchanged. |
| TagSearch.TagSearchInput.Change | components/TagSearchInput.tsx:73-77 | Stores the value. Results are shown exactly when it is non-blank. |
| TagSearch.TagSearchInput.ClearSearch | components/TagSearchInput.tsx:80-84 | Clears the query and hides the results. |
| TagGraph.BuildGraph | components/TagRelationshipGraph.tsx:56-118 | Empty relations draw nothing. Otherwise the links are the relations, and the nodes come from the map-filling loop plus the centre insert, in first-insertion order. |
| TagGraph.VisitLinks | components/TagRelationshipGraph.tsx:92-110 | After the loop, the map's key order is the de-duplicated source-then-target sequence, and every entry is grouped by the selected tag. |
| TagGraph.AddNode | components/TagRelationshipGraph.tsx:95-109 | `has`/`set` adds an id exactly when it is new, keeping map and order in step. |
| TagGraph.GraphNodesFacts | components/TagRelationshipGraph.tsx:92-118 | Node ids are distinct and cover every source and target and the selected tag, and nothing else. A node is in group 1 exactly when it is the selected tag. |
| TagGraph.OneCentralNode | components/TagRelationshipGraph.tsx:98-114 | Exactly one node is in group 1. |
| TagGraph.EndpointsMembers | components/TagRelationshipGraph.tsx:92-110 | An id is visited exactly when it is the source or target of some relation. |
| TagGraph.GroupOf | components/TagRelationshipGraph.tsx:98 | Group 1 exactly for the selected tag, 2 otherwise. |
| TagGraph.GraphOfRelationsFor | components/TagRelationshipGraph.tsx:92-118 | For the tag page's relations, the nodes are the selected tag followed by the related tags in order, each once. |
| TagGraph.ClickSelection | components/TagRelationshipGraph.tsx:187-192 | A click selects the node exactly when it is not the centre. |
| TagGraph.FindCenterRelation | components/TagRelationshipGraph.tsx:220-224 | The first relation from the selected tag to the node, or none when no relation matches. |
| TagGraph.StrengthLabel | components/TagRelationshipGraph.tsx:217-226 | The first matching relation's percentage, or `""` when none matches. |
| TagGraph.LabelOfRelationsFor | components/TagRelationshipGraph.tsx:220-225 | On the tag page's relations, a related tag's label is its own strength. |
| TagGraph.RoundedPercent | components/TagRelationshipGraph.tsx:225 | `Math.round(strength * 100)` on the exact ratio: the nearest whole percent, with halves rounded up. |
| TagGraph.PercentAtMostHundred | components/TagRelationshipGraph.tsx:225 | A strength of at most one never shows more than 100. |
| NewsList.FilterAndSort | app/page.tsx:48-76 | The result is a permutation of the items passing both filters. It is sorted newest-first for `'latest'` and most-viewed-first for `'popular'`, and is the filtered list in its own order for any other value. |
| NewsList.StagedNewsFilters | app/page.tsx:52-66 | The two conditional passes equal one filter by `Shown`. |
| NewsList.ShownItemsFacts | app/page.tsx:49-66 | Shown items pass both filters, every passing item is shown, and items come only from `news`. |
| NewsList.DefaultShowsAll | app/page.tsx:52-66 | Category `'all'` with an empty term shows every item. |
| NewsList.ViewsOrZero | app/page.tsx:72 | `views \|\| 0`. |
| NewsList.HomePage.constructor | app/page.tsx:12-17 | Empty lists, filter `'all'`, sort `'latest'`, empty term. The effect invariant `Valid` holds from the start. |
| NewsList.HomePage.Refresh | app/page.tsx:48-76 | The effect re-establishes `Valid`: the shown list is a permutation of the items passing both filters, sorted newest-first for `'latest'` and most-viewed-first for `'popular'`, and the filtered list in load order otherwise. |
| NewsList.HomePage.LoadNews | app/page.tsx:20-45 | A query error changes nothing. Otherwise the items are stored, and the effect that re-runs on them leaves the list filtered and ordered by the current sort. `Valid` holds afterwards in both cases. |
| NewsList.HomePage.SetControls | app/page.tsx:78-88 | The new controls are stored and the effect re-runs on the unchanged items. The list is then filtered by the new category and term and ordered by the new sort, and `Valid` holds. |
| RelatedArticles.RangeFor | components/TagRelatedArticles.tsx:54 | The inclusive range spans exactly `pageSize` rows and starts at or after row 0 for pages from 1. |
| RelatedArticles.RangesContiguous | components/TagRelatedArticles.tsx:54 | Each page's range starts right after the previous page's range. |
| RelatedArticles.RowOnOnePage | components/TagRelatedArticles.tsx:54 | Every row belongs to exactly one page. |
| RelatedArticles.PageCount | components/TagRelatedArticles.tsx:125 | `Math.ceil(total / pageSize)`: the least number of pages that holds all rows. |
| RelatedArticles.PaginationMeansTwoPages | components/TagRelatedArticles.tsx:111-125 | When the controls render there are at least two pages. |
| RelatedArticles.PrevPage | components/TagRelatedArticles.tsx:114 | `max(1, p - 1)`: never below 1, and one less for p > 1. |
| RelatedArticles.PrevDisabledIff | components/TagRelatedArticles.tsx:113-114 | From page 1 on, "previous" is disabled exactly when `Math.max(1, p - 1)` would keep the page. Otherwise it goes back one page. |
| RelatedArticles.NextDisabledIff | components/TagRelatedArticles.tsx:129 | "Next" is disabled exactly when page × pageSize ≥ total. |
| RelatedArticles.NextStaysInRange | components/TagRelatedArticles.tsx:128-129 | Pressing an enabled "next" from within the page count stays within it. |
| RelatedArticles.NewTotal | components/TagRelatedArticles.tsx:44-46 | The total becomes the count, or 0 when the count is null, and stays unchanged on a count error. |
| RelatedArticles.SimplifySource | components/TagRelatedArticles.tsx:74-85 | A source not starting with `http` is returned unchanged, and so is one whose URL does not parse. Otherwise the result is the host with its first `www.` removed. |
| RelatedArticles.SimplifyHost | components/TagRelatedArticles.tsx:79 | A host starting with `www.` loses exactly that prefix; a host without `www.` is kept. |
| RelatedArticles.RelatedArticlesPanel.constructor | components/TagRelatedArticles.tsx:25-30 | The page size is `limit`, defaulting to 5. The panel starts on page 1 with a total of 0. |
| RelatedArticles.RelatedArticlesPanel.Fetch | components/TagRelatedArticles.tsx:33-67 | An empty tag name fetches nothing. Otherwise the total is updated, the range for the current page is requested, and the rows are stored unless the page query fails. |
| RelatedArticles.RelatedArticlesPanel.Prev | components/TagRelatedArticles.tsx:113-114 | The page becomes `PrevPage` of itself and stays at least 1. Pressing it while disabled (page 1) leaves the page unchanged. |
| RelatedArticles.RelatedArticlesPanel.Next | components/TagRelatedArticles.tsx:128-129 | The page advances exactly when "next" is enabled. |
| Digest.ItemLine | lib/geminiClient.ts:76 | An item line starts with its 1-based number and ends with a newline. |
| Digest.ItemLines | lib/geminiClient.ts:75-77 | The k-th line is the line of the k-th item. |
| Digest.ItemsNumberedFromOne | lib/geminiClient.ts:75-77 | Line k starts with the numeral of k + 1, which reads back as k + 1. |
| Digest.ItemBlockLayout | lib/geminiClient.ts:75-77 | The `.join('\n')` block is empty without items. Otherwise it begins with item 1's line and ends with the last item's line, and each line is followed by a newline and the next item's line. |
| Digest.SummaryFallback | lib/geminiClient.ts:76 | The line holds `요약: ` followed by the summary when it is a non-empty string, and `요약: 요약 없음` otherwise. |
| Digest.SourceFallback | lib/geminiClient.ts:76 | The line holds `출처: ` followed by the source when it is a non-empty string, and `출처: 알 수 없음` otherwise. |
| Digest.PostProcess | lib/geminiClient.ts:98-127 | A reply with neither `<html` nor `<body` is wrapped. A reply starting with the `html` fence is stripped. Anything else is returned unchanged. |
| Digest.WrapHoldsText | lib/geminiClient.ts:102-116 | The wrapped page contains the reply verbatim. |
| Digest.WrapIsPage | lib/geminiClient.ts:102-116 | The wrapped page contains `<html` and begins with the template, not a fence. |
| Digest.PostProcessWrappedIsFixed | lib/geminiClient.ts:98-127 | Post-processing a wrapped page returns it unchanged. |
| Digest.FencedBareOutputIsWrapped | lib/geminiClient.ts:98-121 | A fenced reply without `<html`/`<body` is wrapped with its fence intact; the early return happens before stripping. |
| Digest.StripFence | lib/geminiClient.ts:121 | Stripping never lengthens the text. The four cases of the two anchored replaces are the lemmas StripFenceOfFenced, StripFenceOpeningOnly, StripFenceClosingOnly and StripFenceUnfenced. |
| Digest.StripFenceOfFenced | lib/geminiClient.ts:121 | The opening fence line followed by a body and a closing fence yields exactly the body. |
| Digest.StripFenceOpeningOnly | lib/geminiClient.ts:121 | Without a closing fence, only the opening fence line is removed. |
| Digest.StripFenceClosingOnly | lib/geminiClient.ts:120-121 | Without the exact opening fence line (as in a reply starting with the fence but no newline), only the closing fence is removed. |
| Digest.StripFenceUnfenced | lib/geminiClient.ts:121 | With neither fence in place, the text is returned as it is. |
| Digest.ErrorDivShowsMessage | lib/geminiClient.ts:129-135 | The error page contains the message when it is a non-empty string, and `알 수 없는 오류` otherwise. |
| Digest.GenerateDigest | lib/geminiClient.ts:98-135 | A reply is post-processed; a failure yields the error page. |
| TrendChart.FormatDate | components/TagTrendChart.tsx:19-28 | An empty input, or one without `-W`, is returned unchanged. |
| TrendChart.FormatWeekKey | components/TagTrendChart.tsx:23-24 | `Y-WN` formats as `Y년 N주` when neither part contains `-W`. |
| TrendChart.WeekKeySeparator | components/TagTrendChart.tsx:23 | In such a key, the first `-W` is the one between year and week. |
| TrendChart.ChartData | components/TagTrendChart.tsx:32-35 | The chart points are a permutation of the trends, sorted ascending by date string. |
| TrendChart.Render | components/TagTrendChart.tsx:38-46 | The "no data" branch is taken exactly when the trends are empty. Otherwise the chart gets the date-sorted permutation. |
| NewsCard.GetSourceColor | components/NewsCard.js:14-28 | A listed source gets its colour class. Any other source gets the default gray, with the lookup read as own keys only (see "## Left out"). |
| NewsCard.SourceColor | components/NewsCard.js:30 | A missing or empty source uses the default colour. |
| NewsCard.ListedSourcesHaveOwnColor | components/NewsCard.js:15-27 | Each table entry maps to its own class, and only `default` maps to gray. |
| NewsCard.ColorFromTable | components/NewsCard.js:27-30 | With the lookup read as own keys only, the colour is always one of the table's classes. |
| NewsCard.RenderCard | components/NewsCard.js:9-77 | An image is drawn exactly when `image_url` is truthy, with alt `title \|\| '뉴스 이미지'`. The heading is `title \|\| '제목 없음'`. The date is `'날짜 없음'` when `published_at` is missing. The badge and summary appear exactly when truthy, and the summary paragraph shows `article.summary` itself. |
| Sorting.SortBy | app/tags/page.tsx:71 | `sort` with a comparator: sorted, and a permutation of its input. |
| Seqs.FilterIsSubsequence | app/feeds/page.tsx:100-116 | `filter` keeps an order-preserving subsequence. |
| Seqs.FilterMembers | app/feeds/page.tsx:100-116 | `filter` keeps exactly the elements that pass the predicate. |
| Seqs.FilterCountOf | app/feeds/page.tsx:100-116 | `filter` keeps every copy of a passing element and no copy of a failing one. |
| Seqs.DedupFacts | app/feeds/page.tsx:84 | `[...new Set(xs)]` has no repeats and holds exactly the values of `xs`. |
| Text.Split | components/TagTrendChart.tsx:23 | No part contains the separator. There are at least two parts exactly when the separator occurs. |
| Text.JoinSplit | components/TagTrendChart.tsx:23 | Joining the parts of a split gives back the string. |
| Text.Trim | components/TagSearchInput.tsx:25 | `trim()` is empty exactly when the string is all whitespace. |
| Text.TrimStrips | components/TagSearchInput.tsx:25 | `trim()` is the string with its leading and trailing whitespace removed. The result is an infix between two all-whitespace runs and neither starts nor ends with whitespace. |
| Text.IndexOf | components/TagRelatedArticles.tsx:79 | The first occurrence of a pattern, or none when it does not occur. |
| Text.JoinAdjacent | lib/geminiClient.ts:77 | In a `join`, each part is followed by the separator and the next part. |
| Text.ReplaceFirst | components/TagRelatedArticles.tsx:79 | `replace` with a string pattern rewrites only the first occurrence. |

## Left out

- The feed crawl route (`/api/feeds/<id>/crawl`) and the daily-news API route: the model stops at the ids it hands to the crawl route.
- All store queries, inserts, updates and deletes: their results are inputs, and a query error is `None`.
- The language-model call and the fixed instruction text of the prompt: the reply is an input string. Only the item lines of the prompt are modelled.
- Calendar and locale formatting (`toLocaleDateString`, `Intl.DateTimeFormat`, date-fns, week numbers): formatted dates are inputs, and `published_at` in the "latest" sort is an integer timestamp.
- The URL constructor: in the feed form it is a predicate parameter, and in `simplifySource` the parsed host name is an `Option` parameter.
- `toLowerCase` is modelled as ASCII case folding, and `localeCompare` as code-point lexicographic order.
- `trim` uses the ECMAScript white-space and line-terminator set, with no Unicode normalisation.
- Floating point: strength is an exact count/articles ratio, and the percentage label rounds that ratio exactly. Link distance, link force, tick clamping and the d3 and recharts rendering are not modelled.
- TagStats.CountTags: JavaScript enumerates integer-like object keys first; the model keeps plain insertion order for every key.
- TagStats.CountTags: prototype-inherited keys such as `constructor`, which make `tagCounts[tag] || 0` misbehave, are not modelled.
- NewsCard.GetSourceColor: the colour table is looked up by own keys only. For a source named after an inherited `Object.prototype` member (`constructor`, `toString`, `__proto__`, ...), `colors[source] || colors.default` yields that truthy member rather than the default class. The model returns the default gray there.
- NewsCard.ColorFromTable: holds only under the same own-key reading; in the source, an inherited-member source yields a colour outside the table.
- Sorting.SortBy: stands in for the engine's sort and is specified as sorted plus a permutation. The tie order (stability) is not claimed.
- NewsList.FilterAndSort: the source sorts its copy in place; the model sorts the copy as a value.
- TrendChart.ChartData: the source sorts a spread copy in place; the model sorts it as a value.
- FeedForm.Filled: a non-string value under a text key (where `?.trim` would throw) is treated as blank.
- RelatedArticles.PageCount: requires a positive page size, since `Math.ceil(total / 0)` is not a number. `NextDisabled` handles a zero page size the way the comparison with `NaN`/`Infinity` does.
- FeedsPage.FeedsPageState.BatchAction: `confirm` and the store's success are parameters. The refetch after a batch action is not modelled.
- Window resize listeners, outside-click detection, focus handling, `alert`, loading flags and rendering-only components are not modelled.
