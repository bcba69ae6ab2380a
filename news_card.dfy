/** The news card's lookups: the badge colour for a source, and the fallbacks shown for a
    missing date, title or image. */
module NewsCard {
  import opened Optional
  import opened Text

  /** The colour classes by source name. */
  const Colors: map<string, string> := map[
    "경향신문" := "bg-red-100 text-red-800",
    "국민일보" := "bg-blue-100 text-blue-800",
    "동아일보" := "bg-yellow-100 text-yellow-800",
    "매일경제" := "bg-green-100 text-green-800",
    "서울신문" := "bg-purple-100 text-purple-800",
    "조선일보" := "bg-indigo-100 text-indigo-800",
    "중앙일보" := "bg-pink-100 text-pink-800",
    "한겨레" := "bg-cyan-100 text-cyan-800",
    "default" := "bg-gray-100 text-gray-800"]

  const DefaultColor: string := "bg-gray-100 text-gray-800"

  /** `getSourceColor(source)`: `colors[source] || colors.default`. */
  function GetSourceColor(source: string): (r: string)
    ensures source in Colors && Colors[source] != "" ==> r == Colors[source]
    ensures source !in Colors ==> r == DefaultColor
  {
    if source in Colors && Colors[source] != "" then Colors[source] else Colors["default"]
  }

  /** The badge colour: a missing or empty source uses the default entry. */
  function SourceColor(source: Option<string>): (r: string)
    ensures Truthy(source) ==> r == GetSourceColor(source.value)
    ensures !Truthy(source) ==> r == DefaultColor
  {
    if Truthy(source) then GetSourceColor(source.value) else GetSourceColor("default")
  }

  /** Every listed newspaper gets its own colour class, and only `default` shares the gray one. */
  lemma ListedSourcesHaveOwnColor(source: string)
    requires source in Colors
    ensures GetSourceColor(source) == Colors[source]
    ensures GetSourceColor(source) == DefaultColor <==> source == "default"
  {
  }

  /** The colour is always one of the table's classes. */
  lemma ColorFromTable(source: Option<string>)
    ensures SourceColor(source) in Colors.Values
  {
    if Truthy(source) && source.value in Colors {
      assert Colors[source.value] in Colors.Values;
    } else {
      assert Colors["default"] in Colors.Values;
    }
  }

  /** The fields of an article the card reads. `formattedDate` is the date-fns rendering of
      `published_at`, given as input. */
  datatype CardArticle = CardArticle(publishedAt: Option<string>, title: Option<string>,
                                     source: Option<string>, imageUrl: Option<string>,
                                     summary: Option<string>)

  /** What the card shows. `image` holds the alt text when an image is drawn; `badge` the
      source and its colour when a source badge is drawn. */
  datatype CardView = CardView(image: Option<string>, badge: Option<(string, string)>,
                               heading: string, date: string, summary: Option<string>)

  function RenderCard(a: CardArticle, formattedDate: string): (v: CardView)
    ensures v.image.Some? <==> Truthy(a.imageUrl)
    ensures v.image.Some? ==> v.image.value == OrElse(a.title, "뉴스 이미지")
    ensures v.badge.Some? <==> Truthy(a.source)
    ensures v.badge.Some? ==> v.badge.value == (a.source.value, GetSourceColor(a.source.value))
    ensures v.heading == OrElse(a.title, "제목 없음")
    ensures v.date == if Truthy(a.publishedAt) then formattedDate else "날짜 없음"
    ensures v.summary.Some? <==> Truthy(a.summary)
    ensures v.summary.Some? ==> v.summary.value == a.summary.value
  {
    CardView(
      if Truthy(a.imageUrl) then Some(OrElse(a.title, "뉴스 이미지")) else None,
      if Truthy(a.source) then Some((a.source.value, SourceColor(a.source))) else None,
      OrElse(a.title, "제목 없음"),
      if Truthy(a.publishedAt) then formattedDate else "날짜 없음",
      if Truthy(a.summary) then a.summary else None)
  }
}
