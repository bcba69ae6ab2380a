/** The tag trend chart's data side: the week-key label and the date ordering of the points. */
module TrendChart {
  import opened Optional
  import opened Sorting
  import opened Text

  /** `{ date, tag, count }`: one point of a tag's weekly trend. */
  datatype TagTrend = TagTrend(date: string, tag: string, count: int)

  /** `formatDate`: a `YYYY-WNN` key becomes `YYYY년 NN주`; anything without `-W` is kept. */
  function FormatDate(dateStr: string): (r: string)
    ensures dateStr == "" || !Contains(dateStr, "-W") ==> r == dateStr
  {
    if dateStr == "" || !Contains(dateStr, "-W") then dateStr
    else
      var parts := Split(dateStr, "-W");
      parts[0] + "년 " + parts[1] + "주"
  }

  /** In `year + "-W" + week`, with neither part containing `-W`, the first `-W` is the one
      between them. */
  lemma WeekKeySeparator(year: string, week: string)
    requires !Contains(year, "-W")
    ensures IndexOf(year + "-W" + week, "-W") == Some(|year|)
  {
    var s := year + "-W" + week;
    assert OccursAt(s, "-W", |year|) by {
      assert s[|year|..|year| + 2] == "-W";
    }
    forall k | 0 <= k < |year| ensures !OccursAt(s, "-W", k) {
      if k + 2 <= |year| {
        assert s[k..k + 2] == year[k..k + 2];
        if OccursAt(year, "-W", k) {
          ContainsAt(year, "-W", k);
        }
      } else {
        assert s[k + 1] == '-';
      }
    }
  }

  /** The week key of a year and a week number formats as `<year>년 <week>주`. */
  lemma FormatWeekKey(year: string, week: string)
    requires !Contains(year, "-W") && !Contains(week, "-W")
    ensures FormatDate(year + "-W" + week) == year + "년 " + week + "주"
  {
    var s := year + "-W" + week;
    WeekKeySeparator(year, week);
    ContainsAt(s, "-W", |year|);
    assert s[..|year|] == year;
    assert s[|year| + 2..] == week;
    assert Split(s, "-W") == [year] + Split(week, "-W");
    assert Split(week, "-W") == [week];
  }

  /** The comparator `a.date.localeCompare(b.date)`, with code-point order in place of the
      locale collation. */
  predicate ByDate(a: TagTrend, b: TagTrend) {
    LexLe(a.date, b.date)
  }

  lemma ByDateIsTotalPreorder()
    ensures TotalPreorder(ByDate)
  {
    forall a: TagTrend, b: TagTrend ensures ByDate(a, b) || ByDate(b, a) {
      LexTotal(a.date, b.date);
    }
    forall a: TagTrend, b: TagTrend, c: TagTrend | ByDate(a, b) && ByDate(b, c) ensures ByDate(a, c) {
      LexTransitive(a.date, b.date, c.date);
    }
  }

  /** `[...trends].sort(...)`: a copy of the points in date order. */
  function ChartData(trends: seq<TagTrend>): (r: seq<TagTrend>)
    ensures SortedBy(r, ByDate)
    ensures multiset(r) == multiset(trends)
  {
    ByDateIsTotalPreorder();
    SortBy(trends, ByDate)
  }

  /** The chart body: a "no data" message for an empty trend list, otherwise the chart. */
  datatype ChartView = NoData(tagName: string) | Chart(points: seq<TagTrend>)

  function Render(trends: seq<TagTrend>, tagName: string): (v: ChartView)
    ensures v.NoData? <==> trends == []
    ensures v.Chart? ==> SortedBy(v.points, ByDate) && multiset(v.points) == multiset(trends)
  {
    if |trends| == 0 then NoData(tagName) else Chart(ChartData(trends))
  }
}
