/** The deterministic parts of the news-digest generator: the numbered item lines placed
    in the prompt, the post-processing of the model's reply (wrap bare output in a page
    template, strip an `html` code fence, or keep the reply), and the error fallback. */
module Digest {
  import opened Optional
  import opened Text

  /** The fields of a news item the prompt uses. `dateText` is the item's publication date
      already rendered by the locale formatter. */
  datatype PromptItem = PromptItem(title: string, summary: Option<string>, url: string,
                                   source: Option<string>, dateText: string)

  /** The prompt line for the item at zero-based position `index`. */
  function ItemLine(index: nat, item: PromptItem): (r: string)
    ensures StartsWith(r, NatToString(index + 1) + ". ")
    ensures EndsWith(r, "\n")
  {
    var number := NatToString(index + 1) + ". ";
    var front := TitleField(item) + SummaryField(item) + UrlField(item) + SourceField(item);
    StartsWithAppend(number, front + DateField(item));
    EndsWithAppend("\n   발행일: " + item.dateText, "\n");
    EndsWithExtend(front, DateField(item), "\n");
    EndsWithExtend(number, front + DateField(item), "\n");
    number + (front + DateField(item))
  }

  function TitleField(item: PromptItem): string {
    "제목: " + item.title + "\n   "
  }

  const SummaryLabel: string := "요약: "
  const NoSummary: string := "요약 없음"

  function SummaryField(item: PromptItem): string {
    SummaryLabel + OrElse(item.summary, NoSummary)
  }

  function UrlField(item: PromptItem): string {
    "\n   URL: " + item.url + "\n   "
  }

  const SourceLabel: string := "출처: "
  const UnknownSource: string := "알 수 없음"

  function SourceField(item: PromptItem): string {
    SourceLabel + OrElse(item.source, UnknownSource)
  }

  function DateField(item: PromptItem): string {
    "\n   발행일: " + item.dateText + "\n"
  }

  /** `newsItems.map((item, index) => ...)`. */
  function ItemLines(items: seq<PromptItem>): (r: seq<string>)
    ensures |r| == |items|
    ensures forall k :: 0 <= k < |r| ==> r[k] == ItemLine(k, items[k])
  {
    if items == [] then []
    else ItemLines(items[..|items| - 1]) + [ItemLine(|items| - 1, items[|items| - 1])]
  }

  /** The item block of the prompt: the item lines joined by newlines. */
  function ItemBlock(items: seq<PromptItem>): string {
    Join("\n", ItemLines(items))
  }

  /** The block is empty without items; otherwise it begins with item 1's line, ends with the
      last item's line, and each line is followed by a newline and the next item's line. */
  lemma ItemBlockLayout(items: seq<PromptItem>)
    ensures items == [] ==> ItemBlock(items) == ""
    ensures items != [] ==> StartsWith(ItemBlock(items), ItemLine(0, items[0]))
    ensures items != [] ==> EndsWith(ItemBlock(items), ItemLine(|items| - 1, items[|items| - 1]))
    ensures forall k :: 0 <= k < |items| - 1 ==>
      Contains(ItemBlock(items), ItemLine(k, items[k]) + "\n" + ItemLine(k + 1, items[k + 1]))
  {
    var lines := ItemLines(items);
    if items != [] {
      JoinStartsWithFirst("\n", lines);
      JoinEndsWithLast("\n", lines);
    }
    forall k | 0 <= k < |items| - 1
      ensures Contains(ItemBlock(items), ItemLine(k, items[k]) + "\n" + ItemLine(k + 1, items[k + 1]))
    {
      JoinAdjacent("\n", lines, k);
    }
  }

  /** Items are numbered from 1 in list order: the k-th line begins with the decimal
      numeral of k + 1, which reads back as k + 1. */
  lemma ItemsNumberedFromOne(items: seq<PromptItem>, k: nat)
    requires k < |items|
    ensures var line := ItemLines(items)[k];
      var numeral := NatToString(k + 1);
      StartsWith(line, numeral + ". ") && DecimalValue(numeral) == k + 1
  {
    DecimalRoundTrip(k + 1);
  }

  /** A missing or empty summary is shown as `요약 없음`. */
  lemma SummaryFallback(index: nat, item: PromptItem)
    ensures Truthy(item.summary) ==> Contains(ItemLine(index, item), SummaryLabel + item.summary.value)
    ensures !Truthy(item.summary) ==> Contains(ItemLine(index, item), SummaryLabel + NoSummary)
  {
    var number := NatToString(index + 1) + ". ";
    var s := SummaryField(item);
    var ts := TitleField(item) + s;
    ContainsEnd(TitleField(item), s);
    ContainsInConcat(ts, UrlField(item), s);
    ContainsInConcat(ts + UrlField(item), SourceField(item), s);
    ContainsInConcat(ts + UrlField(item) + SourceField(item), DateField(item), s);
    ContainsInConcat(number, ts + UrlField(item) + SourceField(item) + DateField(item), s);
  }

  /** A missing or empty source is shown as `알 수 없음`. */
  lemma SourceFallback(index: nat, item: PromptItem)
    ensures Truthy(item.source) ==> Contains(ItemLine(index, item), SourceLabel + item.source.value)
    ensures !Truthy(item.source) ==> Contains(ItemLine(index, item), SourceLabel + UnknownSource)
  {
    var number := NatToString(index + 1) + ". ";
    var s := SourceField(item);
    var front := TitleField(item) + SummaryField(item) + UrlField(item);
    ContainsEnd(front, s);
    ContainsInConcat(front + s, DateField(item), s);
    ContainsInConcat(number, front + s + DateField(item), s);
  }

  /** The fixed page template, split around the points that vary. */
  const TemplateStart: string := "\n  <!DOCTYPE html>\n  "
  const HtmlOpen: string := "<html"
  const HeadStart: string := " lang=\"ko\">\n  <head>\n    <meta charset=\"UTF-8\">\n    <meta name=\"viewport\" content=\"width=device-width, initial-scale=1.0\">\n    <title>"
  const HeadEnd: string := "의 뉴스 다이제스트</title>\n    <script src=\"https://cdn.tailwindcss.com\"></script>\n  </head>\n  <body class=\"bg-gray-50 min-h-screen\">\n    <div class=\"container mx-auto px-4 py-8\">\n      "
  const TemplateEnd: string := "\n    </div>\n  </body>\n  </html>"

  /** The title date: the date string, or `오늘` when it is missing or empty. */
  function TitleDate(dateString: Option<string>): string {
    OrElse(dateString, "오늘")
  }

  /** Everything of the template after `<html` and before the embedded text. */
  function AfterHtmlOpen(dateString: Option<string>): string {
    HeadStart + TitleDate(dateString) + HeadEnd
  }

  /** Everything of the template before the embedded text. */
  function PageHead(dateString: Option<string>): string {
    TemplateStart + HtmlOpen + AfterHtmlOpen(dateString)
  }

  /** Bare output embedded in the page template. */
  function Wrap(text: string, dateString: Option<string>): string {
    PageHead(dateString) + text + TemplateEnd
  }

  /** `text.replace(/^```html\n/, '').replace(/```$/, '')`: an exact leading fence line and
      then a closing fence at the very end are removed, each only if present. */
  function StripFence(text: string): (r: string)
    ensures |r| <= |text|
  {
    var t := if StartsWith(text, "```html\n") then text[8..] else text;
    if EndsWith(t, "```") then t[..|t| - 3] else t
  }

  /** The post-processing of the reply text. */
  function PostProcess(text: string, dateString: Option<string>): (r: string)
    ensures !Contains(text, "<html") && !Contains(text, "<body") ==> r == Wrap(text, dateString)
    ensures (Contains(text, "<html") || Contains(text, "<body")) && StartsWith(text, "```html") ==> r == StripFence(text)
    ensures (Contains(text, "<html") || Contains(text, "<body")) && !StartsWith(text, "```html") ==> r == text
  {
    if !Contains(text, "<html") && !Contains(text, "<body") then Wrap(text, dateString)
    else if StartsWith(text, "```html") then StripFence(text)
    else text
  }

  /** The wrapped page holds the reply verbatim. */
  lemma WrapHoldsText(text: string, dateString: Option<string>)
    ensures Contains(Wrap(text, dateString), text)
  {
    ContainsEnd(PageHead(dateString), text);
    ContainsInConcat(PageHead(dateString) + text, TemplateEnd, text);
  }

  /** The wrapped page contains `<html` and opens with a newline, not a fence. */
  lemma WrapIsPage(text: string, dateString: Option<string>)
    ensures Contains(Wrap(text, dateString), "<html")
    ensures StartsWith(Wrap(text, dateString), TemplateStart)
    ensures !StartsWith(Wrap(text, dateString), "```html")
  {
    var head := PageHead(dateString);
    ContainsEnd(TemplateStart, HtmlOpen);
    ContainsInConcat(TemplateStart + HtmlOpen, AfterHtmlOpen(dateString), HtmlOpen);
    ContainsInConcat(head, text, HtmlOpen);
    ContainsInConcat(head + text, TemplateEnd, HtmlOpen);
    StartsWithAppend(TemplateStart, HtmlOpen);
    StartsWithExtend(TemplateStart + HtmlOpen, AfterHtmlOpen(dateString), TemplateStart);
    StartsWithExtend(head, text, TemplateStart);
    StartsWithExtend(head + text, TemplateEnd, TemplateStart);
    StartsWithFirstChar(Wrap(text, dateString), TemplateStart, "```html");
  }

  /** Post-processing a wrapped page changes nothing: the wrap is never applied twice and a
      wrapped reply is never fence-stripped. */
  lemma PostProcessWrappedIsFixed(text: string, dateString: Option<string>, otherDate: Option<string>)
    ensures PostProcess(Wrap(text, dateString), otherDate) == Wrap(text, dateString)
  {
    WrapIsPage(text, dateString);
  }

  /** A fenced reply without `<html` or `<body` is wrapped with its fence still in place. */
  lemma FencedBareOutputIsWrapped(body: string, dateString: Option<string>)
    requires !Contains("```html\n" + body, "<html") && !Contains("```html\n" + body, "<body")
    ensures PostProcess("```html\n" + body, dateString) == Wrap("```html\n" + body, dateString)
  {
  }

  /** A fenced page loses exactly its opening fence line and closing fence. */
  lemma StripFenceOfFenced(body: string)
    ensures StripFence("```html\n" + body + "```") == body
  {
    var text := "```html\n" + body + "```";
    assert text[..8] == "```html\n";
    assert text[8..] == body + "```";
    var t := body + "```";
    assert t[|t| - 3..] == "```";
    assert t[..|t| - 3] == body;
  }

  /** Without a trailing fence only the opening fence line goes. */
  lemma StripFenceOpeningOnly(body: string)
    requires !EndsWith(body, "```")
    ensures StripFence("```html\n" + body) == body
  {
    var text := "```html\n" + body;
    assert text[..8] == "```html\n";
    assert text[8..] == body;
  }

  /** Without the exact opening fence line only the closing fence goes; so a reply such as
      "```html<html>...```", which starts with "```html" but not with its newline, keeps its
      opening fence after post-processing. */
  lemma StripFenceClosingOnly(body: string)
    requires !StartsWith(body, "```html\n")
    ensures StripFence(body + "```") == body
  {
    var text := body + "```";
    if |body| >= 8 {
      assert text[..8] == body[..8];
    } else if |text| >= 8 {
      assert text[..8][7] == text[7] == "```"[7 - |body|];
    }
    assert text[|text| - 3..] == "```";
    assert text[..|text| - 3] == body;
  }

  /** With neither fence in place the text is returned as it is. */
  lemma StripFenceUnfenced(text: string)
    requires !StartsWith(text, "```html\n") && !EndsWith(text, "```")
    ensures StripFence(text) == text
  {
  }

  /** The error fallback page. */
  const ErrorHead: string := "<div class=\"p-4 bg-red-100 text-red-800 rounded\">\n        <h2 class=\"font-bold mb-2\">뉴스 다이제스트 생성 중 오류가 발생했습니다</h2>\n        <p class=\"text-sm\">오류 메시지: "
  const UnknownError: string := "알 수 없는 오류"
  const ErrorTail: string := "</p>\n      </div>"

  function ErrorDiv(message: Option<string>): string {
    ErrorHead + OrElse(message, UnknownError) + ErrorTail
  }

  /** The error page shows the message, or `알 수 없는 오류` when there is none. */
  lemma ErrorDivShowsMessage(message: Option<string>)
    ensures Truthy(message) ==> Contains(ErrorDiv(message), message.value)
    ensures !Truthy(message) ==> Contains(ErrorDiv(message), UnknownError)
  {
    var m := OrElse(message, UnknownError);
    ContainsEnd(ErrorHead, m);
    ContainsInConcat(ErrorHead + m, ErrorTail, m);
  }

  /** How the model call ended: a reply text, or a thrown error with its message. */
  datatype Outcome = Reply(text: string) | Failed(message: Option<string>)

  /** `generateNewsDigest` once the model has answered or failed. */
  function GenerateDigest(outcome: Outcome, dateString: Option<string>): (r: string)
    ensures outcome.Reply? ==> r == PostProcess(outcome.text, dateString)
    ensures outcome.Failed? ==> r == ErrorDiv(outcome.message)
  {
    match outcome
    case Reply(text) => PostProcess(text, dateString)
    case Failed(message) => ErrorDiv(message)
  }
}
