/**
 * The values behind the home page's crawl flow: how a crawl response's
 * missing fields are defaulted, the callback that the reveal interval runs
 * on every tick, and the status label derived from the page state.
 */
module CrawlReveal {
  import opened Fetch
  import JsText

  /** The body of a successful crawl response; each field may be missing. */
  datatype CrawlBody = CrawlBody(summary: Option<string>, urls: Option<seq<string>>, urlsCrawled: Option<int>)

  const NoSummaryText: string := "No summary available"
  const FetchErrorText: string := "Error: Failed to fetch crawl data. Please try again."
  const MissingInputText: string := "Please enter both keyword and domain"

  /** `data.summary || 'No summary available'`: the text to reveal, never empty. */
  function FullText(body: CrawlBody): (t: string)
    ensures t != ""
    ensures body.summary.Some? && body.summary.value != "" ==> t == body.summary.value
    ensures body.summary.None? || body.summary.value == "" ==> t == NoSummaryText
  {
    JsText.StringOr(body.summary, NoSummaryText)
  }

  /** `data.urls || []`. */
  function CrawledUrls(body: CrawlBody): (urls: seq<string>)
    ensures body.urls.Some? ==> urls == body.urls.value
    ensures body.urls.None? ==> urls == []
  {
    body.urls.GetOr([])
  }

  /** `data.urls_crawled || 0`: a missing count reads as zero. */
  function UrlsCount(body: CrawlBody): (n: int)
    ensures body.urlsCrawled.Some? ==> n == body.urlsCrawled.value
    ensures body.urlsCrawled.None? ==> n == 0
  {
    body.urlsCrawled.GetOr(0)
  }

  /**
   * What one reveal touches: the text it closes over, its cursor `index`,
   * whether its interval is still set, and the two page fields it writes.
   */
  datatype Reveal = Reveal(fullText: string, index: nat, running: bool, streamed: string, response: string)

  /** A reveal as the crawl continuation starts it, over whatever the page shows. */
  function Start(fullText: string, streamed: string, response: string): Reveal {
    Reveal(fullText, 0, true, streamed, response)
  }

  /**
   * One run of the interval callback: while text remains, show one more
   * character; then clear the interval and commit the full text; once
   * cleared, nothing.
   */
  function Step(r: Reveal): (s: Reveal)
    ensures s.fullText == r.fullText
    ensures !r.running ==> s == r
    ensures r.running && r.index < |r.fullText| ==>
      s.running && s.index == r.index + 1 && s.streamed == r.fullText[..s.index] && s.response == r.response
    ensures r.running && r.index >= |r.fullText| ==>
      !s.running && s.index == r.index && s.streamed == r.streamed && s.response == r.fullText
  {
    if !r.running then r
    else if r.index < |r.fullText| then r.(streamed := r.fullText[..r.index + 1], index := r.index + 1)
    else r.(running := false, response := r.fullText)
  }

  /** The reveal after `n` ticks. */
  function Ticks(r: Reveal, n: nat): Reveal {
    if n == 0 then r else Step(Ticks(r, n - 1))
  }

  function Min(a: int, b: int): int {
    if a <= b then a else b
  }

  /**
   * After `n` ticks from the start: the cursor is at `min(n, |fullText|)`,
   * the page shows that prefix of the text (from the first tick on, when
   * there is text), the interval is cleared exactly after tick
   * `|fullText| + 1`, and only then is the response committed.
   */
  lemma {:induction false} TicksFromStart(fullText: string, streamed: string, response: string, n: nat)
    ensures
      var r := Ticks(Start(fullText, streamed, response), n);
      && r.fullText == fullText
      && r.index == Min(n, |fullText|)
      && r.running == (n <= |fullText|)
      && (1 <= n && fullText != "" ==> r.streamed == fullText[..Min(n, |fullText|)])
      && (n == 0 || fullText == "" ==> r.streamed == streamed)
      && r.response == (if n > |fullText| then fullText else response)
  {
    if n > 0 {
      TicksFromStart(fullText, streamed, response, n - 1);
    }
  }

  /**
   * The shown text only grows: from the first tick on, the text shown after
   * `m` ticks is a prefix of the text shown after any later tick, and both
   * are prefixes of the full text.
   */
  lemma StreamedMonotone(fullText: string, streamed: string, response: string, m: nat, n: nat)
    requires 1 <= m <= n
    ensures
      var before := Ticks(Start(fullText, streamed, response), m);
      var after := Ticks(Start(fullText, streamed, response), n);
      before.streamed <= after.streamed && (fullText != "" ==> after.streamed <= fullText)
  {
    TicksFromStart(fullText, streamed, response, m);
    TicksFromStart(fullText, streamed, response, n);
  }

  /**
   * A reveal of a non-empty text ends, after `|fullText| + 1` ticks, with
   * both page fields equal to the text and the interval cleared, and no
   * later tick changes anything.
   */
  lemma RevealCompletes(fullText: string, streamed: string, response: string, extra: nat)
    requires fullText != ""
    ensures
      var done := Ticks(Start(fullText, streamed, response), |fullText| + 1);
      && done.streamed == fullText && done.response == fullText && !done.running
      && Ticks(done, extra) == done
  {
    TicksFromStart(fullText, streamed, response, |fullText| + 1);
    var done := Ticks(Start(fullText, streamed, response), |fullText| + 1);
    StoppedStaysStopped(done, extra);
  }

  /** A cleared interval never writes again. */
  lemma {:induction false} StoppedStaysStopped(r: Reveal, n: nat)
    requires !r.running
    ensures Ticks(r, n) == r
  {
    if n > 0 {
      StoppedStaysStopped(r, n - 1);
    }
  }

  /** The label next to "Status" on the home page. */
  datatype Status = Processing | Completed | Waiting

  /**
   * "Processing" exactly while loading; otherwise "Completed" exactly when
   * either the shown text or the response is non-empty; otherwise "Waiting".
   */
  function StatusLabel(isLoading: bool, streamedText: string, response: string): (s: Status)
    ensures s == Processing <==> isLoading
    ensures s == Completed <==> !isLoading && (streamedText != "" || response != "")
    ensures s == Waiting <==> !isLoading && streamedText == "" && response == ""
  {
    if isLoading then Processing
    else if streamedText != "" || response != "" then Completed
    else Waiting
  }

  /**
   * The worked example: summary "Hello" with two URLs crawled, revealed
   * from a reset page, ends with "Hello" shown and committed and a count of 2.
   */
  lemma HelloExample()
    ensures
      var body := CrawlBody(Some("Hello"), Some(["a", "b"]), Some(2));
      var done := Ticks(Start(FullText(body), "", ""), 6);
      && done.streamed == "Hello" && done.response == "Hello" && !done.running
      && CrawledUrls(body) == ["a", "b"] && UrlsCount(body) == 2
  {
  }
}
