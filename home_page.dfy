/**
 * The home page component: the crawl form, the crawl request, and the
 * simulated streaming of the returned summary. `handleCrawl` is split at
 * its `await`: `BeginCrawl` is the guard, the reset and the request;
 * `ReceiveCrawl` the continuation when the request settles; `Tick` one run
 * of the interval callback, and `RunReveal` the interval firing until it
 * clears itself. `HandleCrawl` runs them back to back.
 *
 * The result of the `fetch` is a parameter; timer delays are not modelled,
 * only the order of the ticks.
 */
module HomePage {
  import opened Fetch
  import opened CrawlReveal
  import JsText

  /** A request issued to `/api/crawl`. */
  datatype CrawlRequest = CrawlRequest(keyword: string, domain: string)

  /** The form is not filled in: the keyword or the domain is empty or all whitespace. */
  predicate MissingInput(keyword: string, domain: string) {
    JsText.IsBlank(keyword) || JsText.IsBlank(domain)
  }

  /** `MissingInput` is the page's own test, `!keyword.trim() || !domain.trim()`. */
  lemma MissingInputIsTrimTest(keyword: string, domain: string)
    ensures MissingInput(keyword, domain) <==> JsText.Trim(keyword) == "" || JsText.Trim(domain) == ""
  {
  }

  /** Ticks until a reveal clears its interval: one per character left, and the final one. */
  function TicksToFinish(r: Reveal): (n: nat)
    ensures r.running <==> n > 0
    ensures Ticks(r, n).running == false
  {
    if !r.running then 0
    else if r.index < |r.fullText| then
      var n := |r.fullText| - r.index + 1;
      RunningTicks(r, n - 1);
      n
    else 1
  }

  /** From a running reveal with cursor `index`, the `k` ticks up to the end of the text keep it running and move the cursor by `k`. */
  lemma {:induction false} RunningTicks(r: Reveal, k: nat)
    requires r.running && r.index + k <= |r.fullText|
    ensures Ticks(r, k) == r.(index := r.index + k, streamed := if k == 0 then r.streamed else r.fullText[..r.index + k])
  {
    if k > 0 {
      RunningTicks(r, k - 1);
    }
  }

  /** A running reveal's ticks to finish drop by one with each tick. */
  lemma TicksToFinishStep(r: Reveal)
    requires r.running
    ensures TicksToFinish(Step(r)) == TicksToFinish(r) - 1
  {
  }

  class Home {
    var keyword: string
    var domain: string
    var currentKeyword: string
    var currentDomain: string
    var isLoading: bool
    var response: string
    var streamedText: string
    var hasSearched: bool
    var crawledUrls: seq<string>
    var urlsCount: int
    var showNotification: bool
    var notificationMessage: string
    /** Requests issued to the crawl backend, in order. */
    var crawlRequests: seq<CrawlRequest>
    /** Issued requests whose continuation has not run yet. */
    var pendingRequests: nat
    /** The state the interval callback closes over: its text, its cursor and whether it is still set. */
    var fullText: string
    var index: nat
    var revealRunning: bool

    /** The reveal as seen through the fields it reads and writes. */
    function RevealView(): Reveal
      reads this
    {
      Reveal(fullText, index, revealRunning, streamedText, response)
    }

    /** The status label the page renders. */
    function Status(): Status
      reads this
    {
      StatusLabel(isLoading, streamedText, response)
    }

    /** The component's first render: the `useState` initial values. */
    constructor ()
      ensures keyword == "" && domain == "" && currentKeyword == "" && currentDomain == ""
      ensures !isLoading && response == "" && streamedText == "" && !hasSearched
      ensures crawledUrls == [] && urlsCount == 0 && !showNotification && notificationMessage == ""
      ensures crawlRequests == [] && pendingRequests == 0 && !revealRunning
      ensures Status() == Waiting
    {
      keyword, domain, currentKeyword, currentDomain := "", "", "", "";
      isLoading, response, streamedText, hasSearched := false, "", "", false;
      crawledUrls, urlsCount := [], 0;
      showNotification, notificationMessage := false, "";
      crawlRequests, pendingRequests := [], 0;
      fullText, index, revealRunning := "", 0, false;
    }

    /** The keyword field's `onChange`. */
    method SetKeyword(text: string)
      modifies this`keyword
      ensures keyword == text
    {
      keyword := text;
    }

    /** The domain field's `onChange`. */
    method SetDomain(text: string)
      modifies this`domain
      ensures domain == text
    {
      domain := text;
    }

    /** `showNotificationMessage`: the toast shows the message (its auto-hide timer is not modelled). */
    method ShowNotificationMessage(message: string)
      modifies this`notificationMessage, this`showNotification
      ensures notificationMessage == message && showNotification
    {
      notificationMessage := message;
      showNotification := true;
    }

    /**
     * `handleCrawl` up to its `await`. A form missing either field only
     * raises the notification. Otherwise the searched terms are recorded,
     * the results are reset, loading starts and the request is issued.
     */
    method BeginCrawl() returns (issued: bool)
      modifies this`currentKeyword, this`currentDomain, this`hasSearched, this`isLoading, this`response,
        this`streamedText, this`crawledUrls, this`urlsCount, this`notificationMessage,
        this`showNotification, this`crawlRequests, this`pendingRequests
      ensures issued == !MissingInput(old(keyword), old(domain))
      ensures !issued ==>
        && notificationMessage == MissingInputText && showNotification
        && currentKeyword == old(currentKeyword) && currentDomain == old(currentDomain)
        && hasSearched == old(hasSearched) && isLoading == old(isLoading)
        && response == old(response) && streamedText == old(streamedText)
        && crawledUrls == old(crawledUrls) && urlsCount == old(urlsCount)
        && crawlRequests == old(crawlRequests) && pendingRequests == old(pendingRequests)
      ensures issued ==>
        && currentKeyword == old(keyword) && currentDomain == old(domain)
        && hasSearched && isLoading && response == "" && streamedText == ""
        && crawledUrls == [] && urlsCount == 0
        && notificationMessage == old(notificationMessage) && showNotification == old(showNotification)
        && crawlRequests == old(crawlRequests) + [CrawlRequest(old(keyword), old(domain))]
        && pendingRequests == old(pendingRequests) + 1
    {
      if MissingInput(keyword, domain) {
        ShowNotificationMessage(MissingInputText);
        return false;
      }
      currentKeyword := keyword;
      currentDomain := domain;
      hasSearched := true;
      isLoading := true;
      response := "";
      streamedText := "";
      crawledUrls := [];
      urlsCount := 0;
      crawlRequests := crawlRequests + [CrawlRequest(keyword, domain)];
      pendingRequests := pendingRequests + 1;
      issued := true;
    }

    /**
     * The continuation of a crawl request. On success the defaulted URL
     * list and count are set, loading ends before the first tick, and a
     * reveal of the defaulted summary starts; until that tick the label
     * reads "Waiting" over a page the reset left empty. On failure loading
     * ends and the fixed error text is shown, so the label reads
     * "Completed"; nothing else changes.
     */
    method ReceiveCrawl(result: Outcome<CrawlBody>)
      requires pendingRequests > 0 && !revealRunning
      modifies this`crawledUrls, this`urlsCount, this`isLoading, this`streamedText, this`fullText,
        this`index, this`revealRunning, this`pendingRequests
      ensures pendingRequests == old(pendingRequests) - 1 && !isLoading
      ensures result.Ok? ==>
        && crawledUrls == CrawledUrls(result.body) && urlsCount == UrlsCount(result.body)
        && RevealView() == Start(FullText(result.body), old(streamedText), response)
        && Status() == StatusLabel(false, old(streamedText), old(response))
        && (old(streamedText) == "" && old(response) == "" ==> Status() == Waiting)
      ensures !result.Ok? ==>
        && streamedText == FetchErrorText && Status() == Completed
        && crawledUrls == old(crawledUrls) && urlsCount == old(urlsCount)
        && fullText == old(fullText) && index == old(index) && !revealRunning
    {
      pendingRequests := pendingRequests - 1;
      match result {
        case Ok(data) =>
          var text := JsText.StringOr(data.summary, NoSummaryText);
          crawledUrls := data.urls.GetOr([]);
          urlsCount := data.urlsCrawled.GetOr(0);
          isLoading := false;
          fullText, index, revealRunning := text, 0, true;
        case NotOk =>
          isLoading := false;
          streamedText := FetchErrorText;
        case Throws =>
          isLoading := false;
          streamedText := FetchErrorText;
      }
    }

    /** One run of the interval callback. */
    method Tick()
      modifies this`index, this`revealRunning, this`streamedText, this`response
      ensures RevealView() == Step(old(RevealView()))
    {
      if !revealRunning {
        return;
      }
      if index < |fullText| {
        streamedText := fullText[..index + 1];
        index := index + 1;
      } else {
        revealRunning := false;
        response := fullText;
      }
    }

    /** The interval firing until it clears itself. */
    method RunReveal()
      modifies this`index, this`revealRunning, this`streamedText, this`response
      ensures RevealView() == Ticks(old(RevealView()), TicksToFinish(old(RevealView())))
      ensures !revealRunning
    {
      ghost var start := RevealView();
      ghost var k: nat := 0;
      while revealRunning
        invariant fullText == start.fullText
        invariant RevealView() == Ticks(start, k)
        invariant k + TicksToFinish(RevealView()) == TicksToFinish(start)
        decreases TicksToFinish(RevealView())
      {
        TicksToFinishStep(RevealView());
        Tick();
        k := k + 1;
      }
    }

    /**
     * A whole `handleCrawl`, one reveal at a time. A form missing either
     * field only raises the notification. A successful crawl ends with the
     * defaulted summary both shown and committed, the defaulted URLs and
     * count set, and the status "Completed". A failed one ends with the
     * error text shown, no response, the URLs and count as reset, and also
     * the status "Completed".
     */
    method HandleCrawl(result: Outcome<CrawlBody>) returns (issued: bool)
      requires !revealRunning
      modifies this`currentKeyword, this`currentDomain, this`hasSearched, this`isLoading, this`response,
        this`streamedText, this`crawledUrls, this`urlsCount, this`notificationMessage,
        this`showNotification, this`crawlRequests, this`pendingRequests, this`fullText,
        this`index, this`revealRunning
      ensures issued == !MissingInput(old(keyword), old(domain))
      ensures !issued ==>
        && notificationMessage == MissingInputText && showNotification
        && currentKeyword == old(currentKeyword) && currentDomain == old(currentDomain)
        && hasSearched == old(hasSearched) && isLoading == old(isLoading)
        && response == old(response) && streamedText == old(streamedText)
        && crawledUrls == old(crawledUrls) && urlsCount == old(urlsCount)
        && crawlRequests == old(crawlRequests) && pendingRequests == old(pendingRequests)
        && fullText == old(fullText) && index == old(index) && revealRunning == old(revealRunning)
      ensures issued ==>
        && currentKeyword == old(keyword) && currentDomain == old(domain) && hasSearched && !isLoading
        && notificationMessage == old(notificationMessage) && showNotification == old(showNotification)
        && crawlRequests == old(crawlRequests) + [CrawlRequest(old(keyword), old(domain))]
        && pendingRequests == old(pendingRequests) && !revealRunning
        && Status() == Completed
      ensures issued && result.Ok? ==>
        && streamedText == FullText(result.body) && response == FullText(result.body)
        && crawledUrls == CrawledUrls(result.body) && urlsCount == UrlsCount(result.body)
      ensures issued && !result.Ok? ==>
        && streamedText == FetchErrorText && response == ""
        && crawledUrls == [] && urlsCount == 0
    {
      issued := BeginCrawl();
      if issued {
        ReceiveCrawl(result);
        if result.Ok? {
          RevealCompletes(FullText(result.body), "", "", 0);
          RunReveal();
        }
      }
    }
  }
}
