# Web crawler front end: session lifecycle and chat-thread store

This project models the client-side logic of a Next.js web-crawler front end in Dafny. The front end has two pages.

- **Home page** (`src/app/page.tsx`). It takes a keyword and a domain and checks that neither is blank. It resets the result panel and asks the crawl backend for a summary. It fills in defaults for missing response fields. It then "streams" the summary onto the page one character per interval tick, and commits it once the interval clears itself. It also derives the status label ("Processing", "Completed", "Waiting").
- **Chat page** (`src/app/chat/page.tsx`). It keeps the message thread of one crawl session (the `id` search parameter) in browser storage under `"chat_" + id`. A send turn is guarded. It appends the user's message optimistically, asks the discussion backend and appends exactly one assistant message: the reply, a default, or a fixed apology. It saves the whole thread after each step.

Every `await fetch(...)` with its `res.json()` is an outcome supplied from outside: `Ok(body)`, `NotOk` or `Throws` (`Fetch.Outcome`). Several things are also parameters: the clock (`new Date()`), whether a storage write succeeds, and which tick comes next. JSON serialisation of a message list is the identity. Any stored text that does not parse back into a list is `Unparseable`.

Modules:

- `JsText` (`js_text.dfy`): JavaScript's `trim` and the `s || fallback` defaulting of a string field.
- `Fetch` (`fetch.dfy`): optional JSON fields and fetch outcomes.
- `ChatThread` (`chat_thread.dfy`): the pure thread and store. This covers storage keys, save and load as functions on the store, one turn (`AfterTurn`) and a series of turns (`Replay`). It also holds the round-trip, isolation, append-only and shape lemmas.
- `ChatPage` (`chat_page.dfy`): the chat component as a class. Its fields are the component state and the storage map. Its methods are the loaders, the mount effect and the send turn. The turn is split at its `await` into `BeginSend` and `FinishSend`, and `HandleSendMessage` runs both.
- `CrawlReveal` (`crawl_reveal.dfy`): the pure side of the crawl flow. This covers response defaulting, the interval callback as `Step` on a `Reveal` value, `Ticks` (n runs of it) with its lemmas, and the status label.
- `HomePage` (`home_page.dfy`): the home component as a class. `BeginCrawl` covers the guard, the reset and the request. `ReceiveCrawl` is the continuation. `Tick` is one interval callback, and `RunReveal` is a loop that fires it until the interval clears. `HandleCrawl` runs them all in order.

## Model

| member | source | states |
|---|---|---|
| JsText.LeadingWhitespace | src/app/page.tsx:27 | the count of leading whitespace characters: all of them are whitespace and the next one is not |
| JsText.TrailingWhitespace | src/app/page.tsx:27 | the count of trailing whitespace characters: all of them are whitespace and the one before is not |
| JsText.Trim | src/app/chat/page.tsx:114 | `trim()` is the slice of the string after its leading whitespace, with only whitespace after it; it neither starts nor ends with whitespace |
| JsText.TrimEmptyIffBlank | src/app/chat/page.tsx:114 | `!s.trim()` holds exactly when the string is empty or all whitespace |
| JsText.StringOr | src/app/chat/page.tsx:147 | `v \|\| fallback`: a present non-empty value wins; otherwise the fallback; never empty when the fallback is not |
| ChatThread.StorageKey | src/app/chat/page.tsx:38 | the key is `"chat_"` followed by the id, and the id can be read back from it |
| ChatThread.KeyInjective | src/app/chat/page.tsx:58 | two ids share a storage key exactly when they are equal |
| ChatThread.Persist | src/app/chat/page.tsx:56-62 | a save writes the whole thread under the session's key and leaves every other key as it was |
| ChatThread.Restore | src/app/chat/page.tsx:35-53 | a parseable record replaces the shown list; a missing or corrupt record leaves the shown list unchanged |
| ChatThread.RestorePersisted | src/app/chat/page.tsx:35-62 | save then load gives back exactly the saved thread: roles, contents, timestamps and order |
| ChatThread.PersistIsolated | src/app/chat/page.tsx:58 | saving one session's thread never changes what another session loads |
| ChatThread.PersistOverwrites | src/app/chat/page.tsx:151-163 | a later save replaces an earlier one wholesale (no merge) |
| ChatThread.AssistantText | src/app/chat/page.tsx:140-163 | the assistant text is never empty. On success it is `data.message`, or "No response received" when that is missing or empty. On a non-ok response or a throw it is the fixed apology |
| ChatThread.AfterTurn | src/app/chat/page.tsx:116-161 | a completed send keeps the old thread as a prefix and grows it by exactly two. The additions are the user's message, verbatim, then one assistant message |
| ChatThread.ReplayLength | src/app/chat/page.tsx:122-161 | after n sends the thread has grown by 2n and the earlier messages are untouched |
| ChatThread.ReplayShape | src/app/chat/page.tsx:113-167 | after any series of sends, send i's user message sits at offset 2i and its assistant message at 2i+1 |
| ChatThread.ReplayAppendOnly | src/app/chat/page.tsx:122-161 | the thread after the first n sends is a prefix of the thread after all of them |
| ChatThread.TwoSendsThenLoad | src/app/chat/page.tsx:35-167 | two sends then a reload yield `[user1, assistant1, user2, assistant2]` with roles and contents preserved |
| ChatPage.CanSendIsTrimTest | src/app/chat/page.tsx:114 | a send proceeds exactly when the trimmed input is non-empty, the id is present and non-empty, and no call is outstanding |
| ChatPage.ChatSession.constructor | src/app/chat/page.tsx:26-31 | the initial state: no detail, no messages, empty input, not loading, both loading flags set |
| ChatPage.ChatSession.TypeInput | src/app/chat/page.tsx:356 | typing replaces the input |
| ChatPage.ChatSession.LoadMessagesFromStorage | src/app/chat/page.tsx:35-53 | the shown list becomes the stored thread when it parses and is otherwise unchanged; `loadingMessages` ends false |
| ChatPage.ChatSession.SaveMessagesToStorage | src/app/chat/page.tsx:56-62 | the store becomes a full replace of the session's record, or is unchanged when the write throws |
| ChatPage.ChatSession.LoadCrawlData | src/app/chat/page.tsx:98-111 | one detail request is issued; an ok response sets the detail and otherwise it is kept; `loadingData` ends false |
| ChatPage.ChatSession.Mount | src/app/chat/page.tsx:64-71 | with an id, the detail and the thread are loaded. With a missing or empty id the page redirects and loads nothing |
| ChatPage.ChatSession.BeginSend | src/app/chat/page.tsx:113-138 | a refused send changes nothing and issues no request. Otherwise the user message is appended and saved before the request, the input is cleared, the call is outstanding, and the request carries the id and the verbatim input |
| ChatPage.ChatSession.FinishSend | src/app/chat/page.tsx:140-166 | exactly one assistant message is appended to the thread the send started from, whatever the outcome. The result is saved whole when the write succeeds (the store is unchanged when it throws), and the call is no longer outstanding |
| ChatPage.ChatSession.HandleSendMessage | src/app/chat/page.tsx:113-167 | a refused send (blank input, missing id, or a call outstanding) changes nothing and issues no request. A completed one leaves `AfterTurn(old thread, input, outcome)`, an empty input and no call outstanding. When the last write succeeds the store holds that thread (full replace); when only the first succeeds it holds the optimistic thread; otherwise it is unchanged |
| CrawlReveal.FullText | src/app/page.tsx:55 | the text to reveal is the summary, or "No summary available" when it is missing or empty; never empty |
| CrawlReveal.CrawledUrls | src/app/page.tsx:56 | the URL list defaults to empty |
| CrawlReveal.UrlsCount | src/app/page.tsx:57 | the URL count defaults to 0 |
| CrawlReveal.Step | src/app/page.tsx:62-70 | one callback. While text remains it shows one more character and advances the cursor. Then it clears the interval and commits the full text. After that it does nothing |
| CrawlReveal.TicksFromStart | src/app/page.tsx:61-70 | after n ticks the cursor is at min(n, length) and the shown text is that prefix. The interval runs until tick length+1, and only then is the response committed |
| CrawlReveal.StreamedMonotone | src/app/page.tsx:63-65 | the shown text only grows and is always a prefix of the full text |
| CrawlReveal.RevealCompletes | src/app/page.tsx:63-69 | after length+1 ticks both shown and committed text equal the full text, the interval is cleared, and later ticks change nothing |
| CrawlReveal.StoppedStaysStopped | src/app/page.tsx:67 | once the interval is cleared no tick writes anything |
| CrawlReveal.StatusLabel | src/app/page.tsx:179-201 | "Processing" exactly while loading. Otherwise "Completed" exactly when the shown text or the response is non-empty, and otherwise "Waiting" |
| CrawlReveal.HelloExample | src/app/page.tsx:55-69 | summary "Hello" with `urls_crawled: 2` ends with "Hello" shown and committed and a count of 2 |
| HomePage.MissingInputIsTrimTest | src/app/page.tsx:27 | the form counts as missing exactly when `!keyword.trim() \|\| !domain.trim()` |
| HomePage.TicksToFinish | src/app/page.tsx:61-70 | a reveal clears its interval after this many ticks, which is positive exactly while it runs |
| HomePage.RunningTicks | src/app/page.tsx:63-65 | ticks before the end of the text keep the interval running and show the prefix up to the cursor |
| HomePage.TicksToFinishStep | src/app/page.tsx:62-70 | each tick of a running reveal brings it one tick closer to clearing |
| HomePage.Home.constructor | src/app/page.tsx:7-18 | the initial state, with the label "Waiting" |
| HomePage.Home.SetKeyword | src/app/page.tsx:122 | typing replaces the keyword |
| HomePage.Home.SetDomain | src/app/page.tsx:133 | typing replaces the domain |
| HomePage.Home.ShowNotificationMessage | src/app/page.tsx:20-24 | the toast shows the given message |
| HomePage.Home.BeginCrawl | src/app/page.tsx:26-48 | a form with a blank field only raises "Please enter both keyword and domain": no reset and no request. Otherwise: terms recorded, response and shown text "", URLs [] and count 0, searched and loading set, one request issued, label "Processing" |
| HomePage.Home.ReceiveCrawl | src/app/page.tsx:50-76 | on success the defaulted URLs and count are set, loading ends before the first tick, and a reveal of the defaulted summary starts at cursor 0; until that tick the label reads "Waiting" over a page the reset left empty. On failure loading ends and the fixed error text is shown with the label "Completed" |
| HomePage.Home.Tick | src/app/page.tsx:62-70 | one callback changes the reveal exactly as `Step` does |
| HomePage.Home.RunReveal | src/app/page.tsx:61-70 | firing until the interval clears gives `Ticks(start, TicksToFinish(start))`, and the interval ends cleared |
| HomePage.Home.HandleCrawl | src/app/page.tsx:26-77 | blank input only notifies: every other field, the request log and the reveal stay as they were. A valid crawl leaves the notification as it was. Success ends with the defaulted summary shown and committed, the defaulted URLs and count, "Completed". Failure ends with the error text, no response, URLs [] and count 0, "Completed" |

## Left out

- Rendering, markdown, scrolling, and the timers for scrolling and for hiding the notification: presentation only. The notification's auto-hide after 3000 ms is not modelled.
- The `src/app/api/*/route.ts` proxies: request forwarding over `fetch` and environment variables. Their required-parameter 400 check and error-to-status mapping are not part of this model.
- `router.push` is a flag (`redirectedHome`), not navigation. `console.error` logging is not modelled.
- Timer delays (5 ms per character) are not modelled; only the order of ticks is.
- HomePage.Home.ReceiveCrawl: requires that no earlier reveal is still running. In the page, the interval handle is local and a later crawl never cancels it. The Enter key calls `handleCrawl` even while loading (only the button is disabled). So two reveals can interleave their writes. The model runs one reveal at a time and does not claim cancellation. `BeginCrawl` may still run during a reveal, and the old reveal's later ticks then write over the reset, as in the page.
- HomePage.Home.HandleCrawl: requires that no earlier reveal is still running, for the same reason.
- Lengths are counted in Unicode scalar values. JavaScript's `length` and `substring` count UTF-16 code units, so for text outside the Basic Multilingual Plane the page can reveal half a surrogate pair, and the model does not show this.
- A stored record that parses as JSON but does not hold a list of message objects is treated as `Unparseable` (the page's `.map` throws and is caught). An array whose elements lack fields is not modelled. A `getItem` that throws has the same effect as a corrupt record.
- `data.message` with a truthy non-string value, and `urls_crawled` that is `NaN`, are not modelled. A missing field covers absent, `null` and the other falsy values.
- Timestamps are opaque values carried along. `new Date(bad)` yields an invalid date, not the current time, and the model does not inspect timestamps.
- A load over a missing or corrupt record leaves the shown list unchanged; it does not empty it. On a freshly mounted page the list is already empty, so the two readings agree there.
- Overlapping async work on the chat page is not modelled. The mount effect's detail request settles after the thread is loaded, but the two write disjoint fields, so the model runs them in sequence. A continuation writes the thread captured when its send began, as in the page. Writers from other tabs (last writer wins) are not modelled.
- URL-list validation, a POST crawl with a URL list, a history/listing cache and reveal cancellation do not exist in these pages and are not modelled.
