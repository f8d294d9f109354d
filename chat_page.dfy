/**
 * The chat page component: the state it keeps for one session (given by
 * the `id` search parameter), the loaders run when it mounts, and one send
 * turn. A send is split at its `await`: `BeginSend` is everything up to the
 * discussion request, `FinishSend` the continuation that runs when the call
 * settles; `HandleSendMessage` is the two run back to back.
 *
 * The clock (`new Date()`), the result of each `fetch` and whether each
 * storage write succeeds are parameters.
 */
module ChatPage {
  import opened Fetch
  import opened ChatThread
  import JsText

  /** The session detail that `/api/keyword/full` returns. */
  datatype CrawlData = CrawlData(keyword: string, siteDomain: string, urls: seq<string>,
                                 summary: string, id: string)

  /** A request issued to the discussion backend. */
  datatype DiscussionRequest = DiscussionRequest(keywordId: string, userPrompt: string)

  /** What the pending continuation of a send closes over: the id, the prompt and the thread it extends. */
  datatype PendingTurn = PendingTurn(id: string, prompt: string, thread: seq<Message>)

  /** `if (keywordId)`: a search parameter that is present and non-empty. */
  predicate HasId(keywordId: Option<string>) {
    keywordId.Some? && keywordId.value != ""
  }

  /** The guard of a send: the input is not blank, there is an id, and no call is outstanding. */
  predicate CanSend(input: string, keywordId: Option<string>, isLoading: bool) {
    !JsText.IsBlank(input) && HasId(keywordId) && !isLoading
  }

  class ChatSession {
    const keywordId: Option<string>
    var crawlData: Option<CrawlData>
    var messages: seq<Message>
    var inputMessage: string
    var isLoading: bool
    var loadingData: bool
    var loadingMessages: bool
    /** The browser's storage, shared by every session. */
    var store: Store
    /** Ids whose detail was requested from `/api/keyword/full`, in order. */
    var detailRequests: seq<string>
    /** Requests issued to the discussion backend, in order. */
    var discussionRequests: seq<DiscussionRequest>
    /** Whether the page navigated back to `/`. */
    var redirectedHome: bool

    /** The component's first render: the `useState` initial values. */
    constructor (keywordId: Option<string>, store: Store)
      ensures this.keywordId == keywordId && this.store == store
      ensures crawlData == None && messages == [] && inputMessage == ""
      ensures !isLoading && loadingData && loadingMessages
      ensures detailRequests == [] && discussionRequests == [] && !redirectedHome
    {
      this.keywordId := keywordId;
      this.store := store;
      crawlData := None;
      messages := [];
      inputMessage := "";
      isLoading := false;
      loadingData := true;
      loadingMessages := true;
      detailRequests := [];
      discussionRequests := [];
      redirectedHome := false;
    }

    /** The text field's `onChange`. */
    method TypeInput(text: string)
      modifies this`inputMessage
      ensures inputMessage == text
    {
      inputMessage := text;
    }

    /**
     * `loadMessagesFromStorage(id)`: a parseable record replaces the list,
     * a missing or corrupt one leaves it unchanged; never fails.
     */
    method LoadMessagesFromStorage(id: string)
      modifies this`messages, this`loadingMessages
      ensures messages == Restore(store, id, old(messages))
      ensures !loadingMessages
    {
      loadingMessages := true;
      var key := StorageKey(id);
      if key in store {
        match store[key] {
          case Serialized(parsed) =>
            messages := parsed;
          case Unparseable =>
        }
      }
      loadingMessages := false;
    }

    /** `saveMessagesToStorage(id, msgs)`: a full replace of the record, or nothing when `setItem` throws. */
    method SaveMessagesToStorage(id: string, msgs: seq<Message>, writable: bool)
      modifies this`store
      ensures store == if writable then Persist(old(store), id, msgs) else old(store)
    {
      if writable {
        store := store[StorageKey(id) := Serialized(msgs)];
      }
    }

    /** `loadCrawlData(id)`: an ok response sets the detail; otherwise it stays as it was. */
    method LoadCrawlData(id: string, response: Outcome<CrawlData>)
      modifies this`crawlData, this`loadingData, this`detailRequests
      ensures detailRequests == old(detailRequests) + [id]
      ensures crawlData == if response.Ok? then Some(response.body) else old(crawlData)
      ensures !loadingData
    {
      loadingData := true;
      detailRequests := detailRequests + [id];
      if response.Ok? {
        crawlData := Some(response.body);
      }
      loadingData := false;
    }

    /**
     * The first effect: with an id, load the detail and the stored thread;
     * without one, go back home and load nothing.
     */
    method Mount(response: Outcome<CrawlData>)
      modifies this`crawlData, this`loadingData, this`detailRequests, this`messages,
        this`loadingMessages, this`redirectedHome
      ensures HasId(keywordId) ==>
        && detailRequests == old(detailRequests) + [keywordId.value]
        && crawlData == (if response.Ok? then Some(response.body) else old(crawlData))
        && messages == Restore(store, keywordId.value, old(messages))
        && !loadingData && !loadingMessages && redirectedHome == old(redirectedHome)
      ensures !HasId(keywordId) ==>
        && redirectedHome
        && detailRequests == old(detailRequests) && crawlData == old(crawlData)
        && messages == old(messages) && loadingData == old(loadingData)
        && loadingMessages == old(loadingMessages)
    {
      if HasId(keywordId) {
        LoadCrawlData(keywordId.value, response);
        LoadMessagesFromStorage(keywordId.value);
      } else {
        redirectedHome := true;
      }
    }

    /**
     * `handleSendMessage` up to its `await`: when the guard passes, the
     * user's message is appended and saved, the input is cleared, the call is
     * marked outstanding and the request is issued with the input verbatim.
     * When it fails, nothing changes.
     */
    method BeginSend(writable: bool, now: Timestamp) returns (pending: Option<PendingTurn>)
      modifies this`messages, this`store, this`inputMessage, this`isLoading, this`discussionRequests
      ensures !CanSend(old(inputMessage), keywordId, old(isLoading)) ==>
        && pending == None
        && messages == old(messages) && store == old(store) && inputMessage == old(inputMessage)
        && isLoading == old(isLoading) && discussionRequests == old(discussionRequests)
      ensures CanSend(old(inputMessage), keywordId, old(isLoading)) ==>
        var id := keywordId.value;
        && pending == Some(PendingTurn(id, old(inputMessage), messages))
        && messages == old(messages) + [Message(User, old(inputMessage), now)]
        && store == (if writable then Persist(old(store), id, messages) else old(store))
        && inputMessage == "" && isLoading
        && discussionRequests == old(discussionRequests) + [DiscussionRequest(id, old(inputMessage))]
    {
      if !CanSend(inputMessage, keywordId, isLoading) {
        return None;
      }
      var id := keywordId.value;
      var prompt := inputMessage;
      var updated := messages + [Message(User, prompt, now)];
      messages := updated;
      SaveMessagesToStorage(id, updated, writable);
      inputMessage := "";
      isLoading := true;
      discussionRequests := discussionRequests + [DiscussionRequest(id, prompt)];
      pending := Some(PendingTurn(id, prompt, updated));
    }

    /**
     * The continuation of a send: exactly one assistant message is appended
     * to the thread the send started from, the result is saved whole when
     * the write succeeds (and the store is unchanged when it throws), and
     * the call is no longer outstanding.
     */
    method FinishSend(turn: PendingTurn, response: Outcome<DiscussionBody>, writable: bool, now: Timestamp)
      modifies this`messages, this`store, this`isLoading
      ensures messages == turn.thread + [Message(Assistant, AssistantText(response), now)]
      ensures store == if writable then Persist(old(store), turn.id, messages) else old(store)
      ensures !isLoading
    {
      var content: string;
      match response {
        case Ok(data) =>
          content := if data.message.Some? && data.message.value != "" then data.message.value
                     else NoResponseText;
        case NotOk =>
          content := ErrorReplyText;
        case Throws =>
          content := ErrorReplyText;
      }
      var final := turn.thread + [Message(Assistant, content, now)];
      messages := final;
      SaveMessagesToStorage(turn.id, final, writable);
      isLoading := false;
    }

    /**
     * A whole send turn. A guarded-out send changes nothing and calls
     * nothing. A send that goes through leaves the thread as the old one
     * plus the user's message and one assistant message, the store holding
     * that thread when the last write succeeded (or the optimistic one when
     * only the first did), an empty input and no call outstanding.
     */
    method HandleSendMessage(response: Outcome<DiscussionBody>, firstWritable: bool, secondWritable: bool,
                             sentAt: Timestamp, repliedAt: Timestamp) returns (sent: bool)
      modifies this`messages, this`store, this`inputMessage, this`isLoading, this`discussionRequests
      ensures sent == CanSend(old(inputMessage), keywordId, old(isLoading))
      ensures !sent ==>
        && messages == old(messages) && store == old(store) && inputMessage == old(inputMessage)
        && isLoading == old(isLoading) && discussionRequests == old(discussionRequests)
      ensures sent ==>
        var id := keywordId.value;
        && messages == AfterTurn(old(messages), old(inputMessage), response, sentAt, repliedAt)
        && store == (if secondWritable then Persist(old(store), id, messages)
                     else if firstWritable then Persist(old(store), id, messages[..|messages| - 1])
                     else old(store))
        && inputMessage == "" && !isLoading
        && discussionRequests == old(discussionRequests) + [DiscussionRequest(id, old(inputMessage))]
    {
      var pending := BeginSend(firstWritable, sentAt);
      sent := pending.Some?;
      if sent {
        ghost var optimistic := messages;
        FinishSend(pending.value, response, secondWritable, repliedAt);
        assert messages[..|messages| - 1] == optimistic;
        if secondWritable && firstWritable {
          PersistOverwrites(old(store), pending.value.id, optimistic, messages);
        }
      }
    }
  }

  /** `CanSend` is the page's own test, `!(!inputMessage.trim() || !keywordId || isLoading)`. */
  lemma CanSendIsTrimTest(input: string, keywordId: Option<string>, isLoading: bool)
    ensures CanSend(input, keywordId, isLoading) <==>
      JsText.Trim(input) != "" && keywordId.Some? && keywordId.value != "" && !isLoading
  {
  }
}
