/**
 * The chat thread of one crawl session, as the chat page keeps it: an
 * ordered message list, persisted in the browser's key/value storage under
 * `"chat_" + id` as one JSON record that every save replaces whole.
 *
 * JSON serialisation is the identity on message lists (a `Date` written by
 * `JSON.stringify` is read back by `new Date(...)` as the same instant);
 * anything in storage that does not parse back into a list is `Unparseable`.
 */
module ChatThread {
  import opened Fetch
  import JsText

  datatype Role = User | Assistant

  /** A `Date`: stored and carried along, never inspected. */
  type Timestamp = int

  datatype Message = Message(role: Role, content: string, timestamp: Timestamp)

  /** What storage holds under a key. */
  datatype Record = Serialized(messages: seq<Message>) | Unparseable

  /** The storage keyspace. */
  type Store = map<string, Record>

  /** The body of a successful discussion reply: `{ message }`, the field possibly missing. */
  datatype DiscussionBody = DiscussionBody(message: Option<string>)

  const KeyPrefix: string := "chat_"
  const NoResponseText: string := "No response received"
  const ErrorReplyText: string := "Sorry, I encountered an error. Please try again."

  /** The storage key of a session's thread; the id can be read back from it. */
  function StorageKey(id: string): (k: string)
    ensures |k| == |KeyPrefix| + |id|
    ensures k[..|KeyPrefix|] == KeyPrefix && k[|KeyPrefix|..] == id
  {
    KeyPrefix + id
  }

  /** Distinct session ids never share a thread. */
  lemma KeyInjective(a: string, b: string)
    ensures StorageKey(a) == StorageKey(b) <==> a == b
  {
  }

  /** `saveMessagesToStorage` when `setItem` succeeds: the whole thread replaces the record. */
  function Persist(store: Store, id: string, msgs: seq<Message>): (s: Store)
    ensures s.Keys == store.Keys + {StorageKey(id)}
    ensures s[StorageKey(id)] == Serialized(msgs)
    ensures forall k :: k in store && k != StorageKey(id) ==> s[k] == store[k]
  {
    store[StorageKey(id) := Serialized(msgs)]
  }

  /**
   * The list shown after `loadMessagesFromStorage(id)`, given the list shown
   * before it: a record that parses replaces the list, a missing or
   * unparseable one leaves it as it was.
   */
  function Restore(store: Store, id: string, shown: seq<Message>): (r: seq<Message>)
    ensures StorageKey(id) in store && store[StorageKey(id)].Serialized? ==> r == store[StorageKey(id)].messages
    ensures StorageKey(id) !in store || store[StorageKey(id)] == Unparseable ==> r == shown
  {
    var key := StorageKey(id);
    if key in store && store[key].Serialized? then store[key].messages else shown
  }

  /** Save then load gives back exactly the saved thread, whatever was shown. */
  lemma RestorePersisted(store: Store, id: string, msgs: seq<Message>, shown: seq<Message>)
    ensures Restore(Persist(store, id, msgs), id, shown) == msgs
  {
  }

  /** Saving one session's thread does not change what another session loads. */
  lemma PersistIsolated(store: Store, id: string, other: string, msgs: seq<Message>, shown: seq<Message>)
    requires id != other
    ensures Restore(Persist(store, id, msgs), other, shown) == Restore(store, other, shown)
  {
  }

  /** A later save of the same session replaces an earlier one: full replace, no merge. */
  lemma PersistOverwrites(store: Store, id: string, first: seq<Message>, second: seq<Message>)
    ensures Persist(Persist(store, id, first), id, second) == Persist(store, id, second)
  {
  }

  /**
   * The text of the assistant message that closes a turn: the reply's
   * `message`, `"No response received"` when it is missing or empty, and
   * the fixed apology when the call was not ok or threw.
   */
  function AssistantText(outcome: Outcome<DiscussionBody>): (t: string)
    ensures t != ""
    ensures outcome.Ok? && outcome.body.message.Some? && outcome.body.message.value != "" ==>
      t == outcome.body.message.value
    ensures outcome.Ok? && (outcome.body.message.None? || outcome.body.message.value == "") ==>
      t == NoResponseText
    ensures !outcome.Ok? ==> t == ErrorReplyText
  {
    match outcome
    case Ok(body) => JsText.StringOr(body.message, NoResponseText)
    case _ => ErrorReplyText
  }

  /**
   * One completed send: the user's message, verbatim, then exactly one
   * assistant message, both after the untouched earlier thread.
   */
  function AfterTurn(thread: seq<Message>, prompt: string, outcome: Outcome<DiscussionBody>,
                     sentAt: Timestamp, repliedAt: Timestamp): (r: seq<Message>)
    ensures |r| == |thread| + 2 && r[..|thread|] == thread
    ensures r[|thread|] == Message(User, prompt, sentAt)
    ensures r[|thread| + 1] == Message(Assistant, AssistantText(outcome), repliedAt)
  {
    (thread + [Message(User, prompt, sentAt)]) + [Message(Assistant, AssistantText(outcome), repliedAt)]
  }

  /** One send as seen from outside: what was typed, how the call ended, and the two clock readings. */
  datatype Exchange = Exchange(prompt: string, outcome: Outcome<DiscussionBody>,
                               sentAt: Timestamp, repliedAt: Timestamp)

  /** The thread after a series of completed sends, oldest first. */
  function Replay(thread: seq<Message>, xs: seq<Exchange>): seq<Message>
    decreases |xs|
  {
    if xs == [] then thread
    else
      var last := xs[|xs| - 1];
      AfterTurn(Replay(thread, xs[..|xs| - 1]), last.prompt, last.outcome, last.sentAt, last.repliedAt)
  }

  /**
   * After any series of sends the thread holds, after its earlier messages,
   * each send's user message followed by its assistant message, in order.
   */
  lemma {:induction false} ReplayShape(thread: seq<Message>, xs: seq<Exchange>, i: nat)
    requires i < |xs|
    ensures |Replay(thread, xs)| == |thread| + 2 * |xs|
    ensures Replay(thread, xs)[..|thread|] == thread
    ensures Replay(thread, xs)[|thread| + 2 * i] == Message(User, xs[i].prompt, xs[i].sentAt)
    ensures Replay(thread, xs)[|thread| + 2 * i + 1] ==
      Message(Assistant, AssistantText(xs[i].outcome), xs[i].repliedAt)
  {
    var init := xs[..|xs| - 1];
    var before := Replay(thread, init);
    ReplayLength(thread, init);
    if i < |xs| - 1 {
      ReplayShape(thread, init, i);
      assert Replay(thread, xs)[..|before|] == before;
    }
  }

  /** The length and untouched prefix part of `ReplayShape`, which also holds with no sends. */
  lemma {:induction false} ReplayLength(thread: seq<Message>, xs: seq<Exchange>)
    ensures |Replay(thread, xs)| == |thread| + 2 * |xs|
    ensures Replay(thread, xs)[..|thread|] == thread
    decreases |xs|
  {
    if xs != [] {
      var before := Replay(thread, xs[..|xs| - 1]);
      ReplayLength(thread, xs[..|xs| - 1]);
      assert Replay(thread, xs)[..|before|] == before;
      assert before[..|thread|] == thread;
    }
  }

  /** Append-only: the thread after the first `n` sends is a prefix of the thread after all of them. */
  lemma {:induction false} ReplayAppendOnly(thread: seq<Message>, xs: seq<Exchange>, n: nat)
    requires n <= |xs|
    ensures Replay(thread, xs[..n]) <= Replay(thread, xs)
    decreases |xs|
  {
    if n < |xs| {
      var init := xs[..|xs| - 1];
      ReplayAppendOnly(thread, init, n);
      assert init[..n] == xs[..n];
      ReplayLength(thread, init);
      assert Replay(thread, init) <= Replay(thread, xs);
    } else {
      assert xs[..n] == xs;
    }
  }

  /**
   * Two sends in one session, then a reload: the record holds both user
   * messages with their replies, in the order sent, contents and roles intact.
   */
  lemma TwoSendsThenLoad(store: Store, id: string, a: Exchange, b: Exchange, shown: seq<Message>)
    ensures
      var first := AfterTurn([], a.prompt, a.outcome, a.sentAt, a.repliedAt);
      var second := AfterTurn(first, b.prompt, b.outcome, b.sentAt, b.repliedAt);
      Restore(Persist(Persist(store, id, first), id, second), id, shown) ==
        [Message(User, a.prompt, a.sentAt), Message(Assistant, AssistantText(a.outcome), a.repliedAt),
         Message(User, b.prompt, b.sentAt), Message(Assistant, AssistantText(b.outcome), b.repliedAt)]
  {
  }
}
