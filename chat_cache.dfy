/**
 * The message cache of client/src/hooks/use-chat.ts: the query keys, the page slicing of
 * `useMessages`, the optimistic insert and rollback of `useSendMessage`, and the accumulate,
 * upsert and finalize steps of `useStreamMessage`. The query cache is a map from keys to
 * message lists; a key that was never set reads as absent (`old = []` supplies the default).
 */
module ChatCache {
  import opened Wrappers
  import opened ChatRelay
  import opened ChatStreamClient

  // ---------------------------------------------------------------- query keys

  type Key = seq<string>

  function AllKey(): Key { ["chats"] }
  function ConversationsKey(): Key { AllKey() + ["conversations"] }
  function ConversationKey(id: string): Key { ConversationsKey() + [id] }
  function MessagesKey(conversationId: string): Key { ConversationKey(conversationId) + ["messages"] }
  function CompanionsKey(): Key { AllKey() + ["companions"] }
  function CompanionKey(id: string): Key { CompanionsKey() + [id] }

  predicate IsPrefix(a: Key, b: Key) {
    |a| <= |b| && b[..|a|] == a
  }

  /**
   * Each key extends the one above it, so invalidating `conversations()` reaches every
   * conversation and its messages; the companion keys are a separate branch, and keys of
   * different conversations never coincide.
   */
  lemma KeysNest(id: string, other: string)
    ensures IsPrefix(AllKey(), ConversationsKey()) && IsPrefix(ConversationsKey(), ConversationKey(id))
    ensures IsPrefix(ConversationKey(id), MessagesKey(id)) && IsPrefix(ConversationsKey(), MessagesKey(id))
    ensures IsPrefix(AllKey(), CompanionsKey()) && IsPrefix(CompanionsKey(), CompanionKey(id))
    ensures !IsPrefix(ConversationsKey(), CompanionKey(other)) && !IsPrefix(CompanionsKey(), MessagesKey(other))
    ensures MessagesKey(id) == MessagesKey(other) ==> id == other
    ensures MessagesKey(id) != ConversationKey(other)
  {
    assert MessagesKey(id)[2] == id;
    assert MessagesKey(other)[2] == other;
    assert CompanionKey(other)[1] == "companions";
    assert MessagesKey(other)[1] == "conversations";
  }

  // ---------------------------------------------------------------- paging

  const PER_PAGE: nat := 20

  datatype Page<T> = Page(data: seq<T>, nextPage: Option<nat>)

  /** `Array.prototype.slice` clamps both ends to the length. */
  function Clamp(i: nat, n: nat): nat { if i <= n then i else n }

  /** The query function of `useMessages` for page `pageParam`. */
  function MessagesPage<T>(messages: seq<T>, pageParam: nat): (p: Page<T>)
    ensures |p.data| <= PER_PAGE
    ensures p.nextPage.Some? <==> pageParam * PER_PAGE + PER_PAGE < |messages|
    ensures p.nextPage.Some? ==> p.nextPage.value == pageParam + 1 && |p.data| == PER_PAGE
    ensures pageParam * PER_PAGE <= |messages| ==>
              p.data == messages[pageParam * PER_PAGE..Clamp(pageParam * PER_PAGE + PER_PAGE, |messages|)]
    ensures pageParam * PER_PAGE >= |messages| ==> p.data == []
  {
    var start := pageParam * PER_PAGE;
    Page(messages[Clamp(start, |messages|)..Clamp(start + PER_PAGE, |messages|)],
         if start + PER_PAGE < |messages| then Some(pageParam + 1) else None)
  }

  /** The pages the infinite query loads from `pageParam` on, following `nextPage`, concatenated. */
  function LoadedFrom<T>(messages: seq<T>, pageParam: nat): seq<T>
    decreases |messages| - pageParam * PER_PAGE
  {
    var p := MessagesPage(messages, pageParam);
    if p.nextPage.Some? then p.data + LoadedFrom(messages, pageParam + 1) else p.data
  }

  /** Following `nextPage` from page 0 loads every message exactly once, in order. */
  lemma {:induction false} PagesCoverAll<T>(messages: seq<T>, pageParam: nat)
    requires pageParam * PER_PAGE <= |messages|
    ensures LoadedFrom(messages, pageParam) == messages[pageParam * PER_PAGE..]
    decreases |messages| - pageParam * PER_PAGE
  {
    var start := pageParam * PER_PAGE;
    var p := MessagesPage(messages, pageParam);
    if p.nextPage.Some? {
      PagesCoverAll(messages, pageParam + 1);
      assert messages[start..] == messages[start..start + PER_PAGE] + messages[start + PER_PAGE..];
    }
  }

  // ---------------------------------------------------------------- list entries

  datatype EntryRole = UserEntry | AssistantEntry

  /** A cached message: the `Message` fields plus the `isStreaming` flag stream entries carry. */
  datatype ChatEntry = ChatEntry(id: string, content: string, role: EntryRole, timestamp: nat,
                                 conversationId: string, isStreaming: bool)

  /** The `old = []` default of every updater. */
  function CurrentOr(cached: Option<seq<ChatEntry>>): seq<ChatEntry> {
    if cached.Some? then cached.value else []
  }

  /** The updater of `onMutate`: the optimistic user message goes last. */
  function AppendOptimistic(cached: Option<seq<ChatEntry>>, e: ChatEntry): (r: seq<ChatEntry>)
    ensures |r| == |CurrentOr(cached)| + 1
    ensures r[..|r| - 1] == CurrentOr(cached) && r[|r| - 1] == e
  {
    CurrentOr(cached) + [e]
  }

  /**
   * `onError`: `context?.previousMessages` is restored when it is an array (an empty one
   * included, since `[]` is truthy); when nothing was cached before, the current list stays.
   */
  function Rollback(current: Option<seq<ChatEntry>>, previous: Option<seq<ChatEntry>>): (r: Option<seq<ChatEntry>>)
    ensures previous.Some? ==> r == previous
    ensures previous.None? ==> r == current
  {
    if previous.Some? then previous else current
  }

  /**
   * An optimistic insert followed by a rollback restores the list that was cached; when no list
   * was cached, the optimistic message is left behind on its own.
   */
  lemma RollbackUndoesInsert(cached: Option<seq<ChatEntry>>, e: ChatEntry)
    ensures cached.Some? ==> Rollback(Some(AppendOptimistic(cached, e)), cached) == cached
    ensures cached.None? ==> Rollback(Some(AppendOptimistic(cached, e)), cached) == Some([e])
  {
  }

  // ---------------------------------------------------------------- stream reducers

  predicate IsStreamingAssistant(list: seq<ChatEntry>) {
    |list| > 0 && list[|list| - 1].role == AssistantEntry && list[|list| - 1].isStreaming
  }

  /**
   * The per-chunk updater of `useStreamMessage`: a streaming assistant entry at the end gets the
   * accumulated text; otherwise a new streaming assistant entry with that text is appended.
   */
  function Upsert(list: seq<ChatEntry>, full: string, streamId: string, now: nat, conversationId: string)
    : (r: seq<ChatEntry>)
    ensures IsStreamingAssistant(r) && r[|r| - 1].content == full
    ensures IsStreamingAssistant(list) ==>
              |r| == |list| && r[..|r| - 1] == list[..|list| - 1]
              && r[|r| - 1] == list[|list| - 1].(content := full)
    ensures !IsStreamingAssistant(list) ==>
              |r| == |list| + 1 && r[..|list|] == list
              && r[|list|] == ChatEntry(streamId, full, AssistantEntry, now, conversationId, true)
  {
    if IsStreamingAssistant(list) then
      list[..|list| - 1] + [list[|list| - 1].(content := full)]
    else
      list + [ChatEntry(streamId, full, AssistantEntry, now, conversationId, true)]
  }

  /** Later chunks only rewrite the entry the first chunk created: the list grows by one at most. */
  lemma UpsertAgain(list: seq<ChatEntry>, f1: string, f2: string, streamId: string, now: nat, conversationId: string)
    ensures Upsert(Upsert(list, f1, streamId, now, conversationId), f2, streamId, now, conversationId)
         == Upsert(list, f2, streamId, now, conversationId)
  {
    var once := Upsert(list, f1, streamId, now, conversationId);
    assert once[..|once| - 1] == if IsStreamingAssistant(list) then list[..|list| - 1] else list;
  }

  /**
   * The finishing updater: a streaming last entry (of either role) loses its flag and keeps its
   * content; otherwise the list is unchanged.
   */
  function Finalize(list: seq<ChatEntry>): (r: seq<ChatEntry>)
    ensures |r| == |list| && (|list| > 0 ==> r[..|r| - 1] == list[..|list| - 1])
    ensures |list| > 0 && list[|list| - 1].isStreaming ==> r[|r| - 1] == list[|list| - 1].(isStreaming := false)
    ensures !(|list| > 0 && list[|list| - 1].isStreaming) ==> r == list
    ensures |r| > 0 ==> !r[|r| - 1].isStreaming
  {
    if |list| > 0 && list[|list| - 1].isStreaming then
      list[..|list| - 1] + [list[|list| - 1].(isStreaming := false)]
    else list
  }

  lemma FinalizeIdempotent(list: seq<ChatEntry>)
    ensures Finalize(Finalize(list)) == Finalize(list)
  {
  }

  // ---------------------------------------------------------------- stream accumulation

  /** What the hook reads from each yielded value: `chunk.content` when it is present. */
  datatype StreamChunk = StreamChunk(content: Option<string>)

  /** `chunk.content || ''`. */
  function ChunkText(c: StreamChunk): string {
    if c.content.Some? then c.content.value else ""
  }

  /** The accumulated `fullResponse` after `chunks`. */
  function ReceivedText(chunks: seq<StreamChunk>): string {
    if chunks == [] then "" else ReceivedText(chunks[..|chunks| - 1]) + ChunkText(chunks[|chunks| - 1])
  }

  /** The list after the loop of `useStreamMessage` has upserted every chunk. */
  function AfterChunks(list: seq<ChatEntry>, chunks: seq<StreamChunk>, streamId: string, now: nat, conversationId: string)
    : seq<ChatEntry>
  {
    if chunks == [] then list else Upsert(list, ReceivedText(chunks), streamId, now, conversationId)
  }

  lemma AfterChunksStep(start: seq<ChatEntry>, chunks: seq<StreamChunk>, i: nat, streamId: string, now: nat, id: string)
    requires i < |chunks|
    ensures ReceivedText(chunks[..i + 1]) == ReceivedText(chunks[..i]) + ChunkText(chunks[i])
    ensures AfterChunks(start, chunks[..i + 1], streamId, now, id)
         == Upsert(AfterChunks(start, chunks[..i], streamId, now, id), ReceivedText(chunks[..i + 1]), streamId, now, id)
  {
    assert chunks[..i + 1][..i] == chunks[..i];
    if i > 0 {
      UpsertAgain(start, ReceivedText(chunks[..i]), ReceivedText(chunks[..i + 1]), streamId, now, id);
    }
  }

  /** Two caches that agree on every key but `key`. */
  ghost predicate SameExcept(a: map<Key, seq<ChatEntry>>, b: map<Key, seq<ChatEntry>>, key: Key) {
    forall k :: k != key ==> (k in a <==> k in b) && (k in a ==> a[k] == b[k])
  }

  lemma SameExceptUpdate(a: map<Key, seq<ChatEntry>>, b: map<Key, seq<ChatEntry>>, key: Key, v: seq<ChatEntry>)
    requires SameExcept(a, b, key)
    ensures a[key := v] == b[key := v]
  {
  }

  /**
   * The query cache as the hooks use it. `streamId` and `now` stand for the `Date.now()`
   * identifiers and timestamps the updaters create.
   */
  class QueryCache {
    var lists: map<Key, seq<ChatEntry>>

    constructor (lists: map<Key, seq<ChatEntry>>)
      ensures this.lists == lists
    {
      this.lists := lists;
    }

    function Read(key: Key): Option<seq<ChatEntry>>
      reads this
    {
      if key in lists then Some(lists[key]) else None
    }

    /**
     * `onMutate` of `useSendMessage`: remembers the cached list and appends the optimistic user
     * message to it.
     */
    method OptimisticSend(conversationId: string, content: string, tempId: string, now: nat)
      returns (previous: Option<seq<ChatEntry>>)
      modifies this
      ensures previous == old(Read(MessagesKey(conversationId)))
      ensures lists == old(lists)[MessagesKey(conversationId) :=
                AppendOptimistic(previous, ChatEntry(tempId, content, UserEntry, now, conversationId, false))]
    {
      var key := MessagesKey(conversationId);
      previous := Read(key);
      lists := lists[key := AppendOptimistic(previous, ChatEntry(tempId, content, UserEntry, now, conversationId, false))];
    }

    /** `onError` of `useSendMessage`. */
    method RollbackSend(conversationId: string, previous: Option<seq<ChatEntry>>)
      modifies this
      ensures previous.Some? ==> lists == old(lists)[MessagesKey(conversationId) := previous.value]
      ensures previous.None? ==> lists == old(lists)
    {
      if previous.Some? {
        lists := lists[MessagesKey(conversationId) := previous.value];
      }
    }

    /**
     * `mutationFn` of `useStreamMessage`, given what the stream yields (or the error it throws
     * before yielding). Every chunk adds its text to `fullResponse` and rewrites the messages
     * list; then the last entry is finalised, and `fullResponse` is the result.
     */
    method StreamMessage(conversationId: Option<string>, received: Result<seq<StreamChunk>, string>,
                         streamId: string, now: nat) returns (r: Result<string, string>)
      modifies this
      ensures !Truthy(conversationId) ==> r == Failure("No conversation selected") && lists == old(lists)
      ensures Truthy(conversationId) && received.Failure? ==> r == Failure(received.error) && lists == old(lists)
      ensures Truthy(conversationId) && received.Success? ==>
                var key := MessagesKey(conversationId.value);
                r == Success(ReceivedText(received.value))
                && lists == old(lists)[key := Finalize(AfterChunks(CurrentOr(old(Read(key))), received.value,
                                                                streamId, now, conversationId.value))]
    {
      if !Truthy(conversationId) {
        return Failure("No conversation selected");
      }
      if received.Failure? {
        return Failure(received.error);
      }
      var id := conversationId.value;
      var key := MessagesKey(id);
      ghost var before := lists;
      var fullResponse := ApplyChunks(key, received.value, streamId, now, id);
      SameExceptUpdate(lists, before, key, Finalize(CurrentOr(Read(key))));
      lists := lists[key := Finalize(CurrentOr(Read(key)))];
      r := Success(fullResponse);
    }

    /** The `for await` loop: each chunk grows `fullResponse` and upserts it into the cached list. */
    method ApplyChunks(key: Key, chunks: seq<StreamChunk>, streamId: string, now: nat, id: string)
      returns (fullResponse: string)
      modifies this
      ensures fullResponse == ReceivedText(chunks)
      ensures chunks == [] ==> lists == old(lists)
      ensures SameExcept(lists, old(lists), key)
      ensures CurrentOr(Read(key)) == AfterChunks(CurrentOr(old(Read(key))), chunks, streamId, now, id)
    {
      ghost var start := CurrentOr(Read(key));
      ghost var before := lists;
      fullResponse := "";
      var i := 0;
      while i < |chunks|
        invariant 0 <= i <= |chunks|
        invariant fullResponse == ReceivedText(chunks[..i])
        invariant i == 0 ==> lists == before
        invariant SameExcept(lists, before, key)
        invariant CurrentOr(Read(key)) == AfterChunks(start, chunks[..i], streamId, now, id)
      {
        AfterChunksStep(start, chunks, i, streamId, now, id);
        fullResponse := fullResponse + ChunkText(chunks[i]);
        PutStreaming(key, fullResponse, streamId, now, id);
        i := i + 1;
      }
      assert chunks[..i] == chunks;
    }

    /** One `setQueryData` call of the loop: the list under `key` becomes the upsert of `full`. */
    method PutStreaming(key: Key, full: string, streamId: string, now: nat, id: string)
      modifies this
      ensures lists == old(lists)[key := Upsert(CurrentOr(old(Read(key))), full, streamId, now, id)]
      ensures SameExcept(lists, old(lists), key)
      ensures CurrentOr(Read(key)) == Upsert(CurrentOr(old(Read(key))), full, streamId, now, id)
    {
      var current := CurrentOr(Read(key));
      lists := lists[key := Upsert(current, full, streamId, now, id)];
    }
  }

  // ---------------------------------------------------------------- from server to cache

  /** The hook's view of a parsed server event: its `content` field. */
  function ChunkOf(e: Outbound): StreamChunk {
    match e
    case DeltaEvent(c) => StreamChunk(Some(c))
    case DoneMarker => StreamChunk(None)
    case FinalEvent(_, c) => StreamChunk(Some(c))
  }

  lemma ReceivedTextSnoc(cs: seq<StreamChunk>, c: StreamChunk)
    ensures ReceivedText(cs + [c]) == ReceivedText(cs) + ChunkText(c)
  {
    assert (cs + [c])[..|cs|] == cs;
  }

  lemma ViewsSnoc<T>(view: Outbound -> T, a: seq<Outbound>, e: Outbound)
    ensures Views(view, a + [e]) == Views(view, a) + [view(e)]
  {
    var l, r := Views(view, a + [e]), Views(view, a) + [view(e)];
    assert forall k :: 0 <= k < |l| ==> l[k] == r[k];
  }

  lemma {:induction false} ReceivedDeltas(events: seq<Outbound>)
    requires forall e :: e in events ==> e.DeltaEvent?
    ensures ReceivedText(Views(ChunkOf, events)) == DeltaText(events)
  {
    if events != [] {
      var init := events[..|events| - 1];
      var last := events[|events| - 1];
      assert events == init + [last];
      assert last in events;
      assert forall e :: e in init ==> e in events;
      ReceivedDeltas(init);
      ViewsSnoc(ChunkOf, init, last);
      ReceivedTextSnoc(Views(ChunkOf, init), ChunkOf(last));
      DeltaTextAppend(init, [last]);
      assert DeltaText([last]) == last.content;
    }
  }

  /**
   * The text the stream hook accumulates from the stream handler's body: with no provider
   * `[DONE]`, every delta arrives and then the final event, whose content is the whole response
   * again, so `fullResponse` is the response twice over.
   */
  lemma TextDoubledWithoutDone(written: seq<Outbound>, id: nat)
    requires forall e :: e in written ==> e.DeltaEvent?
    ensures var full := DeltaText(written);
            ReceivedText(Views(ChunkOf, UntilDone(written + [FinalEvent(id, full), DoneMarker]))) == full + full
  {
    var full := DeltaText(written);
    StreamBodyAsReceived(written, id, full);
    ReceivedDeltas(written);
    var got := written + [FinalEvent(id, full)];
    assert Views(ChunkOf, got)[..|got| - 1] == Views(ChunkOf, written);
  }
}
