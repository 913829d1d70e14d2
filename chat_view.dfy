/**
 * The message list of the chat screen, client/src/components/chat/chat-interface.tsx: the
 * `messages` state, replaced when the initial messages change and updated by the three steps of
 * `handleSendMessage` (optimistic insert, success finalise, failure filter), and the rule for
 * where the typing indicator is shown.
 */
module ChatView {
  import opened Text
  import opened ChatCache

  /** The success updater: only the last entry changes, and only its streaming flag. */
  function MarkLastDone(prev: seq<ChatEntry>): (r: seq<ChatEntry>)
    ensures |r| == |prev|
    ensures forall k :: 0 <= k < |prev| - 1 ==> r[k] == prev[k]
    ensures |prev| > 0 ==> r[|r| - 1] == prev[|prev| - 1].(isStreaming := false)
  {
    seq(|prev|, k requires 0 <= k < |prev| => if k == |prev| - 1 then prev[k].(isStreaming := false) else prev[k])
  }

  /** The failure updater `prev.filter((msg) => !msg.isStreaming)`. */
  function DropStreaming(prev: seq<ChatEntry>): (r: seq<ChatEntry>)
    ensures |r| <= |prev|
    ensures forall e :: e in r <==> e in prev && !e.isStreaming
  {
    if prev == [] then []
    else
      var rest := DropStreaming(prev[1..]);
      if prev[0].isStreaming then rest else [prev[0]] + rest
  }

  /** Filtering keeps the relative order: it distributes over concatenation. */
  lemma {:induction false} DropStreamingAppend(a: seq<ChatEntry>, b: seq<ChatEntry>)
    ensures DropStreaming(a + b) == DropStreaming(a) + DropStreaming(b)
  {
    if a == [] {
      assert a + b == b;
    } else {
      assert (a + b)[0] == a[0];
      assert (a + b)[1..] == a[1..] + b;
      DropStreamingAppend(a[1..], b);
    }
  }

  /** The two entries the optimistic insert adds: the user's message and an empty streaming reply. */
  function UserEntryOf(content: string, id: string, now: nat): ChatEntry {
    ChatEntry(id, content, UserEntry, now, "", false)
  }

  function PendingReply(botId: string, now: nat): ChatEntry {
    ChatEntry(botId, "", AssistantEntry, now, "", true)
  }

  /** How the send ends: without a callback, with the callback resolving, or with it rejecting. */
  datatype Delivery = NoCallback | Delivered | DeliveryFailed

  /** The component's `messages` state. */
  class ChatView {
    var messages: seq<ChatEntry>

    constructor (initial: seq<ChatEntry>)
      ensures messages == initial
    {
      messages := initial;
    }

    /** The effect on `initialMessages`: the list is replaced wholesale. */
    method SyncInitial(initial: seq<ChatEntry>)
      modifies this
      ensures messages == initial
    {
      messages := initial;
    }

    /**
     * The first step of `handleSendMessage`: content that is all whitespace is ignored;
     * otherwise the user's message and an empty streaming reply are appended.
     */
    method BeginSend(content: string, messageId: string, botId: string, now: nat) returns (started: bool)
      modifies this
      ensures started <==> !AllWhitespace(content)
      ensures !started ==> messages == old(messages)
      ensures started ==> messages == old(messages) + [UserEntryOf(content, messageId, now), PendingReply(botId, now)]
    {
      TrimEmptyIffAllWhitespace(content);
      if Trim(content) == "" {
        return false;
      }
      messages := messages + [UserEntryOf(content, messageId, now), PendingReply(botId, now)];
      return true;
    }

    method CompleteSend()
      modifies this
      ensures messages == MarkLastDone(old(messages))
    {
      messages := MarkLastDone(messages);
    }

    method FailSend()
      modifies this
      ensures messages == DropStreaming(old(messages))
    {
      messages := DropStreaming(messages);
    }

    /** `handleSendMessage` run to the end without other updates in between. */
    method HandleSendMessage(content: string, messageId: string, botId: string, now: nat, delivery: Delivery)
      modifies this
      ensures AllWhitespace(content) ==> messages == old(messages)
      ensures !AllWhitespace(content) && delivery != DeliveryFailed ==>
                messages == MarkLastDone(old(messages) + [UserEntryOf(content, messageId, now), PendingReply(botId, now)])
      ensures !AllWhitespace(content) && delivery == DeliveryFailed ==>
                messages == DropStreaming(old(messages) + [UserEntryOf(content, messageId, now), PendingReply(botId, now)])
    {
      var started := BeginSend(content, messageId, botId, now);
      if !started {
        return;
      }
      if delivery == DeliveryFailed {
        FailSend();
      } else {
        CompleteSend();
      }
    }
  }

  /**
   * After a successful send the list is the old one plus the user's message and the reply
   * entry, which is no longer streaming.
   */
  lemma SendThenComplete(prev: seq<ChatEntry>, u: ChatEntry, bot: ChatEntry)
    ensures MarkLastDone(prev + [u, bot]) == prev + [u, bot.(isStreaming := false)]
  {
    var r := MarkLastDone(prev + [u, bot]);
    assert forall k :: 0 <= k < |r| ==> r[k] == (prev + [u, bot.(isStreaming := false)])[k];
  }

  /**
   * After a failed send the user's message stays and the pending reply goes, and so does every
   * other entry still flagged as streaming.
   */
  lemma SendThenFail(prev: seq<ChatEntry>, content: string, messageId: string, botId: string, now: nat)
    ensures DropStreaming(prev + [UserEntryOf(content, messageId, now), PendingReply(botId, now)])
         == DropStreaming(prev) + [UserEntryOf(content, messageId, now)]
  {
    var u, b := UserEntryOf(content, messageId, now), PendingReply(botId, now);
    DropStreamingAppend(prev, [u, b]);
    assert [u, b][1..] == [b] && [b][1..] == [];
  }

  /**
   * The `isStreaming` prop passed to each rendered message: the screen is streaming, the entry is
   * an assistant message, and it is the last entry (the element identity test is modelled by
   * position).
   */
  function Indicators(messages: seq<ChatEntry>, streaming: bool): (flags: seq<bool>)
    ensures |flags| == |messages|
  {
    seq(|messages|, k requires 0 <= k < |messages| =>
      streaming && messages[k].role == AssistantEntry && k == |messages| - 1)
  }

  /**
   * The indicator is on at most one entry, only on the last one and only when that is an
   * assistant message; while streaming right after an optimistic insert it is on the pending
   * reply.
   */
  lemma IndicatorOnlyOnLast(messages: seq<ChatEntry>, streaming: bool, i: nat, j: nat)
    requires i < j < |messages|
    ensures !(Indicators(messages, streaming)[i] && Indicators(messages, streaming)[j])
    ensures !Indicators(messages, streaming)[i]
    ensures Indicators(messages, streaming)[|messages| - 1] <==> streaming && messages[|messages| - 1].role == AssistantEntry
  {
  }

  lemma IndicatorOnPendingReply(prev: seq<ChatEntry>, content: string, messageId: string, botId: string, now: nat)
    ensures var m := prev + [UserEntryOf(content, messageId, now), PendingReply(botId, now)];
            Indicators(m, true)[|m| - 1] && !Indicators(m, true)[|m| - 2] && !Indicators(m, false)[|m| - 1]
  {
  }
}
