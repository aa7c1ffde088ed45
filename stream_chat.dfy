/**
 * The chat hook that drives streaming (hooks/use-stream-chat.ts).
 *
 * The hook reads a chat's stored messages and sends requests to the backend:
 * add a message, create a chat, open or cancel a stream, generate a title.
 * The backend is not part of this model. Each request is recorded in the
 * order the hook makes it, and the id of a created chat comes in as a
 * parameter.
 */
module StreamChat {
  import opened Wrappers
  import opened JsString

  /** A stored message as the messages query returns it; `role` is the stored text. */
  datatype StoredMessage = StoredMessage(id: string, role: string, content: string, streamId: Option<string>)

  /** A message as the hook hands it to the page. */
  datatype ChatMessage = ChatMessage(id: string, role: string, content: string, streamId: Option<string>)

  /** A request to the backend. */
  datatype Request =
    | AddMessage(chatId: string, role: string, content: string)
    | CreateStream(chatId: string, model: string, reasoningEffort: Option<string>)
    | CreateChat(title: string)
    | GenerateTitle(message: string, model: string)
    | CancelStream(chatId: string)

  const DefaultModel: string := "gpt-5.1"
  const TempTitleLength: nat := 50

  /** A JavaScript string is truthy when it is present and not empty. */
  predicate Present(s: Option<string>) {
    s.Some? && s.value != []
  }

  /** An assistant message waiting for its stream: it has a stream id and no content yet. */
  predicate Waiting(m: StoredMessage) {
    m.role == "assistant" && Present(m.streamId) && m.content == []
  }

  /** `isStreaming` over the query result; `None` while the messages have not loaded. */
  function IsStreaming(messages: Option<seq<StoredMessage>>): bool {
    messages.Some? && AnyWaiting(messages.value)
  }

  /** `messages.some(Waiting)`. */
  function AnyWaiting(ms: seq<StoredMessage>): bool {
    if ms == [] then false else Waiting(ms[0]) || AnyWaiting(ms[1..])
  }

  /** The chat is streaming exactly when its messages have loaded and one of them is a reply still waiting. */
  lemma {:induction false} AnyWaitingSpec(ms: seq<StoredMessage>)
    ensures AnyWaiting(ms) <==> exists i :: 0 <= i < |ms| && Waiting(ms[i])
  {
    if ms != [] {
      AnyWaitingSpec(ms[1..]);
      if !Waiting(ms[0]) && exists i :: 0 <= i < |ms| && Waiting(ms[i]) {
        var i :| 0 <= i < |ms| && Waiting(ms[i]);
        assert ms[1..][i - 1] == ms[i];
      }
      if AnyWaiting(ms[1..]) {
        var i :| 0 <= i < |ms[1..]| && Waiting(ms[1..][i]);
        assert ms[i + 1] == ms[1..][i];
      }
    }
  }

  /** The messages the hook returns: the query's, in order, with their four fields. */
  function Messages(stored: Option<seq<StoredMessage>>): (r: seq<ChatMessage>)
    ensures stored.None? ==> r == []
    ensures stored.Some? ==> |r| == |stored.value| && forall i :: 0 <= i < |r| ==>
      var m := stored.value[i];
      r[i] == ChatMessage(m.id, m.role, m.content, m.streamId)
  {
    var ms := if stored.Some? then stored.value else [];
    seq(|ms|, i requires 0 <= i < |ms| => ChatMessage(ms[i].id, ms[i].role, ms[i].content, ms[i].streamId))
  }

  /** History is loading exactly when a chat is selected and its messages have not come. */
  function IsLoadingHistory(chatId: Option<string>, stored: Option<seq<StoredMessage>>): bool {
    chatId.Some? && stored.None?
  }

  /** `content.slice(0, 50) + (content.length > 50 ? "..." : "")`. */
  function TempTitle(content: string): string {
    Ellipsis(content, TempTitleLength)
  }

  /** The hook for one chat, and the requests it has sent. */
  class Hook {
    const chatId: Option<string>
    const model: string
    const reasoningEffort: Option<string>
    var stored: Option<seq<StoredMessage>>
    var sent: seq<Request>

    constructor (chatId: Option<string>, model: Option<string>, reasoningEffort: Option<string>,
                 stored: Option<seq<StoredMessage>>)
      ensures this.chatId == chatId && this.reasoningEffort == reasoningEffort && this.stored == stored
      ensures this.model == if model.Some? then model.value else DefaultModel
      ensures sent == []
    {
      this.chatId := chatId;
      this.model := if model.Some? then model.value else DefaultModel;
      this.reasoningEffort := reasoningEffort;
      this.stored := stored;
      sent := [];
    }

    function Streaming(): bool
      reads this
    {
      IsStreaming(stored)
    }

    /** `sendMessage`: nothing without a chat or while streaming; else the user message, then the stream. */
    method SendMessage(content: string)
      modifies this`sent
      ensures !Present(chatId) || Streaming() ==> sent == old(sent)
      ensures Present(chatId) && !Streaming() ==>
        sent == old(sent) + [AddMessage(chatId.value, "user", content), CreateStream(chatId.value, model, reasoningEffort)]
    {
      if !Present(chatId) || Streaming() {
        return;
      }
      sent := sent + [AddMessage(chatId.value, "user", content)];
      sent := sent + [CreateStream(chatId.value, model, reasoningEffort)];
    }

    /**
     * `createChatAndSend`: refuses while streaming; otherwise creates the chat
     * under a temporary title, adds the user message, starts title generation
     * without waiting for it, opens the stream and returns the new chat's id.
     */
    method CreateChatAndSend(content: string, newChatId: string) returns (r: Result)
      modifies this`sent
      ensures Streaming() ==> r == Failure(StreamInProgress) && sent == old(sent)
      ensures !Streaming() ==> r == Success(newChatId) && sent == old(sent) + [
        CreateChat(TempTitle(content)),
        AddMessage(newChatId, "user", content),
        GenerateTitle(content, model),
        CreateStream(newChatId, model, reasoningEffort)]
    {
      if Streaming() {
        return Failure(StreamInProgress);
      }
      var tempTitle := TempTitle(content);
      sent := sent + [CreateChat(tempTitle)];
      sent := sent + [AddMessage(newChatId, "user", content)];
      sent := sent + [GenerateTitle(content, model)];
      sent := sent + [CreateStream(newChatId, model, reasoningEffort)];
      return Success(newChatId);
    }

    /** `stop`: cancels the stream only for a selected chat that is streaming. */
    method Stop()
      modifies this`sent
      ensures Present(chatId) && Streaming() ==> sent == old(sent) + [CancelStream(chatId.value)]
      ensures !(Present(chatId) && Streaming()) ==> sent == old(sent)
    {
      if !Present(chatId) || !Streaming() {
        return;
      }
      sent := sent + [CancelStream(chatId.value)];
    }
  }

  datatype SendError = StreamInProgress
  datatype Result = Success(id: string) | Failure(error: SendError)

  /** The error text `createChatAndSend` throws. */
  function ErrorMessage(f: SendError): string {
    match f
    case StreamInProgress => "Stream in progress"
  }

  // ---------------------------------------------------------------------
  // Properties
  // ---------------------------------------------------------------------

  /** Nothing streams while the messages are loading, and a reply with content never counts as streaming. */
  lemma StreamingNeedsWaitingReply(messages: Option<seq<StoredMessage>>)
    ensures messages.None? ==> !IsStreaming(messages)
    ensures messages.Some? && (forall i :: 0 <= i < |messages.value| ==> messages.value[i].content != []) ==>
      !IsStreaming(messages)
  {
    if messages.Some? {
      AnyWaitingSpec(messages.value);
    }
  }

  /** Appending a waiting reply makes the chat stream; filling its content in stops it if no other waits. */
  lemma WaitingReplyStreams(ms: seq<StoredMessage>, reply: StoredMessage)
    requires Waiting(reply)
    ensures IsStreaming(Some(ms + [reply]))
    ensures !AnyWaiting(ms) ==> !IsStreaming(Some(ms + [reply.(content := "done")]))
  {
    AnyWaitingSpec(ms + [reply]);
    assert (ms + [reply])[|ms|] == reply;
    if !AnyWaiting(ms) {
      var done := ms + [reply.(content := "done")];
      AnyWaitingSpec(ms);
      AnyWaitingSpec(done);
      forall i | 0 <= i < |done| ensures !Waiting(done[i]) {
        if i < |ms| { assert done[i] == ms[i]; }
      }
    }
  }

  /** A temporary title keeps a short message whole and cuts a long one to 50 characters and "...". */
  lemma TempTitleShape(content: string)
    ensures |content| <= TempTitleLength ==> TempTitle(content) == content
    ensures |content| > TempTitleLength ==>
      TempTitle(content) == content[..TempTitleLength] + "..." && |TempTitle(content)| == TempTitleLength + 3
  {
    EllipsisSpec(content, TempTitleLength);
  }

  /** The loading flag needs a chat: without one there is no history to load. */
  lemma LoadingNeedsChat(chatId: string, stored: Option<seq<StoredMessage>>)
    ensures !IsLoadingHistory(None, stored)
    ensures IsLoadingHistory(Some(chatId), None)
  {
  }
}
