/**
 * The app's chat page (app/chat-page.tsx): the sidebar's date groups, the
 * conversion of stored history, the assistant message being streamed, the
 * messages shown, and the guard against submitting twice.
 *
 * The chat transport and its status come from the AI SDK, which is not part
 * of this model: its status is one of submitted, streaming, ready and
 * error, and its messages are lists of parts. The clock is an input.
 */
module AppChatPage {
  import opened Wrappers
  import opened JsString
  import opened Grouping
  import ChatStore
  import ChatPage

  // ---------------------------------------------------------------------
  // Sidebar groups
  // ---------------------------------------------------------------------

  const OlderLabel: string := "Older"

  /** A chat as the sidebar lists it; times in milliseconds. */
  datatype SidebarChat = SidebarChat(id: string, title: string, createdAt: int, updatedAt: int, forkCount: Option<nat>)

  /** The group of a chat updated at `updatedAt`, against the midnight `today` starts at. */
  function DateGroup(updatedAt: int, today: int): string {
    if updatedAt >= today then ChatPage.TodayLabel
    else if updatedAt >= today - 86400000 then ChatPage.YesterdayLabel
    else if updatedAt >= today - 604800000 then ChatPage.WeekLabel
    else if updatedAt >= today - 2592000000 then ChatPage.MonthLabel
    else OlderLabel
  }

  function DateKey(today: int): SidebarChat -> string {
    (c: SidebarChat) => DateGroup(c.updatedAt, today)
  }

  /** The component sidebar's clock with every month label replaced by "Older". */
  function OlderClock(today: int): ChatPage.Clock {
    ChatPage.Clock(today, (t: int) => OlderLabel)
  }

  /** `groupChatsByDate`: the object's keys, in insertion order, and its arrays. */
  method GroupChatsByDate(chats: seq<SidebarChat>, today: int)
    returns (keys: seq<string>, groups: map<string, seq<SidebarChat>>)
    ensures keys == KeysOf(chats, DateKey(today)) && groups == GroupMap(chats, DateKey(today))
  {
    ghost var key := DateKey(today);
    keys := [];
    groups := map[];
    for i := 0 to |chats|
      invariant keys == KeysOf(chats[..i], key) && groups == GroupMap(chats[..i], key)
    {
      var chat := chats[i];
      var group := DateGroup(chat.updatedAt, today);
      assert chats[..i + 1] == chats[..i] + [chat];
      assert group == key(chat);
      GroupStep(chats[..i], chat, key);
      if group !in groups {
        keys := keys + [group];
      }
      var members := if group in groups then groups[group] else [];
      groups := groups[group := members + [chat]];
    }
    assert chats[..|chats|] == chats;
  }

  /**
   * The thresholds are one, seven and thirty days before midnight, as in the
   * component sidebar: a chat's group is the one that sidebar gives it, with
   * every month folded into "Older".
   */
  lemma DateGroupAgrees(updatedAt: int, today: int)
    ensures DateGroup(updatedAt, today) == ChatPage.TimeSegment(updatedAt, OlderClock(today))
    ensures ChatPage.Rank(DateGroup(updatedAt, today)) == ChatPage.Bucket(updatedAt, OlderClock(today))
  {
  }

  /** Every chat is in exactly the group of its date, each group is non-empty, and there are five labels at most. */
  lemma DateGroupsPartition(chats: seq<SidebarChat>, today: int)
    ensures var groups := GroupMap(chats, DateKey(today));
      (forall k :: k in groups ==> groups[k] != []
                                   && k in [ChatPage.TodayLabel, ChatPage.YesterdayLabel, ChatPage.WeekLabel,
                                            ChatPage.MonthLabel, OlderLabel])
      && (forall c, k :: c in chats && k in groups ==> (c in groups[k] <==> DateGroup(c.updatedAt, today) == k))
      && (forall c :: c in chats ==> DateGroup(c.updatedAt, today) in groups)
  {
    Partition(chats, DateKey(today));
    KeysOfSpec(chats, DateKey(today));
  }

  /** Each label comes strictly after the ones before it in Today, Yesterday, Previous 7 days, Previous 30 days, Older. */
  predicate InDateOrder(keys: seq<string>) {
    forall i, j :: 0 <= i < j < |keys| ==> ChatPage.Rank(keys[i]) < ChatPage.Rank(keys[j])
  }

  /**
   * The object's keys come in insertion order; for chats listed newest
   * first, that is Today, Yesterday, Previous 7 days, Previous 30 days,
   * Older, without the empty ones.
   */
  lemma {:induction false} NewestFirstGivesDateOrder(chats: seq<SidebarChat>, today: int)
    requires forall i, j :: 0 <= i < j < |chats| ==> chats[i].updatedAt >= chats[j].updatedAt
    ensures InDateOrder(KeysOf(chats, DateKey(today)))
  {
    if chats != [] {
      var init := chats[..|chats| - 1];
      var last := chats[|chats| - 1];
      var key := DateKey(today);
      var keys := KeysOf(init, key);
      NewestFirstGivesDateOrder(init, today);
      var k := DateGroup(last.updatedAt, today);
      if k !in keys {
        KeysOfSpec(init, key);
        forall i | 0 <= i < |keys| ensures ChatPage.Rank(keys[i]) < ChatPage.Rank(k) {
          assert keys[i] in keys;
          var c :| c in init && key(c) == keys[i];
          var p :| 0 <= p < |init| && init[p] == c;
          assert chats[p] == c;
          ChatPage.BucketMonotone(last.updatedAt, c.updatedAt, OlderClock(today));
          DateGroupAgrees(c.updatedAt, today);
          DateGroupAgrees(last.updatedAt, today);
        }
        var all := keys + [k];
        assert KeysOf(chats, key) == all;
        forall i, j | 0 <= i < j < |all| ensures ChatPage.Rank(all[i]) < ChatPage.Rank(all[j]) {
          if j == |keys| {
            assert all[i] == keys[i] && all[j] == k;
          } else {
            assert all[i] == keys[i] && all[j] == keys[j];
          }
        }
      } else {
        assert KeysOf(chats, key) == keys;
      }
    }
  }

  // ---------------------------------------------------------------------
  // History
  // ---------------------------------------------------------------------

  /** A stored message as the paginated query returns it, newest first. */
  datatype StoredMessage = StoredMessage(id: string, role: ChatStore.Role, content: string, createdAt: int)

  function ToMessage(m: StoredMessage): ChatStore.Message {
    ChatStore.Message(m.id, m.role, m.content, None, m.createdAt, None)
  }

  /** `historyConverted`: the stored messages reversed, each converted. */
  function HistoryConverted(stored: seq<StoredMessage>): (r: seq<ChatStore.Message>)
    ensures |r| == |stored|
  {
    if stored == [] then [] else HistoryConverted(stored[1..]) + [ToMessage(stored[0])]
  }

  /** The history holds the stored messages in the opposite order. */
  lemma {:induction false} HistoryReversed(stored: seq<StoredMessage>)
    ensures forall i :: 0 <= i < |stored| ==> HistoryConverted(stored)[i] == ToMessage(stored[|stored| - 1 - i])
  {
    if stored != [] {
      HistoryReversed(stored[1..]);
    }
  }

  /** Messages fetched newest first are shown oldest first. */
  lemma NewestFirstShownOldestFirst(stored: seq<StoredMessage>)
    requires forall i, j :: 0 <= i < j < |stored| ==> stored[i].createdAt >= stored[j].createdAt
    ensures var h := HistoryConverted(stored);
      forall i, j :: 0 <= i < j < |h| ==> h[i].createdAt <= h[j].createdAt
  {
    HistoryReversed(stored);
  }

  /** Loading an older page after the current one puts its messages before the current history. */
  lemma {:induction false} OlderPageGoesFirst(current: seq<StoredMessage>, older: seq<StoredMessage>)
    ensures HistoryConverted(current + older) == HistoryConverted(older) + HistoryConverted(current)
  {
    if current == [] {
      assert current + older == older;
    } else {
      assert (current + older)[0] == current[0];
      assert (current + older)[1..] == current[1..] + older;
      OlderPageGoesFirst(current[1..], older);
    }
  }

  // ---------------------------------------------------------------------
  // The assistant message being streamed
  // ---------------------------------------------------------------------

  /** A part of a message from the chat transport. */
  datatype Part = TextPart(text: string) | ReasoningPart(text: string) | OtherPart

  datatype UIMessage = UIMessage(id: string, role: string, parts: seq<Part>)

  /** `messages.find(m => m.role === "assistant")`. */
  function FirstAssistant(ms: seq<UIMessage>): Option<UIMessage> {
    if ms == [] then None else if ms[0].role == "assistant" then Some(ms[0]) else FirstAssistant(ms[1..])
  }

  /** The texts of the text parts, in order. */
  function Texts(parts: seq<Part>): seq<string> {
    if parts == [] then [] else (if parts[0].TextPart? then [parts[0].text] else []) + Texts(parts[1..])
  }

  /** The texts of the reasoning parts, in order. */
  function Reasonings(parts: seq<Part>): seq<string> {
    if parts == [] then [] else (if parts[0].ReasoningPart? then [parts[0].text] else []) + Reasonings(parts[1..])
  }

  /** `[...new Set(xs)]`: each text once, where it first occurs. */
  function Unique(xs: seq<string>): seq<string> {
    KeysOf(xs, (s: string) => s)
  }

  /** The last element, or "" for none. */
  function LastOr(xs: seq<string>): string {
    if xs == [] then "" else xs[|xs| - 1]
  }

  /** `streamingAssistant`, created at `now`. */
  function StreamingAssistant(ms: seq<UIMessage>, now: int): Option<ChatStore.Message> {
    var found := FirstAssistant(ms);
    if found.None? then None
    else
      var reasoning := LastOr(Reasonings(found.value.parts));
      Some(ChatStore.Message(found.value.id, ChatStore.Assistant, LastOr(Unique(Texts(found.value.parts))),
                             if reasoning == "" then None else Some(reasoning), now, None))
  }

  /** `find` returns the first assistant message, and nothing only when there is none. */
  lemma {:induction false} FirstAssistantSpec(ms: seq<UIMessage>)
    ensures FirstAssistant(ms).None? <==> forall i :: 0 <= i < |ms| ==> ms[i].role != "assistant"
    ensures FirstAssistant(ms).Some? ==>
      exists i :: (0 <= i < |ms| && ms[i] == FirstAssistant(ms).value && ms[i].role == "assistant"
                   && forall j :: 0 <= j < i ==> ms[j].role != "assistant")
  {
    if ms != [] && ms[0].role != "assistant" {
      FirstAssistantSpec(ms[1..]);
      assert forall i :: 1 <= i < |ms| ==> ms[i] == ms[1..][i - 1];
      if FirstAssistant(ms).Some? {
        var i :| 0 <= i < |ms[1..]| && ms[1..][i] == FirstAssistant(ms).value && ms[1..][i].role == "assistant"
          && forall j :: 0 <= j < i ==> ms[1..][j].role != "assistant";
        assert ms[i + 1] == ms[1..][i];
      }
    }
  }

  /** The text lists hold exactly the texts of their parts. */
  lemma {:induction false} TextsSpec(parts: seq<Part>)
    ensures forall t :: t in Texts(parts) <==> TextPart(t) in parts
    ensures forall t :: t in Reasonings(parts) <==> ReasoningPart(t) in parts
  {
    if parts != [] {
      TextsSpec(parts[1..]);
      assert parts == [parts[0]] + parts[1..];
    }
  }

  /**
   * The streamed message shows a text it holds, or "" when it has no text
   * part; its reasoning is the last reasoning part when there is one and it
   * is not empty.
   */
  lemma StreamingAssistantSpec(ms: seq<UIMessage>, now: int)
    ensures StreamingAssistant(ms, now).None? <==> FirstAssistant(ms).None?
    ensures StreamingAssistant(ms, now).Some? ==>
      var m := StreamingAssistant(ms, now).value;
      var parts := FirstAssistant(ms).value.parts;
      m.id == FirstAssistant(ms).value.id && m.role == ChatStore.Assistant && m.createdAt == now
      && (m.content == "" <==> Texts(parts) == [] || LastOr(Unique(Texts(parts))) == "")
      && (m.content != "" ==> TextPart(m.content) in parts)
      && (m.reasoning.Some? <==> Reasonings(parts) != [] && LastOr(Reasonings(parts)) != "")
      && (m.reasoning.Some? ==> ReasoningPart(m.reasoning.value) in parts)
  {
    if FirstAssistant(ms).Some? {
      var parts := FirstAssistant(ms).value.parts;
      var texts := Texts(parts);
      TextsSpec(parts);
      KeysOfSpec(texts, (s: string) => s);
      if texts == [] {
        assert Unique(texts) == [];
      } else {
        assert texts[|texts| - 1] in texts;
        assert Unique(texts) != [];
        var u := Unique(texts);
        assert u[|u| - 1] in u;
      }
      var rs := Reasonings(parts);
      if rs != [] {
        assert rs[|rs| - 1] in rs;
      }
    }
  }

  /** When the text parts are all different, the message shows the last one. */
  lemma {:induction false} UniqueOfDistinct(xs: seq<string>)
    requires forall i, j :: 0 <= i < j < |xs| ==> xs[i] != xs[j]
    ensures Unique(xs) == xs
  {
    if xs != [] {
      var init := xs[..|xs| - 1];
      UniqueOfDistinct(init);
      assert xs[|xs| - 1] !in init by {
        forall p | 0 <= p < |init| ensures init[p] != xs[|xs| - 1] {
          assert init[p] == xs[p];
        }
      }
      assert xs == init + [xs[|xs| - 1]];
    }
  }

  /** A text that repeats an earlier one keeps the earlier place: of "a", "b", "a" the message shows "b". */
  lemma RepeatKeepsFirstPlace()
    ensures LastOr(Unique(["a", "b", "a"])) == "b"
  {
    var xs := ["a", "b", "a"];
    assert xs[..2] == ["a", "b"];
    assert xs[..2][..1] == ["a"];
    assert ["a"][..0] == [];
    assert Unique(["a"]) == ["a"];
    assert Unique(["a", "b"]) == ["a", "b"];
  }

  // ---------------------------------------------------------------------
  // Messages shown
  // ---------------------------------------------------------------------

  /** The chat transport's status. */
  datatype ChatStatus = Submitted | Streaming | Ready | Error

  /** `isLoading`. */
  predicate IsLoading(status: ChatStatus) {
    status == Streaming || status == Submitted
  }

  /** `displayMessages`. */
  function DisplayMessages(status: ChatStatus, history: seq<ChatStore.Message>, assistant: Option<ChatStore.Message>)
    : seq<ChatStore.Message>
  {
    if IsLoading(status) && assistant.Some? then history + [assistant.value] else history
  }

  /** The history is always shown whole and first; the streamed reply follows it only while loading. */
  lemma DisplaySpec(status: ChatStatus, history: seq<ChatStore.Message>, assistant: Option<ChatStore.Message>)
    ensures var shown := DisplayMessages(status, history, assistant);
      shown[..|history|] == history
      && (|shown| == |history| + 1 <==> IsLoading(status) && assistant.Some?)
      && (|shown| != |history| + 1 ==> shown == history)
      && (|shown| == |history| + 1 ==> shown[|history|] == assistant.value)
  {
  }

  // ---------------------------------------------------------------------
  // Submitting
  // ---------------------------------------------------------------------

  /** `handleSubmit` goes ahead: something to send, and no submission in flight. */
  predicate Accepts(input: string, fileCount: nat, isSubmitting: bool) {
    !(Trim(input) == [] && fileCount == 0) && !isSubmitting
  }

  /** A status change from a stream in flight to ready releases the guard, as written. */
  predicate ReleasesAsWritten(prev: ChatStatus, status: ChatStatus) {
    IsLoading(prev) && status == Ready
  }

  /** A status change from a stream in flight to ready or to an error releases the guard. */
  predicate Releases(prev: ChatStatus, status: ChatStatus) {
    IsLoading(prev) && (status == Ready || status == Error)
  }

  /** The submission guard and the last status the page saw. */
  class Composer {
    var isSubmitting: bool
    var prevStatus: ChatStatus

    constructor (status: ChatStatus)
      ensures !isSubmitting && prevStatus == status
    {
      isSubmitting := false;
      prevStatus := status;
    }

    /** `handleSubmit`'s guard: goes ahead and sets the guard, or does nothing. */
    method Submit(input: string, fileCount: nat) returns (sent: bool)
      modifies this`isSubmitting
      ensures sent == Accepts(input, fileCount, old(isSubmitting))
      ensures isSubmitting == (old(isSubmitting) || sent)
    {
      sent := false;
      if Trim(input) == [] && fileCount == 0 {
        return;
      }
      if isSubmitting {
        return;
      }
      isSubmitting := true;
      sent := true;
    }

    /** The status effect: releases the guard when a stream ends, then records the status. */
    method StatusChanged(status: ChatStatus)
      modifies this
      ensures isSubmitting == (old(isSubmitting) && !Releases(old(prevStatus), status))
      ensures prevStatus == status
    {
      if Releases(prevStatus, status) {
        isSubmitting := false;
      }
      prevStatus := status;
    }

    /** The status effect as written: only a change to ready releases the guard. */
    method StatusChangedAsWritten(status: ChatStatus)
      modifies this
      ensures isSubmitting == (old(isSubmitting) && !ReleasesAsWritten(old(prevStatus), status))
      ensures prevStatus == status
    {
      if ReleasesAsWritten(prevStatus, status) {
        isSubmitting := false;
      }
      prevStatus := status;
    }

    /** One event: a status change through the effect as written or corrected, or a submission. */
    method Handle(e: Event, corrected: bool) returns (ok: bool)
      modifies this
      ensures (PageState(isSubmitting, prevStatus), ok) == Apply(PageState(old(isSubmitting), old(prevStatus)), e, corrected)
    {
      ok := false;
      match e {
        case StatusTo(status) =>
          if corrected {
            StatusChanged(status);
          } else {
            StatusChangedAsWritten(status);
          }
        case SubmitWith(input, fileCount) =>
          ok := Submit(input, fileCount);
      }
    }

    /**
     * Feeds the page a run of status changes and submissions, with the
     * status effect as written or corrected; `sent` says, event by event,
     * whether a submission went ahead.
     */
    method Replay(events: seq<Event>, corrected: bool) returns (sent: seq<bool>)
      modifies this
      ensures var r := Run(PageState(old(isSubmitting), old(prevStatus)), events, corrected);
        PageState(isSubmitting, prevStatus) == r.final && sent == r.sent
    {
      ghost var start := PageState(isSubmitting, prevStatus);
      sent := [];
      var i := 0;
      while i < |events|
        invariant i <= |events|
        invariant Run(start, events, corrected).final == Run(PageState(isSubmitting, prevStatus), events[i..], corrected).final
        invariant Run(start, events, corrected).sent == sent + Run(PageState(isSubmitting, prevStatus), events[i..], corrected).sent
      {
        ghost var before := PageState(isSubmitting, prevStatus);
        var ok := Handle(events[i], corrected);
        RunStep(before, events[i..], corrected);
        assert events[i..][1..] == events[i + 1..];
        sent := sent + [ok];
        i := i + 1;
      }
    }
  }

  /** What the page sees: a status change from the chat hook, or a submission. */
  datatype Event = StatusTo(status: ChatStatus) | SubmitWith(input: string, fileCount: nat)

  /** The guard and the last status the page saw, as a value. */
  datatype PageState = PageState(isSubmitting: bool, prevStatus: ChatStatus)

  /** One event's effect; the flag says whether a submission went ahead. */
  function Apply(st: PageState, e: Event, corrected: bool): (PageState, bool) {
    match e
    case StatusTo(status) =>
      var released := if corrected then Releases(st.prevStatus, status) else ReleasesAsWritten(st.prevStatus, status);
      (PageState(st.isSubmitting && !released, status), false)
    case SubmitWith(input, fileCount) =>
      var ok := Accepts(input, fileCount, st.isSubmitting);
      (PageState(st.isSubmitting || ok, st.prevStatus), ok)
  }

  datatype RunResult = RunResult(final: PageState, sent: seq<bool>)

  /** A run of events from a state. */
  function Run(st: PageState, events: seq<Event>, corrected: bool): (r: RunResult)
    ensures |r.sent| == |events|
    decreases |events|
  {
    if events == [] then RunResult(st, [])
    else
      var (next, ok) := Apply(st, events[0], corrected);
      var rest := Run(next, events[1..], corrected);
      RunResult(rest.final, [ok] + rest.sent)
  }

  /** Submit goes ahead exactly on non-blank input or attached files, and never while one is in flight. */
  lemma SubmitGuard(input: string, fileCount: nat, isSubmitting: bool)
    ensures Accepts(input, fileCount, isSubmitting) <==> (!IsBlank(input) || fileCount > 0) && !isSubmitting
  {
    TrimSpec(input);
  }

  /** A run is its first event's effect followed by the run of the rest. */
  lemma RunStep(st: PageState, events: seq<Event>, corrected: bool)
    requires events != []
    ensures var (next, ok) := Apply(st, events[0], corrected);
      Run(st, events, corrected) == RunResult(Run(next, events[1..], corrected).final, [ok] + Run(next, events[1..], corrected).sent)
  {
  }

  /** No status that starts a stream. */
  predicate NoStreamStarts(events: seq<Event>) {
    forall i :: 0 <= i < |events| && events[i].StatusTo? ==> !IsLoading(events[i].status)
  }

  /**
   * As written, once the guard is set and no stream is in flight, nothing
   * releases it: while no stream starts, the guard stays set and every
   * submission is dropped.
   */
  lemma {:induction false} StaysSetAsWritten(st: PageState, events: seq<Event>)
    requires st.isSubmitting && !IsLoading(st.prevStatus)
    requires NoStreamStarts(events)
    ensures Run(st, events, false).final.isSubmitting
    ensures forall i :: 0 <= i < |events| ==> !Run(st, events, false).sent[i]
    decreases |events|
  {
    if events != [] {
      var next := Apply(st, events[0], false).0;
      assert NoStreamStarts(events[1..]) by {
        forall i | 0 <= i < |events[1..]| && events[1..][i].StatusTo?
          ensures !IsLoading(events[1..][i].status)
        {
          assert events[1..][i] == events[i + 1];
        }
      }
      StaysSetAsWritten(next, events[1..]);
    }
  }

  /**
   * As written, a stream that ends in an error leaves the guard set: after
   * the status goes from streaming to error, and as long as no stream
   * starts (and only a submission could start one), the guard stays set and
   * every submission is dropped, whatever its input.
   */
  lemma ErrorLeavesGuardSet(rest: seq<Event>)
    requires NoStreamStarts(rest)
    ensures var r := Run(PageState(true, Streaming), [StatusTo(Error)] + rest, false);
      r.final.isSubmitting && forall i :: 0 <= i < |r.sent| ==> !r.sent[i]
  {
    var events := [StatusTo(Error)] + rest;
    assert events[1..] == rest;
    StaysSetAsWritten(PageState(true, Error), rest);
  }

  /** The same run with the correction: after the error, the first real submission goes ahead. */
  lemma ErrorThenSubmitCorrected(input: string, fileCount: nat)
    requires !IsBlank(input) || fileCount > 0
    ensures Run(PageState(true, Streaming), [StatusTo(Error), SubmitWith(input, fileCount)], true).sent == [false, true]
    ensures Run(PageState(true, Streaming), [StatusTo(Error), SubmitWith(input, fileCount)], false).sent == [false, false]
  {
    TrimSpec(input);
    var events := [StatusTo(Error), SubmitWith(input, fileCount)];
    assert events[1..] == [SubmitWith(input, fileCount)];
    assert events[1..][1..] == [];
  }

  /** With the release on errors too, every stream that ends lets the next message through. */
  lemma EndedStreamReleases(prev: ChatStatus, status: ChatStatus, input: string, fileCount: nat)
    requires IsLoading(prev) && !IsLoading(status)
    requires !IsBlank(input) || fileCount > 0
    ensures Releases(prev, status)
    ensures Accepts(input, fileCount, !Releases(prev, status))
  {
    TrimSpec(input);
  }
}
