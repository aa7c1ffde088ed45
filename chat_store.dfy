/**
 * The local chat list (stores/chat-store.ts).
 *
 * The store holds two state cells, the list of chats and the id of the
 * current chat; every operation replaces the list with a map, filter or
 * spread of the old one. Clock readings (`new Date()`) and fresh ids
 * (`nanoid()`) come in as parameters; persistence to local storage is not
 * part of this model.
 */
module ChatStore {
  import opened Wrappers
  import opened JsString

  datatype Role = User | Assistant

  /** A message; times are milliseconds since the epoch. */
  datatype Message = Message(id: string, role: Role, content: string, reasoning: Option<string>,
                             createdAt: int, forkId: Option<string>)

  /** A chat; `None` fields are absent. */
  datatype Chat = Chat(id: string, title: string, messages: seq<Message>, createdAt: int, updatedAt: int,
                       parentId: Option<string>, forkMessageIndex: Option<int>, forkCount: Option<int>)

  /** A `Partial<Chat>`: the fields an update carries. */
  datatype ChatUpdate = ChatUpdate(id: Option<string>, title: Option<string>, messages: Option<seq<Message>>,
                                   createdAt: Option<int>, updatedAt: Option<int>, parentId: Option<string>,
                                   forkMessageIndex: Option<int>, forkCount: Option<int>)

  const NewChatTitle: string := "New chat"
  const TitleLength: nat := 50
  const DayMs: int := 24 * 60 * 60 * 1000

  /** The three demo chats the store starts with, one, two and three days old (counting today as the first). */
  function SampleChats(now: int): (cs: seq<Chat>)
    ensures |cs| == 3
  {
    [ Chat("1", "Understanding React Server Components", [], now, now, None, None, None),
      Chat("2", "Building a CLI tool with TypeScript", [], now - DayMs, now - DayMs, None, None, None),
      Chat("3", "Optimizing database queries", [], now - 2 * DayMs, now - 2 * DayMs, None, None, None) ]
  }

  // ---------------------------------------------------------------------
  // The list operations
  // ---------------------------------------------------------------------

  /** `chats.find((c) => c.id === id)`. */
  function FindChat(cs: seq<Chat>, id: Option<string>): Option<Chat> {
    if cs == [] then None
    else if id == Some(cs[0].id) then Some(cs[0])
    else FindChat(cs[1..], id)
  }

  /** Some chat has this id. */
  predicate HasId(cs: seq<Chat>, id: string) {
    exists i :: 0 <= i < |cs| && cs[i].id == id
  }

  /** `{ ...chat, ...updates, updatedAt: now }`. */
  function ApplyUpdate(c: Chat, u: ChatUpdate, now: int): Chat {
    Chat(if u.id.Some? then u.id.value else c.id,
         if u.title.Some? then u.title.value else c.title,
         if u.messages.Some? then u.messages.value else c.messages,
         if u.createdAt.Some? then u.createdAt.value else c.createdAt,
         now,
         if u.parentId.Some? then u.parentId else c.parentId,
         if u.forkMessageIndex.Some? then u.forkMessageIndex else c.forkMessageIndex,
         if u.forkCount.Some? then u.forkCount else c.forkCount)
  }

  /** `updateChat`'s map over the list. */
  function UpdateAll(cs: seq<Chat>, id: string, u: ChatUpdate, now: int): (r: seq<Chat>)
    ensures |r| == |cs|
  {
    if cs == [] then []
    else [if cs[0].id == id then ApplyUpdate(cs[0], u, now) else cs[0]] + UpdateAll(cs[1..], id, u, now)
  }

  /** `deleteChat`'s filter over the list. */
  function RemoveAll(cs: seq<Chat>, id: string): (r: seq<Chat>)
    ensures |r| <= |cs|
  {
    if cs == [] then []
    else (if cs[0].id != id then [cs[0]] else []) + RemoveAll(cs[1..], id)
  }

  /** The title a first user message gives its chat. */
  function TitleFor(content: string): string {
    Ellipsis(content, TitleLength)
  }

  /** `addMessage`'s change to one chat. */
  function AppendMessage(c: Chat, m: Message, now: int): Chat {
    var retitle := c.messages == [] && m.role == User;
    c.(messages := c.messages + [m],
       title := if retitle then TitleFor(m.content) else c.title,
       updatedAt := now)
  }

  /** `addMessage`'s map over the list. */
  function AppendAll(cs: seq<Chat>, id: string, m: Message, now: int): (r: seq<Chat>)
    ensures |r| == |cs|
  {
    if cs == [] then []
    else [if cs[0].id == id then AppendMessage(cs[0], m, now) else cs[0]] + AppendAll(cs[1..], id, m, now)
  }

  /** `updateLastMessage`'s change to one chat: a new content for the last message, if there is one. */
  function ReplaceLast(c: Chat, content: string): Chat {
    if c.messages == [] then c
    else
      var last := c.messages[|c.messages| - 1];
      c.(messages := c.messages[..|c.messages| - 1] + [last.(content := content)])
  }

  function ReplaceLastAll(cs: seq<Chat>, id: string, content: string): (r: seq<Chat>)
    ensures |r| == |cs|
  {
    if cs == [] then []
    else [if cs[0].id == id then ReplaceLast(cs[0], content) else cs[0]] + ReplaceLastAll(cs[1..], id, content)
  }

  /** The end a JavaScript `slice(0, end)` stops at: a negative end counts back from the length. */
  function SliceEnd(len: nat, end: int): (k: nat)
    ensures k <= len
  {
    if end < 0 then (if len + end < 0 then 0 else len + end)
    else if end < len then end else len
  }

  /** The copied messages of a fork, each under a fresh id. */
  function Renumber(ms: seq<Message>, freshId: nat -> string): (r: seq<Message>)
    ensures |r| == |ms|
  {
    seq(|ms|, i requires 0 <= i < |ms| => ms[i].(id := freshId(i)))
  }

  /** `(chat.forkCount || 0) + 1`. */
  function Bumped(c: Chat): Chat {
    c.(forkCount := Some((if c.forkCount.Some? then c.forkCount.value else 0) + 1))
  }

  function BumpAll(cs: seq<Chat>, id: string): (r: seq<Chat>)
    ensures |r| == |cs|
  {
    if cs == [] then []
    else [if cs[0].id == id then Bumped(cs[0]) else cs[0]] + BumpAll(cs[1..], id)
  }

  /** The chat `forkChat` creates from `source`. */
  function ForkOf(source: Chat, messageIndex: int, newId: string, freshId: nat -> string, now: int): Chat {
    var kept := source.messages[..SliceEnd(|source.messages|, messageIndex + 1)];
    Chat(newId, "Fork: " + source.title, Renumber(kept, freshId), now, now,
         Some(source.id), Some(messageIndex), None)
  }

  // ---------------------------------------------------------------------
  // The store
  // ---------------------------------------------------------------------

  class Store {
    var chats: seq<Chat>
    var currentChatId: Option<string>

    /** A fresh store: the demo chats and no current chat. */
    constructor (now: int)
      ensures chats == SampleChats(now) && currentChatId == None
    {
      chats := SampleChats(now);
      currentChatId := None;
    }

    /** `currentChatAtom`. */
    function CurrentChat(): Option<Chat>
      reads this
    {
      FindChat(chats, currentChatId)
    }

    /** `createChat`: a new empty chat in front, made current. */
    method CreateChat(newId: string, now: int) returns (id: string)
      modifies this
      ensures id == newId
      ensures chats == [Chat(newId, NewChatTitle, [], now, now, None, None, None)] + old(chats)
      ensures currentChatId == Some(newId)
    {
      id := newId;
      chats := [Chat(id, NewChatTitle, [], now, now, None, None, None)] + chats;
      currentChatId := Some(id);
    }

    method UpdateChat(id: string, updates: ChatUpdate, now: int)
      modifies this
      ensures chats == UpdateAll(old(chats), id, updates, now) && currentChatId == old(currentChatId)
    {
      chats := UpdateAll(chats, id, updates, now);
    }

    method DeleteChat(id: string)
      modifies this
      ensures chats == RemoveAll(old(chats), id)
      ensures currentChatId == if old(currentChatId) == Some(id) then None else old(currentChatId)
    {
      chats := RemoveAll(chats, id);
      if currentChatId == Some(id) {
        currentChatId := None;
      }
    }

    method SetCurrentChat(id: Option<string>)
      modifies this
      ensures currentChatId == id && chats == old(chats)
    {
      currentChatId := id;
    }

    /** `addMessage`: the message gets a fresh id and the clock's time. */
    method AddMessage(chatId: string, role: Role, content: string, reasoning: Option<string>,
                      forkId: Option<string>, messageId: string, now: int)
      modifies this
      ensures chats == AppendAll(old(chats), chatId, Message(messageId, role, content, reasoning, now, forkId), now)
      ensures currentChatId == old(currentChatId)
    {
      var m := Message(messageId, role, content, reasoning, now, forkId);
      chats := AppendAll(chats, chatId, m, now);
    }

    method UpdateLastMessage(chatId: string, content: string)
      modifies this
      ensures chats == ReplaceLastAll(old(chats), chatId, content) && currentChatId == old(currentChatId)
    {
      chats := ReplaceLastAll(chats, chatId, content);
    }

    /**
     * `forkChat`: an unknown id is handed back and nothing changes; otherwise
     * the fork goes in front, every chat with the source's id counts one
     * more fork, and the fork becomes current.
     */
    method ForkChat(chatId: string, messageIndex: int, newId: string, freshId: nat -> string, now: int)
      returns (id: string)
      modifies this
      ensures FindChat(old(chats), Some(chatId)).None? ==>
        id == chatId && chats == old(chats) && currentChatId == old(currentChatId)
      ensures FindChat(old(chats), Some(chatId)).Some? ==>
        id == newId && currentChatId == Some(newId)
        && chats == [ForkOf(FindChat(old(chats), Some(chatId)).value, messageIndex, newId, freshId, now)]
                    + BumpAll(old(chats), chatId)
    {
      var source := FindChat(chats, Some(chatId));
      if source.None? {
        return chatId;
      }
      var fork := ForkOf(source.value, messageIndex, newId, freshId, now);
      chats := [fork] + BumpAll(chats, chatId);
      currentChatId := Some(newId);
      id := newId;
    }
  }

  // ---------------------------------------------------------------------
  // Properties
  // ---------------------------------------------------------------------

  /** The current chat is the first one with the current id, and there is none when no chat has it. */
  lemma {:induction false} FindChatSpec(cs: seq<Chat>, id: Option<string>)
    ensures FindChat(cs, id).Some? ==>
      exists i :: 0 <= i < |cs| && FindChat(cs, id).value == cs[i]
        && Some(cs[i].id) == id && forall j :: 0 <= j < i ==> Some(cs[j].id) != id
    ensures FindChat(cs, id).None? <==> forall i :: 0 <= i < |cs| ==> Some(cs[i].id) != id
  {
    if cs != [] {
      FindChatSpec(cs[1..], id);
      if id != Some(cs[0].id) && FindChat(cs[1..], id).Some? {
        var i :| 0 <= i < |cs[1..]| && FindChat(cs[1..], id).value == cs[1..][i]
          && Some(cs[1..][i].id) == id && forall j :: 0 <= j < i ==> Some(cs[1..][j].id) != id;
        assert FindChat(cs, id).value == cs[i + 1];
        assert forall j :: 0 <= j < i + 1 ==> Some(cs[j].id) != id by {
          forall j | 1 <= j < i + 1 ensures Some(cs[j].id) != id {
            assert cs[j] == cs[1..][j - 1];
          }
        }
      }
      if FindChat(cs, id).None? {
        forall i | 0 <= i < |cs| ensures Some(cs[i].id) != id {
          if i > 0 { assert cs[i] == cs[1..][i - 1]; }
        }
      }
    }
  }

  /** A chat put in front and made current is the current chat, as after `createChat` and `forkChat`. */
  lemma FrontIsCurrent(c: Chat, cs: seq<Chat>)
    ensures FindChat([c] + cs, Some(c.id)) == Some(c)
  {
  }

  /** With no current id there is no current chat. */
  lemma NoCurrentChat(cs: seq<Chat>)
    ensures FindChat(cs, None) == None
  {
    FindChatSpec(cs, None);
  }

  /** `updateChat` changes the chats with the given id as the update says, and no other chat. */
  lemma {:induction false} UpdateOnlyTarget(cs: seq<Chat>, id: string, u: ChatUpdate, now: int)
    ensures var r := UpdateAll(cs, id, u, now);
      forall i :: 0 <= i < |cs| ==>
        (cs[i].id != id ==> r[i] == cs[i])
        && (cs[i].id == id ==> r[i] == ApplyUpdate(cs[i], u, now))
  {
    if cs != [] {
      UpdateOnlyTarget(cs[1..], id, u, now);
      var r := UpdateAll(cs, id, u, now);
      assert forall i :: 1 <= i < |cs| ==> r[i] == UpdateAll(cs[1..], id, u, now)[i - 1] && cs[i] == cs[1..][i - 1];
    }
  }

  /** An update takes each field it carries, keeps every other field, and always stamps the time. */
  lemma ApplyUpdateFields(c: Chat, u: ChatUpdate, now: int)
    ensures var r := ApplyUpdate(c, u, now);
      r.updatedAt == now
      && (u.title.None? ==> r.title == c.title) && (u.title.Some? ==> r.title == u.title.value)
      && (u.id.None? ==> r.id == c.id)
      && (u.messages.None? ==> r.messages == c.messages)
      && (u == ChatUpdate(None, None, None, None, None, None, None, None) ==> r == c.(updatedAt := now))
  {
  }

  /** `deleteChat` leaves exactly the chats with another id, in their order. */
  lemma {:induction false} RemoveAllSpec(cs: seq<Chat>, id: string)
    ensures forall c :: c in RemoveAll(cs, id) <==> c in cs && c.id != id
    ensures !HasId(RemoveAll(cs, id), id)
    ensures !HasId(cs, id) ==> RemoveAll(cs, id) == cs
  {
    if cs != [] {
      RemoveAllSpec(cs[1..], id);
      var r := RemoveAll(cs, id);
      assert forall c :: c in cs <==> c == cs[0] || c in cs[1..];
      if !HasId(cs, id) {
        assert !HasId(cs[1..], id) by {
          forall i | 0 <= i < |cs[1..]| ensures cs[1..][i].id != id {
            assert cs[1..][i] == cs[i + 1];
          }
        }
        assert cs[0].id != id;
        assert r == [cs[0]] + cs[1..];
      }
      forall i | 0 <= i < |r| ensures r[i].id != id {
        assert r[i] in r;
      }
    }
  }

  /** `addMessage` appends to the target chat only, and retitles it only for a first user message. */
  lemma {:induction false} AppendOnlyTarget(cs: seq<Chat>, id: string, m: Message, now: int)
    ensures var r := AppendAll(cs, id, m, now);
      forall i :: 0 <= i < |cs| ==>
        (cs[i].id != id ==> r[i] == cs[i])
        && (cs[i].id == id ==> r[i] == AppendMessage(cs[i], m, now))
  {
    if cs != [] {
      AppendOnlyTarget(cs[1..], id, m, now);
      var r := AppendAll(cs, id, m, now);
      assert forall i :: 1 <= i < |cs| ==> r[i] == AppendAll(cs[1..], id, m, now)[i - 1] && cs[i] == cs[1..][i - 1];
    }
  }

  /**
   * The message goes last; the title becomes the message's first 50
   * characters, with "..." when it is longer, exactly when the chat was empty
   * and the message is the user's; everything else is kept.
   */
  lemma AppendMessageEffect(c: Chat, m: Message, now: int)
    ensures var r := AppendMessage(c, m, now);
      r.messages == c.messages + [m] && r.id == c.id && r.updatedAt == now
      && (c.messages == [] && m.role == User ==>
            (|m.content| <= TitleLength ==> r.title == m.content)
            && (|m.content| > TitleLength ==> r.title == m.content[..TitleLength] + "..."))
      && (c.messages != [] || m.role == Assistant ==> r.title == c.title)
  {
    EllipsisSpec(m.content, TitleLength);
  }

  /** The long first message of the store's title test yields the expected title. */
  lemma LongFirstMessageTitle()
    ensures TitleFor("This is a very long message that should be truncated for the title")
            == "This is a very long message that should be truncat..."
  {
    var s := "This is a very long message that should be truncated for the title";
    EllipsisSpec(s, TitleLength);
    assert s[..TitleLength] == "This is a very long message that should be truncat";
  }

  /** `updateLastMessage` changes only the last message's content, and nothing on an empty chat. */
  lemma ReplaceLastEffect(c: Chat, content: string)
    ensures var r := ReplaceLast(c, content);
      |r.messages| == |c.messages|
      && (c.messages == [] ==> r == c)
      && (c.messages != [] ==>
            r.messages[|r.messages| - 1] == c.messages[|c.messages| - 1].(content := content)
            && r.messages[..|r.messages| - 1] == c.messages[..|c.messages| - 1]
            && r == c.(messages := r.messages))
  {
    if c.messages != [] {
      var r := ReplaceLast(c, content);
      assert r.messages[..|r.messages| - 1] == c.messages[..|c.messages| - 1];
    }
  }

  /** `updateLastMessage` touches only chats with the given id. */
  lemma {:induction false} ReplaceLastOnlyTarget(cs: seq<Chat>, id: string, content: string)
    ensures var r := ReplaceLastAll(cs, id, content);
      forall i :: 0 <= i < |cs| ==>
        (cs[i].id != id ==> r[i] == cs[i]) && (cs[i].id == id ==> r[i] == ReplaceLast(cs[i], content))
  {
    if cs != [] {
      ReplaceLastOnlyTarget(cs[1..], id, content);
      var r := ReplaceLastAll(cs, id, content);
      assert forall i :: 1 <= i < |cs| ==> r[i] == ReplaceLastAll(cs[1..], id, content)[i - 1] && cs[i] == cs[1..][i - 1];
    }
  }

  /**
   * A fork at index `k >= 0` keeps messages `0..k` inclusive (all of them
   * when `k` is past the end), each with its content and role but a fresh id,
   * and records where it came from.
   */
  lemma ForkContents(source: Chat, k: int, newId: string, freshId: nat -> string, now: int)
    requires k >= 0
    ensures var f := ForkOf(source, k, newId, freshId, now);
      var n := if k + 1 < |source.messages| then k + 1 else |source.messages|;
      |f.messages| == n
      && (forall i :: 0 <= i < n ==> f.messages[i] == source.messages[i].(id := freshId(i)))
      && f.id == newId && f.title == "Fork: " + source.title
      && f.parentId == Some(source.id) && f.forkMessageIndex == Some(k) && f.forkCount.None?
  {
  }

  /** Forking at index 1 a chat of three messages, as the store's fork test does, keeps two. */
  lemma ForkAtOneKeepsTwo(source: Chat, newId: string, freshId: nat -> string, now: int)
    requires |source.messages| == 3
    ensures |ForkOf(source, 1, newId, freshId, now).messages| == 2
  {
  }

  /** The source's fork count goes up by one, counting an absent count as 0, and no other chat changes. */
  lemma {:induction false} BumpOnlyTarget(cs: seq<Chat>, id: string)
    ensures var r := BumpAll(cs, id);
      forall i :: 0 <= i < |cs| ==>
        (cs[i].id != id ==> r[i] == cs[i])
        && (cs[i].id == id ==> r[i] == cs[i].(forkCount := Some(
              (if cs[i].forkCount.Some? then cs[i].forkCount.value else 0) + 1)))
  {
    if cs != [] {
      BumpOnlyTarget(cs[1..], id);
      var r := BumpAll(cs, id);
      assert forall i :: 1 <= i < |cs| ==> r[i] == BumpAll(cs[1..], id)[i - 1] && cs[i] == cs[1..][i - 1];
    }
  }

  /** A first fork of a chat records a count of exactly 1. */
  lemma FirstForkCountsOne(c: Chat)
    requires c.forkCount.None? || c.forkCount == Some(0)
    ensures Bumped(c).forkCount == Some(1)
  {
  }
}
