/**
 * The chat page's sidebar grouping and its submit guard
 * (components/chat-page.tsx, `getTimeSegment`, `groupChatsByTime` and
 * `handleSubmit`).
 *
 * Chats are put into groups by how long ago they were updated: Today,
 * Yesterday, Previous 7 days, Previous 30 days, or else the month they were
 * updated in. The groups are keyed by their label, in order of first
 * appearance, and then ordered: the four fixed labels first, in that order,
 * then the month labels as they first appeared.
 *
 * The local midnight of the current day and the month label of a timestamp
 * come from the clock and the locale; both are inputs here.
 */
module ChatPage {
  import opened Wrappers
  import opened JsString
  import opened Grouping
  import opened StableSort

  const DayMs: int := 86400000

  const TodayLabel: string := "Today"
  const YesterdayLabel: string := "Yesterday"
  const WeekLabel: string := "Previous 7 days"
  const MonthLabel: string := "Previous 30 days"

  /** The local midnight that starts today, and the month label the locale gives a timestamp. */
  datatype Clock = Clock(today: int, monthOf: int -> string)

  /** A chat as the sidebar lists it. */
  datatype SidebarChat = SidebarChat(id: string, title: string, updatedAt: int, messageCount: Option<nat>)

  /** A labelled group of chats. */
  datatype Group = Group(segment: string, chats: seq<SidebarChat>)

  // ---------------------------------------------------------------------
  // Time segments
  // ---------------------------------------------------------------------

  /** `getTimeSegment`. */
  function TimeSegment(timestamp: int, clock: Clock): string {
    if timestamp >= clock.today then TodayLabel
    else if timestamp >= clock.today - DayMs then YesterdayLabel
    else if timestamp >= clock.today - 7 * DayMs then WeekLabel
    else if timestamp >= clock.today - 30 * DayMs then MonthLabel
    else clock.monthOf(timestamp)
  }

  /** `order.indexOf(segment)`, with the segments not in `order` all ranked last. */
  function Rank(segment: string): nat {
    if segment == TodayLabel then 0
    else if segment == YesterdayLabel then 1
    else if segment == WeekLabel then 2
    else if segment == MonthLabel then 3
    else 4
  }

  /** The fixed segments start at midnight today, one day, seven days and thirty days before it. */
  lemma TimeSegmentThresholds(timestamp: int, clock: Clock)
    ensures TimeSegment(timestamp, clock) == TodayLabel <== timestamp >= clock.today
    ensures clock.today - DayMs <= timestamp < clock.today ==> TimeSegment(timestamp, clock) == YesterdayLabel
    ensures clock.today - 7 * DayMs <= timestamp < clock.today - DayMs ==> TimeSegment(timestamp, clock) == WeekLabel
    ensures clock.today - 30 * DayMs <= timestamp < clock.today - 7 * DayMs ==>
      TimeSegment(timestamp, clock) == MonthLabel
    ensures timestamp < clock.today - 30 * DayMs ==> TimeSegment(timestamp, clock) == clock.monthOf(timestamp)
  {
  }

  /** How far back a timestamp lies: 0 today, 1 yesterday, 2 and 3 the past week and month, 4 earlier. */
  function Bucket(timestamp: int, clock: Clock): nat {
    if timestamp >= clock.today then 0
    else if timestamp >= clock.today - DayMs then 1
    else if timestamp >= clock.today - 7 * DayMs then 2
    else if timestamp >= clock.today - 30 * DayMs then 3
    else 4
  }

  /** The segment is the fixed label of the bucket, or the month label for the oldest. */
  lemma SegmentOfBucket(timestamp: int, clock: Clock)
    ensures var b := Bucket(timestamp, clock);
      TimeSegment(timestamp, clock)
      == if b < 4 then [TodayLabel, YesterdayLabel, WeekLabel, MonthLabel][b] else clock.monthOf(timestamp)
    ensures Bucket(timestamp, clock) < 4 ==> Rank(TimeSegment(timestamp, clock)) == Bucket(timestamp, clock)
  {
  }

  /** A later timestamp never falls in an older bucket. */
  lemma BucketMonotone(t1: int, t2: int, clock: Clock)
    requires t1 <= t2
    ensures Bucket(t2, clock) <= Bucket(t1, clock)
  {
  }

  // ---------------------------------------------------------------------
  // Grouping, as specification
  // ---------------------------------------------------------------------

  /** The key each chat is grouped under. */
  function SegmentOf(clock: Clock): SidebarChat -> string {
    (c: SidebarChat) => TimeSegment(c.updatedAt, clock)
  }

  /**
   * The keys sorted with `groupChatsByTime`'s comparator, which orders
   * segments as `Rank` does; the sort is stable.
   */
  function SortKeys(keys: seq<string>): (r: seq<string>)
    ensures |r| == |keys|
  {
    SortBy(keys, Rank)
  }

  /** `groupChatsByTime` as a value. */
  function Grouped(chats: seq<SidebarChat>, clock: Clock): (r: seq<Group>)
    ensures var keys := SortKeys(KeysOf(chats, SegmentOf(clock)));
      |r| == |keys| && forall i :: 0 <= i < |r| ==> r[i] == Group(keys[i], Members(chats, SegmentOf(clock), keys[i]))
  {
    var keys := SortKeys(KeysOf(chats, SegmentOf(clock)));
    seq(|keys|, i requires 0 <= i < |keys| => Group(keys[i], Members(chats, SegmentOf(clock), keys[i])))
  }

  // ---------------------------------------------------------------------
  // Grouping, as the page computes it
  // ---------------------------------------------------------------------

  /** `groupChatsByTime`: fill the groups object in one pass, then list its keys sorted. */
  method GroupChatsByTime(chats: seq<SidebarChat>, clock: Clock) returns (result: seq<Group>)
    ensures result == Grouped(chats, clock)
  {
    ghost var key := SegmentOf(clock);
    var groups: map<string, seq<SidebarChat>> := map[];
    var keys: seq<string> := [];
    for i := 0 to |chats|
      invariant keys == KeysOf(chats[..i], key) && groups == GroupMap(chats[..i], key)
    {
      var chat := chats[i];
      var segment := TimeSegment(chat.updatedAt, clock);
      assert chats[..i + 1] == chats[..i] + [chat];
      assert segment == key(chat);
      GroupStep(chats[..i], chat, key);
      if segment !in groups {
        keys := keys + [segment];
      }
      var members := if segment in groups then groups[segment] else [];
      groups := groups[segment := members + [chat]];
    }
    assert chats[..|chats|] == chats;
    KeysInMap(chats, clock);
    result := Listed(SortKeys(keys), groups);
  }

  /** `sortedKeys.map(key => ({ label: key, chats: groups[key] }))`. */
  function Listed(sortedKeys: seq<string>, groups: map<string, seq<SidebarChat>>): (r: seq<Group>)
    requires forall k :: k in sortedKeys ==> k in groups
    ensures |r| == |sortedKeys| && forall j :: 0 <= j < |r| ==> r[j] == Group(sortedKeys[j], groups[sortedKeys[j]])
  {
    seq(|sortedKeys|, j requires 0 <= j < |sortedKeys| => Group(sortedKeys[j], groups[sortedKeys[j]]))
  }

  /** Every sorted key is a key of the groups object. */
  lemma KeysInMap(chats: seq<SidebarChat>, clock: Clock)
    ensures forall k :: k in SortKeys(KeysOf(chats, SegmentOf(clock))) ==> k in GroupMap(chats, SegmentOf(clock))
  {
    var keys := KeysOf(chats, SegmentOf(clock));
    SortKeysPermutes(keys);
    forall k | k in SortKeys(keys) ensures k in keys {
      assert k in multiset(SortKeys(keys));
    }
  }

  // ---------------------------------------------------------------------
  // Properties of the grouping
  // ---------------------------------------------------------------------

  /** Sorting keeps the segments. */
  lemma SortKeysPermutes(keys: seq<string>)
    ensures multiset(SortKeys(keys)) == multiset(keys)
  {
    SortByPermutes(keys, Rank);
  }

  /**
   * The sort puts the segments in rank order, and keeps the order of segments
   * of the same rank: the month segments stay in order of first appearance.
   */
  lemma SortKeysSpec(keys: seq<string>)
    ensures forall i, j :: 0 <= i < j < |SortKeys(keys)| ==> Rank(SortKeys(keys)[i]) <= Rank(SortKeys(keys)[j])
    ensures forall n: nat :: OfRank(SortKeys(keys), Rank, n) == OfRank(keys, Rank, n)
  {
    SortBySpec(keys, Rank);
  }

  /** Every group is non-empty, and its segment is one the chats fall in. */
  lemma GroupsNonEmpty(chats: seq<SidebarChat>, clock: Clock)
    ensures var gs := Grouped(chats, clock);
      forall i :: 0 <= i < |gs| ==> gs[i].chats != []
  {
    var keys := KeysOf(chats, SegmentOf(clock));
    var sorted := SortKeys(keys);
    KeysOfSpec(chats, SegmentOf(clock));
    SortKeysPermutes(keys);
    forall i | 0 <= i < |sorted| ensures Members(chats, SegmentOf(clock), sorted[i]) != [] {
      assert sorted[i] in multiset(sorted);
      assert sorted[i] in keys;
      var c :| c in chats && TimeSegment(c.updatedAt, clock) == sorted[i];
      MembersSpec(chats, SegmentOf(clock), sorted[i]);
    }
  }

  /** The groups have distinct segments, and the fixed labels come first, in their order. */
  lemma GroupsOrdered(chats: seq<SidebarChat>, clock: Clock)
    ensures var gs := Grouped(chats, clock);
      forall i, j :: 0 <= i < j < |gs| ==> gs[i].segment != gs[j].segment && Rank(gs[i].segment) <= Rank(gs[j].segment)
  {
    var keys := KeysOf(chats, SegmentOf(clock));
    var sorted := SortKeys(keys);
    KeysOfSpec(chats, SegmentOf(clock));
    SortKeysSpec(keys);
    SortKeysPermutes(keys);
    forall i, j | 0 <= i < j < |sorted| ensures sorted[i] != sorted[j] {
      DistinctAfterPermutation(keys, sorted, i, j);
    }
  }

  /** Each chat is in the group of its own segment and in no other, and that group is listed. */
  lemma ChatInItsGroup(chats: seq<SidebarChat>, clock: Clock, c: SidebarChat)
    requires c in chats
    ensures var gs := Grouped(chats, clock);
      (forall i :: 0 <= i < |gs| ==> (c in gs[i].chats <==> gs[i].segment == TimeSegment(c.updatedAt, clock)))
      && exists i :: 0 <= i < |gs| && gs[i].segment == TimeSegment(c.updatedAt, clock)
  {
    var keys := KeysOf(chats, SegmentOf(clock));
    var sorted := SortKeys(keys);
    var gs := Grouped(chats, clock);
    forall i | 0 <= i < |gs| ensures c in gs[i].chats <==> gs[i].segment == TimeSegment(c.updatedAt, clock) {
      MembersSpec(chats, SegmentOf(clock), sorted[i]);
    }
    var k := TimeSegment(c.updatedAt, clock);
    KeysOfSpec(chats, SegmentOf(clock));
    SortKeysPermutes(keys);
    assert k in keys;
    assert k in multiset(sorted);
    var i :| 0 <= i < |sorted| && sorted[i] == k;
    assert gs[i].segment == k;
  }

  /** A permutation of a list without repeats has none either. */
  lemma DistinctAfterPermutation(a: seq<string>, b: seq<string>, i: nat, j: nat)
    requires multiset(a) == multiset(b) && i < j < |b|
    requires forall x, y :: 0 <= x < y < |a| ==> a[x] != a[y]
    ensures b[i] != b[j]
  {
    if b[i] == b[j] {
      assert multiset(b)[b[i]] >= 2 by {
        var rest := b[..i] + b[i + 1..];
        assert b == b[..i] + [b[i]] + b[i + 1..];
        assert b[j] in rest by {
          assert rest[j - 1] == b[j];
        }
        assert multiset(b) == multiset(rest) + multiset{b[i]};
      }
      CountOne(a, b[i]);
    }
  }

  /** In a list without repeats, no segment occurs twice. */
  lemma {:induction false} CountOne(a: seq<string>, x: string)
    requires forall p, q :: 0 <= p < q < |a| ==> a[p] != a[q]
    ensures multiset(a)[x] <= 1
  {
    if a != [] {
      var init := a[..|a| - 1];
      CountOne(init, x);
      assert a == init + [a[|a| - 1]];
      if a[|a| - 1] == x {
        assert x !in init by {
          forall p | 0 <= p < |init| ensures init[p] != x {
            assert init[p] == a[p];
          }
        }
      }
    }
  }

  // ---------------------------------------------------------------------
  // Submitting
  // ---------------------------------------------------------------------

  /** What `handleSubmit` does. */
  datatype SubmitAction = Ignore | CreateAndSend(message: string) | Send(message: string)

  /** `handleSubmit`: ignored for blank input or while streaming; otherwise the trimmed message goes to a new or the current chat. */
  function HandleSubmit(inputValue: string, isStreaming: bool, chatId: Option<string>): SubmitAction {
    if Trim(inputValue) == [] || isStreaming then Ignore
    else if chatId.None? || chatId.value == [] then CreateAndSend(Trim(inputValue))
    else Send(Trim(inputValue))
  }

  /** Submit acts exactly on non-blank input with no stream open, and sends the trimmed text. */
  lemma SubmitGuard(inputValue: string, isStreaming: bool, chatId: Option<string>)
    ensures HandleSubmit(inputValue, isStreaming, chatId) == Ignore <==> IsBlank(inputValue) || isStreaming
    ensures !HandleSubmit(inputValue, isStreaming, chatId).Ignore? ==>
      var m := HandleSubmit(inputValue, isStreaming, chatId).message;
      m == Trim(inputValue) && m != [] && !IsSpace(m[0]) && !IsSpace(m[|m| - 1])
    ensures HandleSubmit(inputValue, isStreaming, chatId).CreateAndSend? ==> chatId.None? || chatId.value == []
  {
    TrimSpec(inputValue);
  }
}
