/**
 * Comment highlights over a text (components/comments/selectable-text.tsx,
 * `renderHighlightedContent` and the `handleAddComment` guard).
 *
 * The text is cut into plain pieces and highlighted pieces, one highlight per
 * comment, walking the comments in order of their start offset. Offsets are
 * character positions. The DOM selection code that produces them is not part
 * of this model.
 */
module SelectableText {
  import opened Wrappers
  import opened JsString
  import opened StableSort

  /** A comment on a range of the text. */
  datatype Comment = Comment(selectionStart: nat, selectionEnd: nat, selectedText: string, resolved: bool)

  /** A comment with the index it is reported under when its highlight is clicked. */
  datatype Tagged = Tagged(c: Comment, tag: nat)

  /** A piece of the rendered text: plain text, or a highlight that reports `index` when clicked. */
  datatype Piece = Plain(text: string) | Mark(text: string, index: nat, resolved: bool, active: bool)

  /** The whole text when there are no comments, else the pieces. */
  datatype Rendering = Whole(content: string) | Parts(pieces: seq<Piece>)

  // ---------------------------------------------------------------------
  // Sorting by start offset
  // ---------------------------------------------------------------------

  /** `a` comes before `b` in a stable sort by start of a list tagged with positions. */
  predicate Before(a: Tagged, b: Tagged) {
    a.c.selectionStart < b.c.selectionStart || (a.c.selectionStart == b.c.selectionStart && a.tag < b.tag)
  }

  predicate Ordered(s: seq<Tagged>) {
    forall i, j :: 0 <= i < j < |s| ==> Before(s[i], s[j])
  }

  function StartOf(t: Tagged): nat {
    t.c.selectionStart
  }

  /** A stable sort by start offset, as `Array.prototype.sort` with `a.selectionStart - b.selectionStart`. */
  function SortByStart(s: seq<Tagged>): (r: seq<Tagged>)
    ensures |r| == |s|
  {
    SortBy(s, StartOf)
  }

  /** Each comment tagged with its position in the list. */
  function TagPositions(cs: seq<Comment>): (r: seq<Tagged>)
    ensures |r| == |cs| && forall i :: 0 <= i < |cs| ==> r[i] == Tagged(cs[i], i)
  {
    seq(|cs|, i requires 0 <= i < |cs| => Tagged(cs[i], i))
  }

  /** Inserting an entry tagged later than all others keeps the order. */
  lemma {:induction false} InsertOrdered(x: Tagged, s: seq<Tagged>)
    requires Ordered(s) && forall i :: 0 <= i < |s| ==> s[i].tag < x.tag
    ensures Ordered(InsertBy(x, s, StartOf))
  {
    if s != [] && StartOf(s[0]) <= StartOf(x) {
      InsertOrdered(x, s[1..]);
      InsertByPermutes(x, s[1..], StartOf);
      var r := InsertBy(x, s[1..], StartOf);
      forall j | 0 <= j < |r| ensures Before(s[0], r[j]) {
        assert r[j] in multiset(s[1..]) + multiset{x};
        if r[j] in multiset(s[1..]) {
          var k :| 0 <= k < |s[1..]| && s[1..][k] == r[j];
          assert s[k + 1] == r[j];
        }
      }
      assert forall i :: 1 <= i < |r| + 1 ==> ([s[0]] + r)[i] == r[i - 1];
    }
  }

  /** Tags of a stable sort's input, all below `n`. */
  lemma SortTagsBelow(s: seq<Tagged>, n: nat)
    requires forall i :: 0 <= i < |s| ==> s[i].tag < n
    ensures forall i :: 0 <= i < |SortByStart(s)| ==> SortByStart(s)[i].tag < n
  {
    SortPermutes(s);
    forall i | 0 <= i < |SortByStart(s)| ensures SortByStart(s)[i].tag < n {
      var x := SortByStart(s)[i];
      assert x in multiset(s);
      var k :| 0 <= k < |s| && s[k] == x;
    }
  }

  /** The sort keeps every comment, each as often as before. */
  lemma SortPermutes(s: seq<Tagged>)
    ensures multiset(SortByStart(s)) == multiset(s)
  {
    SortByPermutes(s, StartOf);
  }

  /**
   * Sorting a list tagged with its positions orders it by start and, among
   * equal starts, by position: the sort is stable.
   */
  lemma {:induction false} SortOrdered(s: seq<Tagged>)
    requires forall i :: 0 <= i < |s| ==> s[i].tag == i
    ensures Ordered(SortByStart(s))
  {
    if s != [] {
      var init := s[..|s| - 1];
      SortOrdered(init);
      SortTagsBelow(init, |s| - 1);
      InsertOrdered(s[|s| - 1], SortByStart(init));
      assert SortByStart(s) == InsertBy(s[|s| - 1], SortByStart(init), StartOf);
    }
  }

  // ---------------------------------------------------------------------
  // Cutting the text
  // ---------------------------------------------------------------------

  /**
   * The pieces for the comments from `k` on, the last highlight having ended
   * at `lastEnd`: the gap before a comment only when it starts after
   * `lastEnd`, then its highlight, then `lastEnd` becomes its end, whatever
   * it was; after the last comment, the rest of the text if any is left.
   */
  function PiecesFrom(content: string, ts: seq<Tagged>, k: nat, lastEnd: nat, active: Option<int>): seq<Piece>
    requires k <= |ts|
    decreases |ts| - k
  {
    if k == |ts| then (if lastEnd < |content| then [Plain(SliceFrom(content, lastEnd))] else [])
    else
      var c := ts[k].c;
      (if c.selectionStart > lastEnd then [Plain(Slice(content, lastEnd, c.selectionStart))] else [])
      + [Mark(Slice(content, c.selectionStart, c.selectionEnd), ts[k].tag, c.resolved, active == Some(ts[k].tag as int))]
      + PiecesFrom(content, ts, k + 1, c.selectionEnd, active)
  }

  /** The order the comments are walked in, each reporting its place in that order. */
  function AsWrittenOrder(cs: seq<Comment>): (r: seq<Tagged>)
    ensures |r| == |cs| && forall i :: 0 <= i < |r| ==> r[i].tag == i
  {
    var sorted := SortByStart(TagPositions(cs));
    seq(|sorted|, i requires 0 <= i < |sorted| => Tagged(sorted[i].c, i))
  }

  /** The same order, each comment reporting its place in the list it came in. */
  function CorrectedOrder(cs: seq<Comment>): seq<Tagged> {
    SortByStart(TagPositions(cs))
  }

  /** The text a list of pieces shows. */
  function Text(ps: seq<Piece>): string {
    if ps == [] then [] else ps[0].text + Text(ps[1..])
  }

  /** `renderHighlightedContent` as written: each highlight reports its place in the sorted list. */
  method RenderHighlightedContent(content: string, comments: seq<Comment>, activeCommentIndex: Option<int>)
    returns (r: Rendering)
    ensures comments == [] ==> r == Whole(content)
    ensures comments != [] ==> r == Parts(PiecesFrom(content, AsWrittenOrder(comments), 0, 0, activeCommentIndex))
  {
    if |comments| == 0 {
      return Whole(content);
    }
    var sortedComments := AsWrittenOrder(comments);
    ghost var total := PiecesFrom(content, sortedComments, 0, 0, activeCommentIndex);
    var parts: seq<Piece> := [];
    var lastEnd: nat := 0;
    for index := 0 to |sortedComments|
      invariant parts + PiecesFrom(content, sortedComments, index, lastEnd, activeCommentIndex) == total
    {
      var comment := sortedComments[index].c;
      ghost var rest := PiecesFrom(content, sortedComments, index + 1, comment.selectionEnd, activeCommentIndex);
      var gap: seq<Piece> := [];
      if comment.selectionStart > lastEnd {
        gap := [Plain(Slice(content, lastEnd, comment.selectionStart))];
      }
      var isActive := activeCommentIndex == Some(index);
      var mark := Mark(Slice(content, comment.selectionStart, comment.selectionEnd), index, comment.resolved, isActive);
      PiecesStep(content, sortedComments, index, lastEnd, activeCommentIndex);
      ConcatAssoc(parts, gap + [mark], rest);
      parts := parts + (gap + [mark]);
      lastEnd := comment.selectionEnd;
    }
    var tail: seq<Piece> := [];
    if lastEnd < |content| {
      tail := [Plain(SliceFrom(content, lastEnd))];
    }
    assert parts + tail == total by {
      PiecesEnd(content, sortedComments, lastEnd, activeCommentIndex);
    }
    parts := parts + tail;
    return Parts(parts);
  }

  /** After the last comment, only the rest of the text, if any. */
  lemma PiecesEnd(content: string, ts: seq<Tagged>, lastEnd: nat, active: Option<int>)
    ensures PiecesFrom(content, ts, |ts|, lastEnd, active)
      == if lastEnd < |content| then [Plain(SliceFrom(content, lastEnd))] else []
  {
  }

  // ---------------------------------------------------------------------
  // Properties
  // ---------------------------------------------------------------------

  /** The ranges, in the order walked, lie inside the text and do not overlap. */
  predicate Tiled(content: string, ts: seq<Tagged>) {
    (forall k :: 0 <= k < |ts| ==> ts[k].c.selectionStart <= ts[k].c.selectionEnd <= |content|)
    && (forall k :: 0 <= k < |ts| - 1 ==> ts[k].c.selectionEnd <= ts[k + 1].c.selectionStart)
  }

  lemma {:induction false} TextAppend(a: seq<Piece>, b: seq<Piece>)
    ensures Text(a + b) == Text(a) + Text(b)
  {
    if a != [] {
      assert (a + b)[0] == a[0];
      assert (a + b)[1..] == a[1..] + b;
      TextAppend(a[1..], b);
    } else {
      assert a + b == b;
    }
  }

  /** One comment's step: the gap, its highlight, and the pieces after it. */
  lemma PiecesStep(content: string, ts: seq<Tagged>, k: nat, lastEnd: nat, active: Option<int>)
    requires k < |ts|
    ensures var c := ts[k].c;
      PiecesFrom(content, ts, k, lastEnd, active)
      == (if c.selectionStart > lastEnd then [Plain(Slice(content, lastEnd, c.selectionStart))] else [])
         + [Mark(Slice(content, c.selectionStart, c.selectionEnd), ts[k].tag, c.resolved, active == Some(ts[k].tag as int))]
         + PiecesFrom(content, ts, k + 1, c.selectionEnd, active)
  {
  }

  /** The text of a step: the gap and the highlight cover the text from `lastEnd` to the comment's end. */
  lemma StepText(content: string, gap: seq<Piece>, mark: Piece, rest: seq<Piece>, lastEnd: nat, start: nat, end: nat)
    requires lastEnd <= start <= end <= |content|
    requires gap == (if start > lastEnd then [Plain(content[lastEnd..start])] else [])
    requires mark.text == content[start..end] && Text(rest) == content[end..]
    ensures Text(gap + [mark] + rest) == content[lastEnd..]
  {
    TextAppend(gap + [mark], rest);
    TextAppend(gap, [mark]);
    assert Text([mark]) == mark.text + Text([]);
    if start > lastEnd {
      assert Text(gap) == content[lastEnd..start] + Text([]);
    }
    assert content[lastEnd..] == content[lastEnd..start] + content[start..end] + content[end..];
  }

  /** From a point no later than the next comment's start, the pieces show exactly the rest of the text. */
  lemma {:induction false} PiecesShowRest(content: string, ts: seq<Tagged>, k: nat, lastEnd: nat, active: Option<int>)
    requires k <= |ts| && Tiled(content, ts) && lastEnd <= |content|
    requires k < |ts| ==> lastEnd <= ts[k].c.selectionStart
    ensures Text(PiecesFrom(content, ts, k, lastEnd, active)) == content[lastEnd..]
    decreases |ts| - k
  {
    if k < |ts| {
      var c := ts[k].c;
      var gap := if c.selectionStart > lastEnd then [Plain(Slice(content, lastEnd, c.selectionStart))] else [];
      var mark := Mark(Slice(content, c.selectionStart, c.selectionEnd), ts[k].tag, c.resolved, active == Some(ts[k].tag as int));
      var rest := PiecesFrom(content, ts, k + 1, c.selectionEnd, active);
      PiecesStep(content, ts, k, lastEnd, active);
      PiecesShowRest(content, ts, k + 1, c.selectionEnd, active);
      StepText(content, gap, mark, rest, lastEnd, c.selectionStart, c.selectionEnd);
    } else if lastEnd < |content| {
      assert Text([Plain(content[lastEnd..])]) == content[lastEnd..] + Text([]);
    }
  }

  /** With in-bounds ranges that do not overlap, the pieces put together give back the text exactly. */
  lemma ReproducesContent(content: string, comments: seq<Comment>, active: Option<int>)
    requires comments != [] && Tiled(content, AsWrittenOrder(comments))
    ensures Text(PiecesFrom(content, AsWrittenOrder(comments), 0, 0, active)) == content
  {
    PiecesShowRest(content, AsWrittenOrder(comments), 0, 0, active);
  }

  /**
   * Because `lastEnd` takes each end rather than the furthest, a range nested
   * in another shows its text again, and so does the text after it.
   */
  lemma NestedRangeRepeats()
    ensures var cs := [Comment(0, 3, "abc", false), Comment(1, 2, "b", false)];
      Text(PiecesFrom("abc", AsWrittenOrder(cs), 0, 0, None)) == "abcbc"
  {
    var cs := [Comment(0, 3, "abc", false), Comment(1, 2, "b", false)];
    var ts := TagPositions(cs);
    assert ts == [Tagged(cs[0], 0), Tagged(cs[1], 1)];
    assert ts[..|ts| - 1] == [Tagged(cs[0], 0)];
    assert [Tagged(cs[0], 0)][..0] == [];
    assert SortByStart([Tagged(cs[0], 0)]) == [Tagged(cs[0], 0)];
    assert [Tagged(cs[0], 0)][1..] == [];
    assert InsertBy(Tagged(cs[1], 1), [Tagged(cs[0], 0)], StartOf) == [Tagged(cs[0], 0)] + InsertBy(Tagged(cs[1], 1), [], StartOf);
    assert SortByStart(ts) == [Tagged(cs[0], 0), Tagged(cs[1], 1)];
    var order := AsWrittenOrder(cs);
    assert order == [Tagged(cs[0], 0), Tagged(cs[1], 1)];
    assert Slice("abc", 2, 3) == "abc"[2..3] == "c";
    assert Slice("abc", 1, 2) == "abc"[1..2] == "b";
    assert Slice("abc", 0, 3) == "abc"[0..3] == "abc";
    var p2 := PiecesFrom("abc", order, 2, 2, None);
    assert p2 == [Plain(SliceFrom("abc", 2))];
    assert SliceFrom("abc", 2) == "c";
    var p1 := PiecesFrom("abc", order, 1, 3, None);
    assert p1 == [] + [Mark("b", 1, false, false)] + p2;
    var ps := PiecesFrom("abc", order, 0, 0, None);
    assert ps == [] + [Mark("abc", 0, false, false)] + p1;
    assert Text(p2) == "c";
    assert Text(p1) == "b" + Text(p2);
    assert Text(ps) == "abc" + Text(p1);
  }

  /**
   * As written, clicking a highlight reports its place in the sorted list,
   * but the canvas looks that index up in the list as it came: with a later
   * comment listed first, the highlight of "a" reports 0, the comment on "b".
   */
  lemma ClickIndexMismatch()
    ensures var cs := [Comment(1, 2, "b", false), Comment(0, 1, "a", false)];
      var ps := PiecesFrom("ab", AsWrittenOrder(cs), 0, 0, None);
      ps[0] == Mark("a", 0, false, false) && cs[ps[0].index].selectedText == "b"
  {
    var cs := [Comment(1, 2, "b", false), Comment(0, 1, "a", false)];
    var ts := TagPositions(cs);
    assert ts == [Tagged(cs[0], 0), Tagged(cs[1], 1)];
    assert ts[..|ts| - 1] == [Tagged(cs[0], 0)];
    assert [Tagged(cs[0], 0)][..0] == [];
    assert SortByStart([Tagged(cs[0], 0)]) == [Tagged(cs[0], 0)];
    assert InsertBy(Tagged(cs[1], 1), [Tagged(cs[0], 0)], StartOf) == [Tagged(cs[1], 1), Tagged(cs[0], 0)];
    assert SortByStart(ts) == [Tagged(cs[1], 1), Tagged(cs[0], 0)];
    var order := AsWrittenOrder(cs);
    assert order == [Tagged(cs[1], 0), Tagged(cs[0], 1)];
    assert Slice("ab", 0, 1) == "ab"[0..1] == "a";
    var ps := PiecesFrom("ab", order, 0, 0, None);
    assert ps == [] + [Mark("a", 0, false, false)] + PiecesFrom("ab", order, 1, 1, None);
  }

  /** Every highlight of the corrected order reports a comment of the list and shows that comment's range. */
  lemma {:induction false} MarksReportTheirComment(content: string, ts: seq<Tagged>, cs: seq<Comment>,
                                                   k: nat, lastEnd: nat, active: Option<int>)
    requires k <= |ts| && forall i :: 0 <= i < |ts| ==> ts[i].tag < |cs| && cs[ts[i].tag] == ts[i].c
    ensures forall p :: p in PiecesFrom(content, ts, k, lastEnd, active) && p.Mark? ==>
      p.index < |cs| && p.text == Slice(content, cs[p.index].selectionStart, cs[p.index].selectionEnd)
      && p.resolved == cs[p.index].resolved && (p.active <==> active == Some(p.index as int))
    decreases |ts| - k
  {
    if k < |ts| {
      MarksReportTheirComment(content, ts, cs, k + 1, ts[k].c.selectionEnd, active);
    }
  }

  /** With the corrected order, the index a highlight reports is that of the comment it shows. */
  lemma CorrectedClickFindsComment(content: string, cs: seq<Comment>, active: Option<int>)
    ensures forall p :: p in PiecesFrom(content, CorrectedOrder(cs), 0, 0, active) && p.Mark? ==>
      p.index < |cs| && p.text == Slice(content, cs[p.index].selectionStart, cs[p.index].selectionEnd)
      && (p.active <==> active == Some(p.index as int))
  {
    var ts := CorrectedOrder(cs);
    var tagged := TagPositions(cs);
    SortPermutes(tagged);
    forall i | 0 <= i < |ts| ensures ts[i].tag < |cs| && cs[ts[i].tag] == ts[i].c {
      assert ts[i] in multiset(tagged);
      var k :| 0 <= k < |tagged| && tagged[k] == ts[i];
    }
    MarksReportTheirComment(content, ts, cs, 0, 0, active);
  }

  /** The fix changes only the indices: both orders show the same text. */
  lemma {:induction false} SameTextEitherOrder(content: string, a: seq<Tagged>, b: seq<Tagged>, k: nat, lastEnd: nat,
                                               active: Option<int>)
    requires |a| == |b| && k <= |a| && forall i :: 0 <= i < |a| ==> a[i].c == b[i].c
    ensures Text(PiecesFrom(content, a, k, lastEnd, active)) == Text(PiecesFrom(content, b, k, lastEnd, active))
    decreases |a| - k
  {
    if k < |a| {
      SameTextEitherOrder(content, a, b, k + 1, a[k].c.selectionEnd, active);
      var c := a[k].c;
      var gap := if c.selectionStart > lastEnd then [Plain(Slice(content, lastEnd, c.selectionStart))] else [];
      var text := Slice(content, c.selectionStart, c.selectionEnd);
      var ma := Mark(text, a[k].tag, c.resolved, active == Some(a[k].tag as int));
      var mb := Mark(text, b[k].tag, c.resolved, active == Some(b[k].tag as int));
      var rest := PiecesFrom(content, a, k + 1, c.selectionEnd, active);
      var rest' := PiecesFrom(content, b, k + 1, c.selectionEnd, active);
      TextAppend(gap + [ma], rest);
      TextAppend(gap + [mb], rest');
      TextAppend(gap, [ma]);
      TextAppend(gap, [mb]);
    }
  }

  /** The corrected order walks the comments exactly as the written one does. */
  lemma OrdersAgreeOnComments(cs: seq<Comment>)
    ensures var a := AsWrittenOrder(cs); var b := CorrectedOrder(cs);
      |a| == |b| && forall i :: 0 <= i < |a| ==> a[i].c == b[i].c
  {
  }

  // ---------------------------------------------------------------------
  // Adding a comment
  // ---------------------------------------------------------------------

  /** A selected range of the text. */
  datatype Selection = Selection(start: nat, end: nat, text: string)

  /** The call `handleAddComment` makes: range, selected text and the comment as typed. */
  datatype AddRequest = AddRequest(start: nat, end: nat, text: string, comment: string)

  /** `handleAddComment`: nothing without a selection or with a blank comment. */
  function AddComment(selection: Option<Selection>, commentText: string): Option<AddRequest> {
    if selection.None? || Trim(commentText) == [] then None
    else Some(AddRequest(selection.value.start, selection.value.end, selection.value.text, commentText))
  }

  /** A comment is sent exactly when something is selected and the comment is not blank, untrimmed. */
  lemma AddCommentGuard(selection: Option<Selection>, commentText: string)
    ensures AddComment(selection, commentText).Some? <==> selection.Some? && !IsBlank(commentText)
    ensures AddComment(selection, commentText).Some? ==>
      AddComment(selection, commentText).value.comment == commentText
      && AddComment(selection, commentText).value.text == selection.value.text
  {
    TrimSpec(commentText);
  }
}
