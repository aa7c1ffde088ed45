/**
 * The canvas panel (components/canvas/canvas-panel.tsx): the undo/redo
 * history of user edits, the comment lists it hands to the highlighter,
 * and the file extension used for downloads.
 *
 * The history is a list of contents and an index into it. A user edit drops
 * everything after the index, appends the new content and moves to it; undo
 * and redo step the index and emit the content found there. The parent
 * component owns the content itself: each operation reports the content it
 * emits through `onContentChange`, and that is the value returned here.
 */
module Canvas {
  import opened Wrappers
  import SelectableText
  import JsString

  // ---------------------------------------------------------------------
  // The history, as a value
  // ---------------------------------------------------------------------

  /** The history list and the index of the content on screen. */
  datatype Timeline = Timeline(entries: seq<string>, index: nat)

  predicate Valid(t: Timeline) {
    t.index < |t.entries|
  }

  /** The history a canvas opens with. */
  function Initial(content: string): Timeline {
    Timeline([content], 0)
  }

  /** `handleUserEdit`: keep the entries up to the index, append the new content, move to it. */
  function Edited(t: Timeline, newContent: string): Timeline
    requires Valid(t)
  {
    Timeline(t.entries[..t.index + 1] + [newContent], t.index + 1)
  }

  /** `handleUndo`: one step back and the content there, or nothing at the first entry. */
  function Undone(t: Timeline): (Timeline, Option<string>)
    requires Valid(t)
  {
    if t.index > 0 then (Timeline(t.entries, t.index - 1), Some(t.entries[t.index - 1]))
    else (t, None)
  }

  /** `handleRedo`: one step forward and the content there, or nothing at the last entry. */
  function Redone(t: Timeline): (Timeline, Option<string>)
    requires Valid(t)
  {
    if t.index < |t.entries| - 1 then (Timeline(t.entries, t.index + 1), Some(t.entries[t.index + 1]))
    else (t, None)
  }

  /** The undo button is disabled at the first entry or outside edit mode. */
  predicate UndoDisabled(t: Timeline, isEditMode: bool) {
    t.index == 0 || !isEditMode
  }

  /** The redo button is disabled at the last entry or outside edit mode. */
  predicate RedoDisabled(t: Timeline, isEditMode: bool) {
    t.index == |t.entries| - 1 || !isEditMode
  }

  // ---------------------------------------------------------------------
  // The history, as the component keeps it
  // ---------------------------------------------------------------------

  /** The `history` and `historyIndex` state of one canvas. */
  class History {
    var entries: seq<string>
    var index: nat

    function State(): Timeline
      reads this
    {
      Timeline(entries, index)
    }

    constructor (content: string)
      ensures State() == Initial(content)
    {
      entries := [content];
      index := 0;
    }

    method UserEdit(newContent: string) returns (emitted: string)
      requires Valid(State())
      modifies this
      ensures State() == Edited(old(State()), newContent) && emitted == newContent
    {
      entries := entries[..index + 1] + [newContent];
      index := index + 1;
      emitted := newContent;
    }

    method Undo() returns (emitted: Option<string>)
      requires Valid(State())
      modifies this
      ensures (State(), emitted) == Undone(old(State()))
    {
      emitted := None;
      if index > 0 {
        var newIndex := index - 1;
        index := newIndex;
        emitted := Some(entries[newIndex]);
      }
    }

    method Redo() returns (emitted: Option<string>)
      requires Valid(State())
      modifies this
      ensures (State(), emitted) == Redone(old(State()))
    {
      emitted := None;
      if index < |entries| - 1 {
        var newIndex := index + 1;
        index := newIndex;
        emitted := Some(entries[newIndex]);
      }
    }
  }

  // ---------------------------------------------------------------------
  // Properties of the history
  // ---------------------------------------------------------------------

  /** A new canvas holds its content and can neither undo nor redo. */
  lemma InitialState(content: string, isEditMode: bool)
    ensures Valid(Initial(content)) && Initial(content).entries[Initial(content).index] == content
    ensures UndoDisabled(Initial(content), isEditMode) && RedoDisabled(Initial(content), isEditMode)
  {
  }

  /**
   * An edit keeps the history up to the current entry, ends it with the new
   * content, and leaves nothing to redo; the entry before it is the one that
   * was on screen, so one undo returns to it.
   */
  lemma EditEffect(t: Timeline, c: string, isEditMode: bool)
    requires Valid(t)
    ensures var e := Edited(t, c);
      Valid(e) && e.entries[e.index] == c && e.entries[..t.index + 1] == t.entries[..t.index + 1]
      && RedoDisabled(e, isEditMode) && Redone(e).1 == None
      && Undone(e).1 == Some(t.entries[t.index])
  {
  }

  /** Undo and redo keep the index inside the history and emit the content at the new index. */
  lemma StepsStayValid(t: Timeline)
    requires Valid(t)
    ensures Valid(Undone(t).0) && Valid(Redone(t).0)
    ensures Undone(t).0.entries == t.entries && Redone(t).0.entries == t.entries
    ensures Undone(t).1.Some? ==> Undone(t).1.value == t.entries[Undone(t).0.index]
    ensures Redone(t).1.Some? ==> Redone(t).1.value == t.entries[Redone(t).0.index]
  {
  }

  /** In edit mode each enabled button does something and each disabled one would do nothing. */
  lemma ButtonsMatchGuards(t: Timeline)
    requires Valid(t)
    ensures !UndoDisabled(t, true) <==> Undone(t).1.Some?
    ensures !RedoDisabled(t, true) <==> Redone(t).1.Some?
  {
  }

  /** Undo then redo restores the index and shows the content that was on screen. */
  lemma UndoThenRedo(t: Timeline)
    requires Valid(t) && t.index > 0
    ensures Redone(Undone(t).0) == (t, Some(t.entries[t.index]))
  {
  }

  /** Redo then undo restores the index and shows the content that was on screen. */
  lemma RedoThenUndo(t: Timeline)
    requires Valid(t) && t.index < |t.entries| - 1
    ensures Undone(Redone(t).0) == (t, Some(t.entries[t.index]))
  {
  }

  /** An edit after an undo throws away the entries that redo would have reached. */
  lemma EditAfterUndoDropsRedo(t: Timeline, c: string, isEditMode: bool)
    requires Valid(t) && t.index > 0
    ensures var e := Edited(Undone(t).0, c);
      e.entries == t.entries[..t.index] + [c] && e.index == t.index && RedoDisabled(e, isEditMode)
  {
  }

  /** `n` presses of undo. */
  function UndoTimes(t: Timeline, n: nat): (r: Timeline)
    requires Valid(t)
    ensures Valid(r) && r.entries == t.entries
    decreases n
  {
    if n == 0 then t else UndoTimes(Undone(t).0, n - 1)
  }

  /** `n` presses of redo. */
  function RedoTimes(t: Timeline, n: nat): (r: Timeline)
    requires Valid(t)
    ensures Valid(r) && r.entries == t.entries
    decreases n
  {
    if n == 0 then t else RedoTimes(Redone(t).0, n - 1)
  }

  /** Undo moves back one entry per press, stopping at the first. */
  lemma {:induction false} UndoTimesIndex(t: Timeline, n: nat)
    requires Valid(t)
    ensures UndoTimes(t, n).index == if n <= t.index then t.index - n else 0
    decreases n
  {
    if n > 0 {
      UndoTimesIndex(Undone(t).0, n - 1);
    }
  }

  /** Redo moves forward one entry per press, stopping at the last. */
  lemma {:induction false} RedoTimesIndex(t: Timeline, n: nat)
    requires Valid(t)
    ensures RedoTimes(t, n).index == if t.index + n < |t.entries| then t.index + n else |t.entries| - 1
    decreases n
  {
    if n > 0 {
      RedoTimesIndex(Redone(t).0, n - 1);
    }
  }

  /** Any number of undos not past the first entry is reversed by as many redos. */
  lemma UndoRedoTimes(t: Timeline, n: nat)
    requires Valid(t) && n <= t.index
    ensures RedoTimes(UndoTimes(t, n), n) == t
  {
    UndoTimesIndex(t, n);
    RedoTimesIndex(UndoTimes(t, n), n);
  }

  // ---------------------------------------------------------------------
  // Comments
  // ---------------------------------------------------------------------

  datatype CommentType = Inline | General
  datatype ReviewStatus = Pending | Reviewing

  /** A canvas comment; replies, author and body are not needed here. */
  datatype CanvasComment = CanvasComment(
    id: string, kind: CommentType,
    selectionStart: Option<nat>, selectionEnd: Option<nat>, selectedText: Option<string>,
    resolved: bool, status: Option<ReviewStatus>)

  predicate IsPending(c: CanvasComment) {
    c.status == Some(Pending)
  }

  /** `pendingCommentsCount`. */
  function PendingCount(cs: seq<CanvasComment>): (r: nat)
    ensures r <= |cs|
  {
    if cs == [] then 0 else (if IsPending(cs[0]) then 1 else 0) + PendingCount(cs[1..])
  }

  /** `inlineComments`: the inline comments, in order. */
  function InlineComments(cs: seq<CanvasComment>): (r: seq<CanvasComment>)
    ensures |r| <= |cs|
  {
    if cs == [] then []
    else (if cs[0].kind == Inline then [cs[0]] else []) + InlineComments(cs[1..])
  }

  /** The count is zero exactly when no comment is pending and full exactly when all are. */
  lemma {:induction false} PendingCountSpec(cs: seq<CanvasComment>)
    ensures PendingCount(cs) == 0 <==> forall i :: 0 <= i < |cs| ==> !IsPending(cs[i])
    ensures PendingCount(cs) == |cs| <==> forall i :: 0 <= i < |cs| ==> IsPending(cs[i])
  {
    if cs != [] {
      PendingCountSpec(cs[1..]);
      assert forall i :: 1 <= i < |cs| ==> cs[i] == cs[1..][i - 1];
    }
  }

  /** Counting over two lists adds up. */
  lemma {:induction false} PendingCountAppend(a: seq<CanvasComment>, b: seq<CanvasComment>)
    ensures PendingCount(a + b) == PendingCount(a) + PendingCount(b)
  {
    if a == [] {
      assert a + b == b;
    } else {
      assert (a + b)[0] == a[0];
      assert (a + b)[1..] == a[1..] + b;
      PendingCountAppend(a[1..], b);
    }
  }

  /** The inline list holds exactly the inline comments, and filtering a concatenation keeps the order. */
  lemma {:induction false} InlineCommentsSpec(cs: seq<CanvasComment>)
    ensures forall c :: c in InlineComments(cs) <==> c in cs && c.kind == Inline
  {
    if cs != [] {
      InlineCommentsSpec(cs[1..]);
      assert cs == [cs[0]] + cs[1..];
    }
  }

  /** Filtering a concatenation is the concatenation of the filtered lists: the order is kept. */
  lemma {:induction false} InlineCommentsAppend(a: seq<CanvasComment>, b: seq<CanvasComment>)
    ensures InlineComments(a + b) == InlineComments(a) + InlineComments(b)
  {
    if a == [] {
      assert a + b == b;
    } else {
      var head := if a[0].kind == Inline then [a[0]] else [];
      assert (a + b)[0] == a[0];
      assert (a + b)[1..] == a[1..] + b;
      InlineCommentsAppend(a[1..], b);
      assert InlineComments(a + b) == head + (InlineComments(a[1..]) + InlineComments(b));
      assert head + (InlineComments(a[1..]) + InlineComments(b)) == head + InlineComments(a[1..]) + InlineComments(b);
    }
  }

  /** `x || 0` on an optional offset. */
  function OrZero(x: Option<nat>): nat {
    if x.Some? then x.value else 0
  }

  /** `x || ""` on an optional text. */
  function OrEmpty(x: Option<string>): string {
    if x.Some? then x.value else ""
  }

  /** The props each inline comment becomes for the highlighter, missing fields read as 0 and "". */
  function HighlightProps(inline: seq<CanvasComment>): (r: seq<SelectableText.Comment>)
    ensures |r| == |inline|
    ensures forall i :: 0 <= i < |r| ==>
      r[i] == SelectableText.Comment(OrZero(inline[i].selectionStart), OrZero(inline[i].selectionEnd),
                                     OrEmpty(inline[i].selectedText), inline[i].resolved)
  {
    seq(|inline|, i requires 0 <= i < |inline| =>
      SelectableText.Comment(OrZero(inline[i].selectionStart), OrZero(inline[i].selectionEnd),
                             OrEmpty(inline[i].selectedText), inline[i].resolved))
  }

  /** `onCommentClick`: the id of the inline comment at the reported index, if there is one. */
  function ClickedId(inline: seq<CanvasComment>, index: int): Option<string> {
    if 0 <= index < |inline| then Some(inline[index].id) else None
  }

  /** `findIndex` of the active comment id; -1 when there is none or no comment has it. */
  function ActiveIndex(inline: seq<CanvasComment>, activeId: Option<string>): (r: int)
    ensures -1 <= r < |inline|
  {
    if inline == [] || activeId.None? then -1
    else if inline[0].id == activeId.value then 0
    else
      var k := ActiveIndex(inline[1..], activeId);
      if k == -1 then -1 else k + 1
  }

  /** The index found is the first comment with the active id, and -1 means none has it. */
  lemma {:induction false} ActiveIndexSpec(inline: seq<CanvasComment>, activeId: Option<string>)
    ensures var r := ActiveIndex(inline, activeId);
      (r == -1 <==> activeId.None? || forall i :: 0 <= i < |inline| ==> inline[i].id != activeId.value)
      && (r >= 0 ==> activeId.Some? && inline[r].id == activeId.value
                     && forall i :: 0 <= i < r ==> inline[i].id != activeId.value)
  {
    if inline != [] && activeId.Some? && inline[0].id != activeId.value {
      ActiveIndexSpec(inline[1..], activeId);
      assert forall i :: 1 <= i < |inline| ==> inline[i] == inline[1..][i - 1];
    }
  }

  predicate DistinctIds(inline: seq<CanvasComment>) {
    forall i, j :: 0 <= i < j < |inline| ==> inline[i].id != inline[j].id
  }

  /**
   * Clicking the highlight that reports index `i` makes comment `i` active,
   * and the active index handed back to the highlighter is `i` again, so
   * that highlight is the one drawn as active.
   */
  lemma ClickRoundTrip(inline: seq<CanvasComment>, i: int)
    requires DistinctIds(inline) && 0 <= i < |inline|
    ensures ActiveIndex(inline, ClickedId(inline, i)) == i
  {
    ActiveIndexSpec(inline, ClickedId(inline, i));
  }

  /** A click outside the list changes nothing: there is no comment to activate. */
  lemma ClickOutside(inline: seq<CanvasComment>, index: int)
    requires index < 0 || index >= |inline|
    ensures ClickedId(inline, index) == None && ActiveIndex(inline, ClickedId(inline, index)) == -1
  {
  }

  /**
   * With the corrected walk order, clicking any highlight of the rendered
   * inline comments activates the comment whose range that highlight shows.
   */
  lemma CorrectedClickActivatesShown(content: string, inline: seq<CanvasComment>, p: SelectableText.Piece)
    requires DistinctIds(inline)
    requires p in SelectableText.PiecesFrom(content, SelectableText.CorrectedOrder(HighlightProps(inline)), 0, 0,
                                            Some(-1))
    requires p.Mark?
    ensures p.index < |inline|
    ensures ClickedId(inline, p.index) == Some(inline[p.index].id)
    ensures p.text == JsSliceOf(content, HighlightProps(inline)[p.index])
    ensures ActiveIndex(inline, ClickedId(inline, p.index)) == p.index
  {
    SelectableText.CorrectedClickFindsComment(content, HighlightProps(inline), Some(-1));
    ClickRoundTrip(inline, p.index);
  }

  /** The text a highlight of comment `c` shows. */
  function JsSliceOf(content: string, c: SelectableText.Comment): string {
    JsString.Slice(content, c.selectionStart, c.selectionEnd)
  }

  // ---------------------------------------------------------------------
  // Download extension
  // ---------------------------------------------------------------------

  /** The extensions table of `getExtension`. */
  const Extensions: map<string, string> := map[
    "javascript" := "js", "typescript" := "ts", "python" := "py", "rust" := "rs", "go" := "go",
    "java" := "java", "cpp" := "cpp", "c" := "c", "html" := "html", "css" := "css",
    "json" := "json", "markdown" := "md", "text" := "txt"]

  /**
   * The keys an object literal inherits from `Object.prototype`. Indexing
   * the table with one of them finds the inherited member, not `undefined`.
   */
  const InheritedKeys: set<string> := {
    "constructor", "hasOwnProperty", "isPrototypeOf", "propertyIsEnumerable",
    "toString", "toLocaleString", "valueOf", "__defineGetter__",
    "__defineSetter__", "__lookupGetter__", "__lookupSetter__", "__proto__"}

  /** How a built-in function prints when put into a template string. */
  function NativeFunction(name: string): string {
    "function " + name + "() { [native code] }"
  }

  /** The inherited member under `key`, as the template string prints it. */
  function InheritedText(key: string): string {
    if key == "__proto__" then "[object Object]"
    else if key == "constructor" then NativeFunction("Object")
    else NativeFunction(key)
  }

  /** `extensions[language] || "txt"`, where a missing own key falls through to `Object.prototype`. */
  function GetExtension(language: string): string {
    if language in Extensions && Extensions[language] != "" then Extensions[language]
    else if language in InheritedKeys then InheritedText(language)
    else "txt"
  }

  /**
   * A listed language gets its own extension; a name `Object.prototype`
   * carries gets that member printed, never "txt"; anything else gets "txt".
   * The result is never empty and has no dot.
   */
  lemma GetExtensionSpec(language: string)
    ensures language in Extensions ==> GetExtension(language) == Extensions[language]
    ensures language !in Extensions && language in InheritedKeys ==>
      GetExtension(language) == InheritedText(language) && GetExtension(language) != "txt"
    ensures language !in Extensions && language !in InheritedKeys ==> GetExtension(language) == "txt"
    ensures GetExtension(language) != [] && '.' !in GetExtension(language)
  {
    if language !in Extensions && language in InheritedKeys {
      var name := if language == "constructor" then "Object" else language;
      if language != "__proto__" {
        NativeFunctionNoDot(name);
      }
    }
  }

  /** A built-in's printed form has no dot when its name has none. */
  lemma NativeFunctionNoDot(name: string)
    requires '.' !in name
    ensures '.' !in NativeFunction(name) && NativeFunction(name) != "txt"
  {
    var f := NativeFunction(name);
    assert f == "function " + name + "() { [native code] }";
    assert forall i :: 0 <= i < |f| ==> f[i] in "function " || f[i] in name || f[i] in "() { [native code] }";
    assert f[0] == 'f';
  }

  /** The download name for language "constructor" ends in the printed `Object` function, not "txt". */
  lemma ConstructorExtension()
    ensures DownloadName("notes", "constructor") == "notes.function Object() { [native code] }"
  {
    assert "constructor" !in Extensions by {
      assert forall k :: k in Extensions ==> |k| <= 10;
    }
    assert "constructor" in InheritedKeys;
    assert GetExtension("constructor") == InheritedText("constructor") == NativeFunction("Object");
  }

  /** The download name `title.extension`. */
  function DownloadName(title: string, language: string): string {
    title + "." + GetExtension(language)
  }

  /** What follows the last dot of a name, or the whole name when it has none. */
  function AfterLastDot(s: string): string {
    if s == [] then []
    else if s[|s| - 1] == '.' then []
    else AfterLastDot(s[..|s| - 1]) + [s[|s| - 1]]
  }

  /** Reading the extension back off the download name gives `getExtension`'s answer, whatever the title. */
  lemma DownloadNameExtension(title: string, language: string)
    ensures AfterLastDot(DownloadName(title, language)) == GetExtension(language)
  {
    GetExtensionSpec(language);
    AfterLastDotOfDotted(title, GetExtension(language));
  }

  lemma {:induction false} AfterLastDotOfDotted(prefix: string, ext: string)
    requires '.' !in ext
    ensures AfterLastDot(prefix + "." + ext) == ext
  {
    if ext == [] {
    } else {
      var init := ext[..|ext| - 1];
      assert '.' !in init by {
        forall i | 0 <= i < |init| ensures init[i] != '.' {
          assert init[i] == ext[i];
        }
      }
      AfterLastDotOfDotted(prefix, init);
      var s := prefix + "." + ext;
      assert s[..|s| - 1] == prefix + "." + init;
      assert s[|s| - 1] == ext[|ext| - 1];
      assert ext == init + [ext[|ext| - 1]];
    }
  }
}
