/**
 * The inline segmenter of lib/markdown/inline.tsx: a loop that repeatedly
 * consumes a prefix of the remaining text, trying code, bold, strike,
 * italic, image and link patterns in that order and otherwise taking plain
 * text up to the next character that could open a pattern.
 *
 * `ParseInline` is the loop as written, specified by `InlineAsWritten`;
 * when the text ends in plain text, that loop leaves through `break` with
 * the tail still in `remaining` and the fallback after the loop pushes it a
 * second time. `Segments` is the corrected reading, which the lemmas at the
 * end relate to a partition of the input.
 */
module MarkdownInline {
  import opened Wrappers
  import opened JsString

  datatype Kind = Text | Bold | Italic | Code | Link | Strike | Image

  datatype Segment = Segment(kind: Kind, content: string, href: Option<string>)

  /** What one turn of the loop does: consume a prefix, or push the whole rest and stop. */
  datatype Step = Consume(seg: Segment, len: nat) | Tail(seg: Segment)

  // ---------------------------------------------------------------------------
  // The patterns, each anchored at the front of the remaining text
  // ---------------------------------------------------------------------------

  /** `/^`([^`]+)`/`: the code between the first two backticks. */
  function CodeSpan(r: string): (m: Option<string>)
    ensures m.Some? ==> |m.value| + 2 <= |r|
  {
    if |r| >= 1 && r[0] == '`' then
      var rest := r[1..];
      var k := Find(rest, '`');
      if 1 <= k < |rest| then Some(rest[..k]) else None
    else None
  }

  /** `/^dd([^d]+)dd/` for the doubled delimiter d (`**`, `__`, `~~`). */
  function Doubled(r: string, d: char): (m: Option<string>)
    ensures m.Some? ==> |m.value| + 4 <= |r|
  {
    if |r| >= 2 && r[0] == d && r[1] == d then
      var rest := r[2..];
      var k := Find(rest, d);
      if 1 <= k && k + 1 < |rest| && rest[k + 1] == d then Some(rest[..k]) else None
    else None
  }

  /** `/^d([^d\s][^d]*[^d\s]|[^d\s])d/` for the single delimiter d (`*`, `_`). */
  function Single(r: string, d: char): (m: Option<string>)
    ensures m.Some? ==> |m.value| + 2 <= |r|
  {
    if |r| >= 1 && r[0] == d then
      var rest := r[1..];
      var k := Find(rest, d);
      if 1 <= k < |rest| && !IsSpace(rest[0]) && !IsSpace(rest[k - 1]) then Some(rest[..k]) else None
    else None
  }

  /** `/([^\]]*)\]\(([^)]+)\)/` after the opening '[': the bracketed text and the target. */
  function Target(s: string): (m: Option<(string, string)>)
    ensures m.Some? ==> |m.value.0| + |m.value.1| + 3 <= |s|
  {
    var a := Find(s, ']');
    if a + 1 < |s| && s[a + 1] == '(' then
      var inner := s[a + 2..];
      var b := Find(inner, ')');
      if 1 <= b < |inner| then Some((s[..a], inner[..b])) else None
    else None
  }

  /** `/^!\[([^\]]*)\]\(([^)]+)\)/`. */
  function ImageRef(r: string): (m: Option<(string, string)>)
    ensures m.Some? ==> |m.value.0| + |m.value.1| + 5 <= |r|
  {
    if |r| >= 2 && r[0] == '!' && r[1] == '[' then Target(r[2..]) else None
  }

  /** `/^\[([^\]]+)\]\(([^)]+)\)/`: as a target, but the text may not be empty. */
  function LinkRef(r: string): (m: Option<(string, string)>)
    ensures m.Some? ==> |m.value.0| + |m.value.1| + 4 <= |r|
  {
    if |r| >= 1 && r[0] == '[' then
      var t := Target(r[1..]);
      if t.Some? && t.value.0 != [] then t else None
    else None
  }

  /** The characters of `/[*_`~\[!]/`, where plain text stops. */
  predicate IsSpecial(c: char) {
    c == '*' || c == '_' || c == '`' || c == '~' || c == '[' || c == '!'
  }

  /** `s.search(/[*_`~\[!]/)`, with |s| standing for -1. */
  function FindSpecial(s: string): (k: nat)
    ensures k <= |s|
  {
    if s == [] then 0 else if IsSpecial(s[0]) then 0 else 1 + FindSpecial(s[1..])
  }

  lemma {:induction false} FindSpecialSpec(s: string)
    ensures forall i :: 0 <= i < FindSpecial(s) ==> !IsSpecial(s[i])
    ensures FindSpecial(s) < |s| ==> IsSpecial(s[FindSpecial(s)])
  {
    if s != [] && !IsSpecial(s[0]) {
      FindSpecialSpec(s[1..]);
    }
  }

  // ---------------------------------------------------------------------------
  // One turn of the loop
  // ---------------------------------------------------------------------------

  /** The number of patterns the loop tries before falling back to plain text. */
  const PatternCount: nat := 8

  /** The p-th pattern in the order the loop tries them: the segment and the length it consumes. */
  function Pattern(r: string, p: nat): (m: Option<(Segment, nat)>)
    requires p < PatternCount
    ensures m.Some? ==> 0 < m.value.1 <= |r|
  {
    if p == 0 then
      var c := CodeSpan(r);
      if c.Some? then Some((Segment(Code, c.value, None), |c.value| + 2)) else None
    else if p == 1 || p == 2 then
      var c := Doubled(r, if p == 1 then '*' else '_');
      if c.Some? then Some((Segment(Bold, c.value, None), |c.value| + 4)) else None
    else if p == 3 then
      var c := Doubled(r, '~');
      if c.Some? then Some((Segment(Strike, c.value, None), |c.value| + 4)) else None
    else if p == 4 || p == 5 then
      var c := Single(r, if p == 4 then '*' else '_');
      if c.Some? then Some((Segment(Italic, c.value, None), |c.value| + 2)) else None
    else if p == 6 then
      var c := ImageRef(r);
      if c.Some? then Some((Segment(Image, c.value.0, Some(c.value.1)), |c.value.0| + |c.value.1| + 5)) else None
    else
      var c := LinkRef(r);
      if c.Some? then Some((Segment(Link, c.value.0, Some(c.value.1)), |c.value.0| + |c.value.1| + 4)) else None
  }

  /** The first of the patterns from the p-th on that matches at the front. */
  function MatchFrom(r: string, p: nat): (m: Option<(Segment, nat)>)
    requires p <= PatternCount
    ensures m.Some? ==> 0 < m.value.1 <= |r|
    decreases PatternCount - p
  {
    if p == PatternCount then None
    else
      var m := Pattern(r, p);
      if m.Some? then m else MatchFrom(r, p + 1)
  }

  /** The first pattern that matches at the front. */
  function Markup(r: string): (m: Option<(Segment, nat)>)
    ensures m.Some? ==> 0 < m.value.1 <= |r|
  {
    MatchFrom(r, 0)
  }

  /**
   * One turn: a pattern, or else the first character and the plain text up to
   * the next special character; with none left, the whole rest as a tail.
   */
  function Next(r: string): (s: Step)
    requires r != []
    ensures s.Consume? ==> 0 < s.len <= |r|
  {
    var m := Markup(r);
    if m.Some? then Consume(m.value.0, m.value.1)
    else
      var n := FindSpecial(r[1..]);
      if n == |r| - 1 then Tail(Segment(Text, r, None))
      else Consume(Segment(Text, r[..n + 1], None), n + 1)
  }

  /** The segments as the loop as written returns them: a final plain tail appears twice. */
  function InlineAsWritten(r: string): seq<Segment>
    decreases |r|
  {
    if r == [] then []
    else match Next(r)
      case Tail(seg) => [seg, seg]
      case Consume(seg, len) => [seg] + InlineAsWritten(r[len..])
  }

  /** The corrected segments: a final plain tail appears once. */
  function Segments(r: string): seq<Segment>
    decreases |r|
  {
    if r == [] then []
    else match Next(r)
      case Tail(seg) => [seg]
      case Consume(seg, len) => [seg] + Segments(r[len..])
  }

  /** The prefixes of the text the turns consume, in order. */
  function Pieces(r: string): seq<string>
    decreases |r|
  {
    if r == [] then []
    else match Next(r)
      case Tail(_) => [r]
      case Consume(_, len) => [r[..len]] + Pieces(r[len..])
  }

  /** Whether the last turn pushes a plain tail, the case the loop as written repeats. */
  predicate EndsInTail(r: string)
    decreases |r|
  {
    r != [] && match Next(r)
      case Tail(_) => true
      case Consume(_, len) => EndsInTail(r[len..])
  }

  // ---------------------------------------------------------------------------
  // The loop
  // ---------------------------------------------------------------------------

  /**
   * The body of the loop up to `continue` or `break`: the segment it pushes,
   * the text that remains, and whether it breaks out, which it does only on
   * a plain tail, leaving that tail in `remaining`.
   */
  method Turn(remaining: string) returns (seg: Segment, rest: string, stop: bool)
    requires remaining != []
    ensures stop ==>
      rest == remaining && seg == Segment(Text, remaining, None) && InlineAsWritten(remaining) == [seg, seg]
    ensures !stop ==> |rest| < |remaining| && InlineAsWritten(remaining) == [seg] + InlineAsWritten(rest)
  {
    var m := Markup(remaining);
    if m.Some? {
      seg, rest, stop := m.value.0, remaining[m.value.1..], false;
    } else {
      var nextSpecial := FindSpecial(remaining[1..]);
      if nextSpecial == |remaining| - 1 {
        seg, rest, stop := Segment(Text, remaining, None), remaining, true;
      } else {
        seg, rest, stop := Segment(Text, remaining[..nextSpecial + 1], None), remaining[nextSpecial + 1..], false;
      }
    }
  }

  /** Pushing a turn's segment moves it from the part still to come to the part already built. */
  lemma AppendTurn(built: seq<Segment>, seg: Segment, now: seq<Segment>, later: seq<Segment>)
    requires now == [seg] + later
    ensures built + now == (built + [seg]) + later
  {
  }

  /**
   * `parseInline`: the cap of twice the length is never reached, since every
   * turn consumes at least one character.
   */
  method ParseInline(text: string) returns (segments: seq<Segment>)
    ensures segments == InlineAsWritten(text)
  {
    segments := [];
    var remaining := text;
    var iterations := 0;
    var maxIterations := |text| * 2;
    while remaining != []
      invariant iterations <= |text| - |remaining|
      invariant segments + InlineAsWritten(remaining) == InlineAsWritten(text)
      decreases |remaining|
    {
      var underCap := iterations < maxIterations;
      iterations := iterations + 1;
      if !underCap {
        assert false;
        break;
      }
      var seg, rest, stop := Turn(remaining);
      if stop {
        AppendTurn(segments, seg, InlineAsWritten(remaining), [seg]);
      } else {
        AppendTurn(segments, seg, InlineAsWritten(remaining), InlineAsWritten(rest));
      }
      segments := segments + [seg];
      if stop {
        break;
      }
      remaining := rest;
    }
    if remaining != [] {
      segments := segments + [Segment(Text, remaining, None)];
    }
  }

  // ---------------------------------------------------------------------------
  // What each pattern captures, and that it captures every such text
  // ---------------------------------------------------------------------------

  /** p is the content c between two single delimiters d, with no d inside it and something there. */
  predicate Wrapped(p: string, c: string, d: char) {
    p == [d] + c + [d] && c != [] && !Includes(c, d)
  }

  /** p is the content c between doubled delimiters d, with no d inside it and something there. */
  predicate DoublyWrapped(p: string, c: string, d: char) {
    p == [d, d] + c + [d, d] && c != [] && !Includes(c, d)
  }

  /** p is the bracketed text t and the parenthesised target h, with no ']' in t and a non-empty h without ')'. */
  predicate Reference(p: string, t: string, h: string) {
    p == t + [']', '('] + h + [')'] && !Includes(t, ']') && h != [] && !Includes(h, ')')
  }

  /** Code is the non-empty text between the first two backticks. */
  lemma CodeSpanSound(r: string)
    requires CodeSpan(r).Some?
    ensures Wrapped(r[..|CodeSpan(r).value| + 2], CodeSpan(r).value, '`')
  {
    var rest := r[1..];
    var k := Find(rest, '`');
    FindSpec(rest, '`');
    FindPrefixExcludes(rest, '`');
    assert r[..k + 2] == ['`'] + rest[..k] + ['`'];
  }

  lemma CodeSpanComplete(c: string, tail: string)
    requires c != [] && !Includes(c, '`')
    ensures CodeSpan(['`'] + c + ['`'] + tail) == Some(c)
  {
    var r := ['`'] + c + ['`'] + tail;
    assert r[1..] == c + ['`'] + tail;
    FindAfterPrefix(c, tail, '`');
    assert r[1..][..|c|] == c;
  }

  /** Bold and strike take the non-empty text up to the first delimiter, which must be doubled. */
  lemma DoubledSound(r: string, d: char)
    requires Doubled(r, d).Some?
    ensures DoublyWrapped(r[..|Doubled(r, d).value| + 4], Doubled(r, d).value, d)
  {
    var rest := r[2..];
    var k := Find(rest, d);
    FindSpec(rest, d);
    FindPrefixExcludes(rest, d);
    assert r[..k + 4] == [d, d] + rest[..k] + [d, d];
  }

  lemma DoubledComplete(c: string, d: char, tail: string)
    requires c != [] && !Includes(c, d)
    ensures Doubled([d, d] + c + [d, d] + tail, d) == Some(c)
  {
    var r := [d, d] + c + [d, d] + tail;
    assert r[2..] == c + [d] + ([d] + tail);
    FindAfterPrefix(c, [d] + tail, d);
    assert r[2..][..|c|] == c;
  }

  /** Italic takes the non-empty text up to the next delimiter, which neither starts nor ends with whitespace. */
  lemma SingleSound(r: string, d: char)
    requires Single(r, d).Some?
    ensures var c := Single(r, d).value;
      Wrapped(r[..|c| + 2], c, d) && !IsSpace(c[0]) && !IsSpace(c[|c| - 1])
  {
    var rest := r[1..];
    var k := Find(rest, d);
    FindSpec(rest, d);
    FindPrefixExcludes(rest, d);
    assert r[..k + 2] == [d] + rest[..k] + [d];
  }

  lemma SingleComplete(c: string, d: char, tail: string)
    requires c != [] && !Includes(c, d) && !IsSpace(c[0]) && !IsSpace(c[|c| - 1])
    ensures Single([d] + c + [d] + tail, d) == Some(c)
  {
    var r := [d] + c + [d] + tail;
    assert r[1..] == c + [d] + tail;
    FindAfterPrefix(c, tail, d);
    assert r[1..][..|c|] == c;
  }

  /** A target is the text up to the first ']', then '(' and a non-empty target up to the first ')'. */
  lemma TargetSound(s: string)
    requires Target(s).Some?
    ensures var (t, h) := Target(s).value;
      Reference(s[..|t| + |h| + 3], t, h)
  {
    var a := Find(s, ']');
    FindSpec(s, ']');
    FindPrefixExcludes(s, ']');
    var inner := s[a + 2..];
    var b := Find(inner, ')');
    FindSpec(inner, ')');
    FindPrefixExcludes(inner, ')');
    assert s[..a + b + 3] == s[..a] + [']', '('] + inner[..b] + [')'];
  }

  lemma TargetComplete(t: string, h: string, tail: string)
    requires !Includes(t, ']') && h != [] && !Includes(h, ')')
    ensures Target(t + [']', '('] + h + [')'] + tail) == Some((t, h))
  {
    var s := t + [']', '('] + h + [')'] + tail;
    assert s == t + [']'] + (['('] + h + [')'] + tail);
    FindAfterPrefix(t, ['('] + h + [')'] + tail, ']');
    var inner := s[|t| + 2..];
    assert inner == h + [')'] + tail;
    FindAfterPrefix(h, tail, ')');
    assert s[..|t|] == t;
    assert inner[..|h|] == h;
  }

  // ---------------------------------------------------------------------------
  // The segments read a partition of the text
  // ---------------------------------------------------------------------------

  /** The piece p of the text is written as the segment: delimiters and content for markup, itself for text. */
  predicate Renders(p: string, seg: Segment) {
    var c := seg.content;
    match seg.kind
      case Code => seg.href.None? && Wrapped(p, c, '`')
      case Bold => seg.href.None? && (DoublyWrapped(p, c, '*') || DoublyWrapped(p, c, '_'))
      case Strike => seg.href.None? && DoublyWrapped(p, c, '~')
      case Italic => seg.href.None? && (Wrapped(p, c, '*') || Wrapped(p, c, '_'))
        && !IsSpace(c[0]) && !IsSpace(c[|c| - 1])
      case Image => seg.href.Some? && |p| >= 2 && p[..2] == ['!', '['] && Reference(p[2..], c, seg.href.value)
      case Link => seg.href.Some? && |p| >= 1 && p[..1] == ['['] && c != [] && Reference(p[1..], c, seg.href.value)
      case Text => seg.href.None? && p == c && c != [] && forall i :: 1 <= i < |c| ==> !IsSpecial(c[i])
  }

  /** Each pattern renders the prefix it consumes. */
  lemma PatternRenders(r: string, p: nat)
    requires p < PatternCount && Pattern(r, p).Some?
    ensures Renders(r[..Pattern(r, p).value.1], Pattern(r, p).value.0)
  {
    if p == 0 {
      CodeSpanSound(r);
    } else if p == 1 || p == 2 {
      DoubledSound(r, if p == 1 then '*' else '_');
    } else if p == 3 {
      DoubledSound(r, '~');
    } else if p == 4 || p == 5 {
      SingleSound(r, if p == 4 then '*' else '_');
    } else if p == 6 {
      ImageRefSound(r);
    } else {
      LinkRefSound(r);
    }
  }

  /** A markup match renders the prefix it consumes. */
  lemma {:induction false} MatchFromRenders(r: string, p: nat)
    requires p <= PatternCount && MatchFrom(r, p).Some?
    ensures Renders(r[..MatchFrom(r, p).value.1], MatchFrom(r, p).value.0)
    decreases PatternCount - p
  {
    if Pattern(r, p).Some? {
      PatternRenders(r, p);
    } else {
      MatchFromRenders(r, p + 1);
    }
  }

  /** An image is "![", a reference with a possibly empty text, and nothing else. */
  lemma ImageRefSound(r: string)
    requires ImageRef(r).Some?
    ensures var (t, h) := ImageRef(r).value;
      var p := r[..|t| + |h| + 5];
      p[..2] == ['!', '['] && Reference(p[2..], t, h)
  {
    var (t, h) := ImageRef(r).value;
    TargetSound(r[2..]);
    assert r[..|t| + |h| + 5][2..] == r[2..][..|t| + |h| + 3];
  }

  /** A link is "[", a reference with a non-empty text, and nothing else. */
  lemma LinkRefSound(r: string)
    requires LinkRef(r).Some?
    ensures var (t, h) := LinkRef(r).value;
      var p := r[..|t| + |h| + 4];
      p[..1] == ['['] && t != [] && Reference(p[1..], t, h)
  {
    var (t, h) := LinkRef(r).value;
    TargetSound(r[1..]);
    assert r[..|t| + |h| + 4][1..] == r[1..][..|t| + |h| + 3];
  }

  /**
   * Plain text is the first character and the text up to the next special
   * character, which is left for the next turn; with none, the whole rest.
   */
  lemma PlainText(r: string)
    requires r != [] && Markup(r).None?
    ensures Next(r).seg.kind == Text
    ensures var n := if Next(r).Consume? then Next(r).len else |r|;
      Next(r).seg.content == r[..n] && (n < |r| ==> IsSpecial(r[n]))
      && forall i :: 1 <= i < n ==> !IsSpecial(r[i])
  {
    var t := r[1..];
    FindSpecialSpec(t);
    var n := FindSpecial(t);
    assert forall i :: 1 <= i < n + 1 ==> r[i] == t[i - 1];
  }

  /** Every turn renders the piece it consumes. */
  lemma NextRenders(r: string)
    requires r != []
    ensures Next(r).Consume? ==> Renders(r[..Next(r).len], Next(r).seg)
    ensures Next(r).Tail? ==> Renders(r, Next(r).seg)
  {
    if Markup(r).Some? {
      MatchFromRenders(r, 0);
    } else {
      PlainText(r);
    }
  }

  function Flatten(ps: seq<string>): string {
    if ps == [] then [] else ps[0] + Flatten(ps[1..])
  }

  /** Each piece renders the segment at the same place. */
  predicate AllRender(ps: seq<string>, ss: seq<Segment>) {
    |ps| == |ss| && forall k :: 0 <= k < |ps| ==> Renders(ps[k], ss[k])
  }

  lemma AllRenderCons(p: string, s: Segment, ps: seq<string>, ss: seq<Segment>)
    requires Renders(p, s) && AllRender(ps, ss)
    ensures AllRender([p] + ps, [s] + ss)
  {
    forall k | 0 <= k < |ps| + 1
      ensures Renders(([p] + ps)[k], ([s] + ss)[k])
    {
      if k > 0 {
        assert ([p] + ps)[k] == ps[k - 1] && ([s] + ss)[k] == ss[k - 1];
      }
    }
  }

  /** The pieces the turns consume concatenate to the text: every character is read exactly once. */
  lemma {:induction false} PiecesFlatten(r: string)
    ensures Flatten(Pieces(r)) == r
    decreases |r|
  {
    if r != [] {
      var st := Next(r);
      if st.Consume? {
        PiecesFlatten(r[st.len..]);
        assert r[..st.len] + r[st.len..] == r;
      }
    }
  }

  /** The corrected segments are a reading of those pieces, one segment per piece. */
  lemma {:induction false} SegmentsRender(r: string)
    ensures AllRender(Pieces(r), Segments(r))
    decreases |r|
  {
    if r != [] {
      NextRenders(r);
      var st := Next(r);
      if st.Consume? {
        SegmentsRender(r[st.len..]);
        AllRenderCons(r[..st.len], st.seg, Pieces(r[st.len..]), Segments(r[st.len..]));
      } else {
        AllRenderCons(r, st.seg, [], []);
      }
    }
  }

  /** Every segment consumes at least one character, so there are at most as many segments as characters. */
  lemma {:induction false} SegmentCount(r: string)
    ensures |Segments(r)| <= |r|
    decreases |r|
  {
    if r != [] && Next(r).Consume? {
      SegmentCount(r[Next(r).len..]);
    }
  }

  // ---------------------------------------------------------------------------
  // The defect: the tail pushed twice
  // ---------------------------------------------------------------------------

  /** The plain tail that the last turn pushes, when there is one. */
  function TailSeg(r: string): Segment
    requires EndsInTail(r)
    decreases |r|
  {
    match Next(r)
      case Tail(seg) => seg
      case Consume(_, len) => TailSeg(r[len..])
  }

  /** When the text ends in plain text, the loop as written returns the corrected segments and that tail once more. */
  lemma {:induction false} AsWrittenRepeatsTail(r: string)
    requires EndsInTail(r)
    ensures InlineAsWritten(r) == Segments(r) + [TailSeg(r)]
    decreases |r|
  {
    var st := Next(r);
    if st.Consume? {
      var rest := r[st.len..];
      AsWrittenRepeatsTail(rest);
      assert [st.seg] + (Segments(rest) + [TailSeg(rest)]) == ([st.seg] + Segments(rest)) + [TailSeg(rest)];
    }
  }

  /** That tail is the last corrected segment: the repeated segment is a copy of the one before it. */
  lemma {:induction false} TailSegIsLast(r: string)
    requires EndsInTail(r)
    ensures |Segments(r)| >= 1 && Segments(r)[|Segments(r)| - 1] == TailSeg(r)
    decreases |r|
  {
    var st := Next(r);
    if st.Consume? {
      var rest := r[st.len..];
      TailSegIsLast(rest);
    }
  }

  /** Otherwise the loop as written returns exactly the corrected segments. */
  lemma {:induction false} AsWrittenAgrees(r: string)
    requires !EndsInTail(r)
    ensures InlineAsWritten(r) == Segments(r)
    decreases |r|
  {
    if r != [] {
      AsWrittenAgrees(r[Next(r).len..]);
    }
  }

  /** "hello" holds no special character: it is one plain tail. */
  lemma HelloIsTail()
    ensures Next("hello") == Tail(Segment(Text, "hello", None))
  {
    assert Markup("hello").None?;
    assert FindSpecial("ello") == 4;
  }

  /** "hello": the loop as written returns two "hello" segments. */
  lemma HelloTwice()
    ensures InlineAsWritten("hello") == [Segment(Text, "hello", None), Segment(Text, "hello", None)]
  {
    HelloIsTail();
  }

  /** The corrected reading returns one. */
  lemma HelloOnce()
    ensures Segments("hello") == [Segment(Text, "hello", None)]
  {
    HelloIsTail();
  }
}
