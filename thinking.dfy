/**
 * Thinking markers in an assistant reply (components/chat/thinking-sidebar.tsx).
 *
 * The server wraps each reasoning step of a reply in
 * `<!--THINKING_START:id:timestamp-->` ... `<!--THINKING_END:id:duration:total-->`.
 * `parseThinkingSessions` finds both kinds of marker, builds one session per
 * start marker, and cuts the marked spans out of the text; `extractTitle`
 * turns the first line of a session into a short title.
 */
module Thinking {
  import opened Wrappers
  import opened JsString

  const StartPrefix: string := "<!--THINKING_START:"
  const EndPrefix: string := "<!--THINKING_END:"
  const MarkerClose: string := "-->"

  /** A start-marker match: where it begins, its two numbers, and where the match ends. */
  datatype StartMark = StartMark(index: nat, id: nat, timestamp: nat, matchEnd: nat)

  /** An end-marker match; `endIndex` is where the match ends. */
  datatype EndMark = EndMark(index: nat, id: nat, duration: nat, totalTime: nat, endIndex: nat)

  datatype Session = Session(id: nat, duration: nat, content: string, isComplete: bool)

  /** A span of the text to cut out: `start` up to, not including, `end`. */
  datatype Range = Range(start: nat, end: nat)

  datatype Parsed = Parsed(sessions: seq<Session>, totalTime: nat, cleanContent: string)

  // ---------------------------------------------------------------------
  // Reading the markers
  // ---------------------------------------------------------------------

  /** Length of the run of digits starting at `p`. */
  function DigitRun(s: string, p: nat): (n: nat)
    requires p <= |s|
    ensures p + n <= |s|
    decreases |s| - p
  {
    if p < |s| && IsDigit(s[p]) then 1 + DigitRun(s, p + 1) else 0
  }

  /** The run is all digits and is followed by a non-digit or the end. */
  lemma {:induction false} DigitRunSpec(s: string, p: nat)
    requires p <= |s|
    ensures AllDigits(s[p..p + DigitRun(s, p)])
    ensures p + DigitRun(s, p) < |s| ==> !IsDigit(s[p + DigitRun(s, p)])
    decreases |s| - p
  {
    if p < |s| && IsDigit(s[p]) {
      DigitRunSpec(s, p + 1);
      var n := DigitRun(s, p);
      assert s[p..p + n] == [s[p]] + s[p + 1..p + n];
    }
  }

  /** The digit groups of a marker and the position just after its `-->`. */
  datatype Fields = Fields(digits: seq<string>, end: nat)

  /**
   * The tail `(\d+):...:(\d+)-->` of a marker with `count` groups, read at
   * `p`. Each `\d+` takes the whole run of digits: backing off to a shorter
   * run would leave a digit where the pattern wants ':' or '-'.
   */
  function ReadFields(s: string, p: nat, count: nat): (r: Option<Fields>)
    requires p <= |s| && count >= 1
    ensures r.Some? ==> |r.value.digits| == count && p < r.value.end <= |s|
    decreases count
  {
    var n := DigitRun(s, p);
    var q := p + n;
    if n == 0 then None
    else if count == 1 then
      if ClosesAt(s, q) then Some(Fields([s[p..q]], q + 3)) else None
    else if q < |s| && s[q] == ':' then
      match ReadFields(s, q + 1, count - 1)
      case None => None
      case Some(f) => Some(Fields([s[p..q]] + f.digits, f.end))
    else None
  }

  /** `-->` at `q`. */
  predicate ClosesAt(s: string, q: nat) {
    q + 3 <= |s| && s[q] == '-' && s[q + 1] == '-' && s[q + 2] == '>'
  }

  /** A match of `/<!--THINKING_START:(\d+):(\d+)-->/` beginning exactly at `p`. */
  function StartAt(s: string, p: nat): (r: Option<StartMark>)
    requires p <= |s|
    ensures r.Some? ==> r.value.index == p && p < r.value.matchEnd <= |s|
  {
    if StartsWith(s[p..], StartPrefix) then
      match ReadFields(s, p + |StartPrefix|, 2)
      case None => None
      case Some(f) => Some(StartMark(p, ParseDecimal(f.digits[0]), ParseDecimal(f.digits[1]), f.end))
    else None
  }

  /** A match of `/<!--THINKING_END:(\d+):(\d+):(\d+)-->/` beginning exactly at `p`. */
  function EndAt(s: string, p: nat): (r: Option<EndMark>)
    requires p <= |s|
    ensures r.Some? ==> r.value.index == p && p < r.value.endIndex <= |s|
  {
    if StartsWith(s[p..], EndPrefix) then
      match ReadFields(s, p + |EndPrefix|, 3)
      case None => None
      case Some(f) => Some(EndMark(p, ParseDecimal(f.digits[0]), ParseDecimal(f.digits[1]), ParseDecimal(f.digits[2]), f.end))
    else None
  }

  /** The start markers a global regex finds from `p` on: each search resumes where the last match ended. */
  function StartsFrom(s: string, p: nat): seq<StartMark>
    requires p <= |s|
    decreases |s| - p
  {
    if p == |s| then []
    else match StartAt(s, p)
      case Some(m) => [m] + StartsFrom(s, m.matchEnd)
      case None => StartsFrom(s, p + 1)
  }

  /** The end markers a global regex finds from `p` on. */
  function EndsFrom(s: string, p: nat): seq<EndMark>
    requires p <= |s|
    decreases |s| - p
  {
    if p == |s| then []
    else match EndAt(s, p)
      case Some(m) => [m] + EndsFrom(s, m.endIndex)
      case None => EndsFrom(s, p + 1)
  }

  /** The `while ((match = startRegex.exec(content)) !== null)` loop. */
  method ScanStarts(content: string) returns (starts: seq<StartMark>)
    ensures starts == StartsFrom(content, 0)
  {
    starts := [];
    var pos := 0;
    while pos < |content|
      invariant pos <= |content|
      invariant starts + StartsFrom(content, pos) == StartsFrom(content, 0)
      decreases |content| - pos
    {
      var m := StartAt(content, pos);
      if m.Some? {
        assert starts + StartsFrom(content, pos) == (starts + [m.value]) + StartsFrom(content, m.value.matchEnd);
        starts := starts + [m.value];
        pos := m.value.matchEnd;
      } else {
        pos := pos + 1;
      }
    }
  }

  /** The `while ((match = endRegex.exec(content)) !== null)` loop. */
  method ScanEnds(content: string) returns (ends: seq<EndMark>)
    ensures ends == EndsFrom(content, 0)
  {
    ends := [];
    var pos := 0;
    while pos < |content|
      invariant pos <= |content|
      invariant ends + EndsFrom(content, pos) == EndsFrom(content, 0)
      decreases |content| - pos
    {
      var m := EndAt(content, pos);
      if m.Some? {
        assert ends + EndsFrom(content, pos) == (ends + [m.value]) + EndsFrom(content, m.value.endIndex);
        ends := ends + [m.value];
        pos := m.value.endIndex;
      } else {
        pos := pos + 1;
      }
    }
  }

  // ---------------------------------------------------------------------
  // Sessions
  // ---------------------------------------------------------------------

  /** Position of the first end marker with this id (`ends.find`), or `|ends|`. */
  function FirstEndIndex(ends: seq<EndMark>, id: nat): (k: nat)
    ensures k <= |ends|
  {
    if ends == [] then 0 else if ends[0].id == id then 0 else 1 + FirstEndIndex(ends[1..], id)
  }

  /** `ends.find(e => e.id === id)`. */
  function FirstEnd(ends: seq<EndMark>, id: nat): Option<EndMark> {
    var k := FirstEndIndex(ends, id);
    if k < |ends| then Some(ends[k]) else None
  }

  /** The start marker as the program prints it back from the two numbers it read. */
  function StartText(id: nat, timestamp: nat): string {
    StartPrefix + ToDecimal(id) + ":" + ToDecimal(timestamp) + MarkerClose
  }

  /** The session a start marker opens; its text begins after the reprinted marker. */
  function SessionOf(content: string, start: StartMark, ends: seq<EndMark>): Session {
    var end := FirstEnd(ends, start.id);
    var contentStart := start.index + |StartText(start.id, start.timestamp)|;
    var contentEnd := if end.Some? then end.value.index else |content|;
    Session(start.id, if end.Some? then end.value.duration else 0,
            Slice(content, contentStart, contentEnd), end.Some?)
  }

  /** The span a start marker has cut: through its end marker, or to the end of the text. */
  function RangeOf(content: string, start: StartMark, ends: seq<EndMark>): Range {
    match FirstEnd(ends, start.id)
    case Some(e) => Range(start.index, e.endIndex)
    case None => Range(start.index, |content|)
  }

  function SessionsOf(content: string, starts: seq<StartMark>, ends: seq<EndMark>): (r: seq<Session>)
    ensures |r| == |starts|
  {
    if starts == [] then []
    else SessionsOf(content, starts[..|starts| - 1], ends) + [SessionOf(content, starts[|starts| - 1], ends)]
  }

  function RangesOf(content: string, starts: seq<StartMark>, ends: seq<EndMark>): (r: seq<Range>)
    ensures |r| == |starts|
  {
    if starts == [] then []
    else RangesOf(content, starts[..|starts| - 1], ends) + [RangeOf(content, starts[|starts| - 1], ends)]
  }

  /** `totalTime` after the loop: set by each start that found an end, so the last such one wins. */
  function LastTotal(starts: seq<StartMark>, ends: seq<EndMark>): nat {
    if starts == [] then 0
    else match FirstEnd(ends, starts[|starts| - 1].id)
      case Some(e) => e.totalTime
      case None => LastTotal(starts[..|starts| - 1], ends)
  }

  /** `s.slice(0, r.start) + s.slice(r.end)`. */
  function Cut(s: string, r: Range): string {
    Slice(s, 0, r.start) + SliceFrom(s, r.end)
  }

  /** The cuts applied one after another, in list order. */
  function CutAll(s: string, rs: seq<Range>): string
    decreases |rs|
  {
    if rs == [] then s else CutAll(Cut(s, rs[0]), rs[1..])
  }

  function Reverse<T>(xs: seq<T>): (r: seq<T>)
    ensures |r| == |xs|
  {
    if xs == [] then [] else Reverse(xs[1..]) + [xs[0]]
  }

  /** What `parseThinkingSessions` returns. */
  function ParseThinking(content: string): Parsed {
    var starts := StartsFrom(content, 0);
    var ends := EndsFrom(content, 0);
    Parsed(SessionsOf(content, starts, ends), LastTotal(starts, ends),
           Trim(CutAll(content, Reverse(RangesOf(content, starts, ends)))))
  }

  /** The `for` loop over the start markers: one session and one span per start, and the running `totalTime`. */
  method BuildSessions(content: string, starts: seq<StartMark>, ends: seq<EndMark>)
    returns (sessions: seq<Session>, totalTime: nat, ranges: seq<Range>)
    ensures sessions == SessionsOf(content, starts, ends)
    ensures totalTime == LastTotal(starts, ends)
    ensures ranges == RangesOf(content, starts, ends)
  {
    sessions := [];
    totalTime := 0;
    ranges := [];
    for i := 0 to |starts|
      invariant sessions == SessionsOf(content, starts[..i], ends)
      invariant ranges == RangesOf(content, starts[..i], ends)
      invariant totalTime == LastTotal(starts[..i], ends)
    {
      var start := starts[i];
      var end := FirstEnd(ends, start.id);
      var startMarker := StartText(start.id, start.timestamp);
      var contentStart := start.index + |startMarker|;
      var contentEnd := if end.Some? then end.value.index else |content|;
      var sessionContent := Slice(content, contentStart, contentEnd);
      assert starts[..i + 1][..i] == starts[..i];
      assert Session(start.id, if end.Some? then end.value.duration else 0, sessionContent, end.Some?)
        == SessionOf(content, start, ends);
      sessions := sessions + [Session(start.id, if end.Some? then end.value.duration else 0, sessionContent, end.Some?)];
      if end.Some? {
        totalTime := end.value.totalTime;
        ranges := ranges + [Range(start.index, end.value.endIndex)];
      } else {
        ranges := ranges + [Range(start.index, |content|)];
      }
    }
    assert starts[..|starts|] == starts;
  }

  /** The `for (const range of rangesToRemove)` loop: each span is cut from the text as it stands. */
  method CutSpans(content: string, sorted: seq<Range>) returns (cleanContent: string)
    ensures cleanContent == CutAll(content, sorted)
  {
    cleanContent := content;
    for k := 0 to |sorted|
      invariant CutAll(cleanContent, sorted[k..]) == CutAll(content, sorted)
    {
      assert sorted[k..][1..] == sorted[k + 1..];
      cleanContent := Slice(cleanContent, 0, sorted[k].start) + SliceFrom(cleanContent, sorted[k].end);
    }
  }

  /**
   * `parseThinkingSessions`: scan both markers, build the sessions and the
   * spans to cut, order the spans by descending start, cut them, trim.
   */
  method ParseThinkingSessions(content: string) returns (sessions: seq<Session>, totalTime: nat, cleanContent: string)
    ensures Parsed(sessions, totalTime, cleanContent) == ParseThinking(content)
  {
    var starts := ScanStarts(content);
    var ends := ScanEnds(content);
    var ranges;
    sessions, totalTime, ranges := BuildSessions(content, starts, ends);
    var sorted := Reverse(ranges);
    cleanContent := CutSpans(content, sorted);
    cleanContent := Trim(cleanContent);
  }

  // ---------------------------------------------------------------------
  // Properties of the markers found
  // ---------------------------------------------------------------------

  /** Every start found is a match at its index, at or after `p`. */
  lemma {:induction false} StartsSound(s: string, p: nat)
    requires p <= |s|
    ensures forall k :: 0 <= k < |StartsFrom(s, p)| ==>
      p <= StartsFrom(s, p)[k].index < |s| && StartAt(s, StartsFrom(s, p)[k].index) == Some(StartsFrom(s, p)[k])
    decreases |s| - p
  {
    if p < |s| {
      var m := StartAt(s, p);
      if m.Some? {
        StartsSound(s, m.value.matchEnd);
      } else {
        StartsSound(s, p + 1);
      }
    }
  }

  /** The starts found do not overlap and come in text order. */
  lemma {:induction false} StartsDisjoint(s: string, p: nat)
    requires p <= |s|
    ensures forall i, j :: 0 <= i < j < |StartsFrom(s, p)| ==> StartsFrom(s, p)[i].matchEnd <= StartsFrom(s, p)[j].index
    decreases |s| - p
  {
    if p < |s| {
      var m := StartAt(s, p);
      if m.Some? {
        var xs := StartsFrom(s, m.value.matchEnd);
        StartsDisjoint(s, m.value.matchEnd);
        StartsSound(s, m.value.matchEnd);
        assert StartsFrom(s, p) == [m.value] + xs;
      } else {
        StartsDisjoint(s, p + 1);
      }
    }
  }

  /** With no start marker from `p` on, none is found. */
  lemma {:induction false} StartsFromEmpty(s: string, p: nat)
    requires p <= |s|
    requires forall q :: p <= q < |s| ==> StartAt(s, q).None?
    ensures StartsFrom(s, p) == []
    decreases |s| - p
  {
    if p < |s| {
      StartsFromEmpty(s, p + 1);
    }
  }

  /** No character of a marker tail is '<'. */
  lemma {:induction false} FieldsHaveNoOpen(s: string, p: nat, count: nat)
    requires p <= |s| && count >= 1 && ReadFields(s, p, count).Some?
    ensures forall q :: p <= q < ReadFields(s, p, count).value.end ==> s[q] != '<'
    decreases count
  {
    var n := DigitRun(s, p);
    DigitRunSpec(s, p);
    assert forall q :: p <= q < p + n ==> s[q] == s[p..p + n][q - p];
    var q := p + n;
    if count > 1 {
      FieldsHaveNoOpen(s, q + 1, count - 1);
    }
  }

  /** Past its first character the start-marker prefix holds no '<'. */
  lemma PrefixHasNoOpen(k: nat)
    requires 1 <= k < |StartPrefix|
    ensures StartPrefix[k] != '<'
  {
  }

  /** Inside a match the text agrees with the marker prefix. */
  lemma PrefixChar(s: string, p: nat, q: nat)
    requires p <= |s| && StartsWith(s[p..], StartPrefix) && p <= q < p + |StartPrefix|
    ensures s[q] == StartPrefix[q - p]
  {
    assert s[p..][..|StartPrefix|] == StartPrefix;
    assert s[q] == s[p..][..|StartPrefix|][q - p];
  }

  /** A start marker begins with '<'. */
  lemma StartOpens(s: string, q: nat)
    requires q <= |s|
    ensures StartAt(s, q).Some? ==> q < |s| && s[q] == '<'
  {
    if StartsWith(s[q..], StartPrefix) {
      PrefixChar(s, q, q);
    }
  }

  /** A start marker holds no '<' after its first character, so no other start marker begins inside it. */
  lemma StartHasNoOpen(s: string, p: nat, q: nat)
    requires p < q <= |s| && StartAt(s, p).Some? && q < StartAt(s, p).value.matchEnd
    ensures StartAt(s, q).None?
  {
    StartOpens(s, q);
    if q < p + |StartPrefix| {
      PrefixChar(s, p, q);
      PrefixHasNoOpen(q - p);
    } else {
      FieldsHaveNoOpen(s, p + |StartPrefix|, 2);
    }
  }

  /** Every start marker in the text from `p` on is found. */
  lemma {:induction false} StartsComplete(s: string, p: nat, q: nat)
    requires p <= q < |s| && StartAt(s, q).Some?
    ensures exists k :: 0 <= k < |StartsFrom(s, p)| && StartsFrom(s, p)[k].index == q
    decreases |s| - p
  {
    var m := StartAt(s, p);
    if m.None? {
      assert StartsFrom(s, p) == StartsFrom(s, p + 1);
      StartsComplete(s, p + 1, q);
    } else {
      var xs := StartsFrom(s, m.value.matchEnd);
      assert StartsFrom(s, p) == [m.value] + xs;
      if q == p {
        assert StartsFrom(s, p)[0].index == q;
      } else if q < m.value.matchEnd {
        StartHasNoOpen(s, p, q);
        assert false;
      } else {
        StartsComplete(s, m.value.matchEnd, q);
        var k :| 0 <= k < |xs| && xs[k].index == q;
        assert StartsFrom(s, p)[k + 1].index == q;
      }
    }
  }

  /** `FirstEndIndex` stops at the first end marker with the id, and only there. */
  lemma {:induction false} FirstEndSpec(ends: seq<EndMark>, id: nat)
    ensures forall i :: 0 <= i < FirstEndIndex(ends, id) ==> ends[i].id != id
    ensures FirstEndIndex(ends, id) < |ends| ==> ends[FirstEndIndex(ends, id)].id == id
  {
    if ends != [] && ends[0].id != id {
      FirstEndSpec(ends[1..], id);
    }
  }

  // ---------------------------------------------------------------------
  // Properties of the sessions
  // ---------------------------------------------------------------------

  /** The k-th session and the k-th span come from the k-th start marker. */
  lemma {:induction false} SessionsAt(content: string, starts: seq<StartMark>, ends: seq<EndMark>, k: nat)
    requires k < |starts|
    ensures SessionsOf(content, starts, ends)[k] == SessionOf(content, starts[k], ends)
    ensures RangesOf(content, starts, ends)[k] == RangeOf(content, starts[k], ends)
  {
    var init := starts[..|starts| - 1];
    if k < |init| {
      SessionsAt(content, init, ends, k);
    }
  }

  /**
   * One session per start marker, in text order, carrying its id; it is
   * complete exactly when some end marker has that id, and then takes its
   * duration from the first such end marker, else 0.
   */
  lemma SessionPerStart(content: string, k: nat)
    requires k < |StartsFrom(content, 0)|
    ensures var starts := StartsFrom(content, 0);
      var ends := EndsFrom(content, 0);
      var sn := ParseThinking(content).sessions[k];
      |ParseThinking(content).sessions| == |starts|
      && sn.id == starts[k].id
      && sn.isComplete == FirstEnd(ends, sn.id).Some?
      && (sn.isComplete <==> exists j :: 0 <= j < |ends| && ends[j].id == sn.id)
      && (sn.isComplete ==> sn.duration == FirstEnd(ends, sn.id).value.duration)
      && (!sn.isComplete ==> sn.duration == 0)
  {
    var starts := StartsFrom(content, 0);
    var ends := EndsFrom(content, 0);
    SessionsAt(content, starts, ends, k);
    FirstEndSpec(ends, starts[k].id);
  }

  /** The end marker a complete session uses is the first with its id in text order. */
  lemma FirstEndIsFirst(ends: seq<EndMark>, id: nat, j: nat)
    requires j < |ends| && ends[j].id == id
    ensures FirstEnd(ends, id).Some?
    ensures FirstEnd(ends, id).value == ends[FirstEndIndex(ends, id)] && FirstEndIndex(ends, id) <= j
  {
    FirstEndSpec(ends, id);
  }

  /** The digit groups printed back, colon-separated and closed by `-->`. */
  function PrintFields(digits: seq<string>): string
    requires |digits| >= 1
  {
    if |digits| == 1 then digits[0] + MarkerClose
    else digits[0] + ":" + PrintFields(digits[1..])
  }

  /** `a..c` is `a..b` followed by `b..c`. */
  lemma SliceSplit(s: string, a: nat, b: nat, c: nat)
    requires a <= b <= c <= |s|
    ensures s[a..c] == s[a..b] + s[b..c]
  {
  }

  /** One step of reading a marker tail: a run of digits, then either `-->` or ':' and the rest. */
  lemma ReadFieldsStep(s: string, p: nat, count: nat)
    requires p <= |s| && count >= 1 && ReadFields(s, p, count).Some?
    ensures var n := DigitRun(s, p);
      var f := ReadFields(s, p, count).value;
      n > 0 && f.digits[0] == s[p..p + n]
      && (count == 1 ==> f.end == p + n + 3 && ClosesAt(s, p + n))
      && (count > 1 ==>
            p + n < |s| && s[p + n] == ':' && ReadFields(s, p + n + 1, count - 1).Some?
            && f.digits[1..] == ReadFields(s, p + n + 1, count - 1).value.digits
            && f.end == ReadFields(s, p + n + 1, count - 1).value.end)
  {
  }

  /** The text a marker tail spans is its digit groups joined by ':' and closed by `-->`. */
  lemma {:induction false} ReadPrint(s: string, p: nat, count: nat)
    requires p <= |s| && count >= 1 && ReadFields(s, p, count).Some?
    ensures s[p..ReadFields(s, p, count).value.end] == PrintFields(ReadFields(s, p, count).value.digits)
    decreases count
  {
    if count == 1 {
      ReadPrintLast(s, p);
    } else {
      var q := p + DigitRun(s, p);
      ReadFieldsStep(s, p, count);
      ReadPrint(s, q + 1, count - 1);
      ReadPrintNext(s, p, count);
    }
  }

  lemma ReadPrintLast(s: string, p: nat)
    requires p <= |s| && ReadFields(s, p, 1).Some?
    ensures s[p..ReadFields(s, p, 1).value.end] == PrintFields(ReadFields(s, p, 1).value.digits)
  {
    var q := p + DigitRun(s, p);
    ReadFieldsStep(s, p, 1);
    SliceSplit(s, p, q, q + 3);
    assert s[q..q + 3] == MarkerClose;
  }

  lemma ReadPrintNext(s: string, p: nat, count: nat)
    requires p <= |s| && count > 1 && ReadFields(s, p, count).Some?
    requires var q := p + DigitRun(s, p);
      q < |s| && ReadFields(s, q + 1, count - 1).Some?
      && s[q + 1..ReadFields(s, q + 1, count - 1).value.end] == PrintFields(ReadFields(s, q + 1, count - 1).value.digits)
    ensures s[p..ReadFields(s, p, count).value.end] == PrintFields(ReadFields(s, p, count).value.digits)
  {
    var q := p + DigitRun(s, p);
    var f := ReadFields(s, p, count).value;
    ReadFieldsStep(s, p, count);
    SliceSplit(s, p, q, f.end);
    SliceSplit(s, q, q + 1, f.end);
    assert s[q..q + 1] == ":";
  }

  /** Every group of a marker tail is a run of digits. */
  lemma {:induction false} FieldsDigits(s: string, p: nat, count: nat)
    requires p <= |s| && count >= 1 && ReadFields(s, p, count).Some?
    ensures forall k :: 0 <= k < count ==> AllDigits(ReadFields(s, p, count).value.digits[k])
    decreases count
  {
    ReadFieldsStep(s, p, count);
    DigitRunSpec(s, p);
    if count > 1 {
      FieldsDigits(s, p + DigitRun(s, p) + 1, count - 1);
    }
  }

  /** A digit group as the program prints numbers: no leading zero. */
  predicate NoLeadingZero(ds: string) {
    |ds| <= 1 || ds[0] != '0'
  }

  /** Printing a number read from a group without leading zero gives the group back. */
  lemma ReprintGroup(ds: string)
    requires ds != [] && AllDigits(ds) && NoLeadingZero(ds)
    ensures |ToDecimal(ParseDecimal(ds))| == |ds|
  {
    ToDecimalParse(ds);
  }

  /** Two groups printed back take their lengths, a ':' and the `-->`. */
  lemma PrintTwoLength(digits: seq<string>)
    requires |digits| == 2
    ensures |PrintFields(digits)| == |digits[0]| + |digits[1]| + 4
  {
    assert digits[1..] == [digits[1]];
  }

  /** The reprinted start marker is the prefix, the two numbers, a ':' and the `-->`. */
  lemma StartTextLength(id: nat, timestamp: nat)
    ensures |StartText(id, timestamp)| == |StartPrefix| + |ToDecimal(id)| + |ToDecimal(timestamp)| + 4
  {
  }

  /** Two groups without leading zero, read and printed back, take as much room as the marker tail they came from. */
  lemma ReprintLength(s: string, p: nat, d0: string, d1: string, end: nat)
    requires p <= |s| && ReadFields(s, p, 2) == Some(Fields([d0, d1], end))
    requires NoLeadingZero(d0) && NoLeadingZero(d1)
    ensures p + |ToDecimal(ParseDecimal(d0))| + |ToDecimal(ParseDecimal(d1))| + 4 == end
  {
    ReadPrint(s, p, 2);
    PrintTwoLength([d0, d1]);
    FieldsDigits(s, p, 2);
    ReprintGroup(d0);
    ReprintGroup(d1);
  }

  /** The numbers of a start marker are those its two digit groups spell. */
  lemma StartNumbers(content: string, m: StartMark, d0: string, d1: string)
    requires m.index + |StartPrefix| <= |content| && StartAt(content, m.index) == Some(m)
    requires ReadFields(content, m.index + |StartPrefix|, 2) == Some(Fields([d0, d1], m.matchEnd))
    ensures m.id == ParseDecimal(d0) && m.timestamp == ParseDecimal(d1)
  {
  }

  /** Where a session's text begins: just past its start marker, when the marker has no leading zeros. */
  lemma ContentStartAtMatchEnd(content: string, m: StartMark, d0: string, d1: string)
    requires m.index + |StartPrefix| <= |content| && StartAt(content, m.index) == Some(m)
    requires ReadFields(content, m.index + |StartPrefix|, 2) == Some(Fields([d0, d1], m.matchEnd))
    requires NoLeadingZero(d0) && NoLeadingZero(d1)
    ensures m.index + |StartText(m.id, m.timestamp)| == m.matchEnd
  {
    StartNumbers(content, m, d0, d1);
    ReprintLength(content, m.index + |StartPrefix|, d0, d1, m.matchEnd);
    StartTextLength(m.id, m.timestamp);
  }

  /**
   * A session's text is what lies between the end of its start marker and
   * its end marker (or the end of the text), provided the start marker's
   * numbers have no leading zero: the marker is reprinted from the numbers
   * read, and a leading zero would make the reprint shorter than the match.
   */
  lemma SessionContentBetween(content: string, m: StartMark, ends: seq<EndMark>, d0: string, d1: string)
    requires m.index + |StartPrefix| <= |content| && StartAt(content, m.index) == Some(m)
    requires ReadFields(content, m.index + |StartPrefix|, 2) == Some(Fields([d0, d1], m.matchEnd))
    requires NoLeadingZero(d0) && NoLeadingZero(d1)
    ensures var e := FirstEnd(ends, m.id);
      SessionOf(content, m, ends).content
        == Slice(content, m.matchEnd, if e.Some? then e.value.index else |content|)
  {
    ContentStartAtMatchEnd(content, m, d0, d1);
  }

  /** With no start marker in the text there are no sessions, and the clean text is the text trimmed. */
  lemma NoStartMarkers(content: string)
    requires forall q :: 0 <= q < |content| ==> StartAt(content, q).None?
    ensures ParseThinking(content).sessions == []
    ensures ParseThinking(content).totalTime == 0
    ensures ParseThinking(content).cleanContent == Trim(content)
  {
    StartsFromEmpty(content, 0);
  }

  /** `totalTime` comes from the last start, in start order, that found an end marker. */
  lemma {:induction false} LastTotalFromLast(starts: seq<StartMark>, ends: seq<EndMark>, k: nat)
    requires k < |starts| && FirstEnd(ends, starts[k].id).Some?
    requires forall j :: k < j < |starts| ==> FirstEnd(ends, starts[j].id).None?
    ensures LastTotal(starts, ends) == FirstEnd(ends, starts[k].id).value.totalTime
  {
    var init := starts[..|starts| - 1];
    if k < |starts| - 1 {
      assert forall j :: k < j < |init| ==> init[j] == starts[j];
      LastTotalFromLast(init, ends, k);
    }
  }

  /** `totalTime` is 0 when no session found an end marker. */
  lemma {:induction false} LastTotalNone(starts: seq<StartMark>, ends: seq<EndMark>)
    requires forall j :: 0 <= j < |starts| ==> FirstEnd(ends, starts[j].id).None?
    ensures LastTotal(starts, ends) == 0
  {
    if starts != [] {
      var init := starts[..|starts| - 1];
      assert forall j :: 0 <= j < |init| ==> init[j] == starts[j];
      LastTotalNone(init, ends);
    }
  }

  /** Spans in strictly ascending order of start. */
  predicate Ascending(rs: seq<Range>) {
    forall i, j :: 0 <= i < j < |rs| ==> rs[i].start < rs[j].start
  }

  /** The spans begin at the start markers, so they come in strictly ascending order of start. */
  lemma RangesAscending(content: string)
    ensures Ascending(RangesOf(content, StartsFrom(content, 0), EndsFrom(content, 0)))
  {
    var starts := StartsFrom(content, 0);
    var ends := EndsFrom(content, 0);
    var rs := RangesOf(content, starts, ends);
    StartsDisjoint(content, 0);
    StartsSound(content, 0);
    forall i, j | 0 <= i < j < |rs|
      ensures rs[i].start < rs[j].start
    {
      SessionsAt(content, starts, ends, i);
      SessionsAt(content, starts, ends, j);
    }
  }

  lemma {:induction false} ReverseAt<T>(xs: seq<T>, k: nat)
    requires k < |xs|
    ensures Reverse(xs)[k] == xs[|xs| - 1 - k]
  {
    if k < |xs| - 1 {
      ReverseAt(xs[1..], k);
    }
  }

  /** Reversing spans in ascending order of start puts them in descending order. */
  lemma ReverseDescending(rs: seq<Range>)
    requires Ascending(rs)
    ensures forall i, j :: 0 <= i < j < |rs| ==> Reverse(rs)[i].start > Reverse(rs)[j].start
  {
    forall i, j | 0 <= i < j < |rs|
      ensures Reverse(rs)[i].start > Reverse(rs)[j].start
    {
      ReverseAt(rs, i);
      ReverseAt(rs, j);
    }
  }

  /**
   * The spans are cut in strictly descending order of start: the in-place
   * sort by `b.start - a.start` is the reversal of the list as built, since
   * no two spans share a start.
   */
  lemma CutOrderDescending(content: string)
    ensures var rs := Reverse(RangesOf(content, StartsFrom(content, 0), EndsFrom(content, 0)));
      forall i, j :: 0 <= i < j < |rs| ==> rs[i].start > rs[j].start
  {
    RangesAscending(content);
    ReverseDescending(RangesOf(content, StartsFrom(content, 0), EndsFrom(content, 0)));
  }

  /**
   * An end marker that comes before its start marker leaves the session
   * empty and turns the span around: the text between the two is then kept
   * twice.
   */
  lemma EndBeforeStart(content: string, m: StartMark, ends: seq<EndMark>)
    requires m.index <= |content| && FirstEnd(ends, m.id).Some?
    requires FirstEnd(ends, m.id).value.endIndex <= m.index
    requires FirstEnd(ends, m.id).value.index <= FirstEnd(ends, m.id).value.endIndex
    ensures SessionOf(content, m, ends).content == []
    ensures var b := FirstEnd(ends, m.id).value.endIndex;
      Cut(content, RangeOf(content, m, ends))
        == content[..b] + content[b..m.index] + content[b..m.index] + content[m.index..]
  {
    var b := FirstEnd(ends, m.id).value.endIndex;
    assert content[..m.index] == content[..b] + content[b..m.index];
    assert content[b..] == content[b..m.index] + content[m.index..];
  }

  // ---------------------------------------------------------------------
  // Titles
  // ---------------------------------------------------------------------

  const SidebarTitleCap: nat := 50

  // The global replace of "**" by "": every "**", read left to right without overlap, is deleted.
  function StripBold(s: string): (r: string)
    ensures |r| <= |s|
  {
    if |s| >= 2 && s[0] == '*' && s[1] == '*' then StripBold(s[2..])
    else if s == [] then []
    else [s[0]] + StripBold(s[1..])
  }

  predicate NoDoubleStar(s: string) {
    forall i :: 0 <= i < |s| - 1 ==> !(s[i] == '*' && s[i + 1] == '*')
  }

  /** A string that does not start with '*' keeps its first character. */
  lemma StripBoldHead(s: string)
    requires s != [] && s[0] != '*'
    ensures StripBold(s) != [] && StripBold(s)[0] == s[0]
  {
  }

  /** After the deletion no "**" is left: a '*' that stays is followed by a character that is not '*'. */
  lemma {:induction false} StripBoldClean(s: string)
    ensures NoDoubleStar(StripBold(s))
  {
    if |s| >= 2 && s[0] == '*' && s[1] == '*' {
      StripBoldClean(s[2..]);
    } else if s != [] {
      var t := StripBold(s[1..]);
      StripBoldClean(s[1..]);
      if s[0] == '*' && s[1..] != [] {
        StripBoldHead(s[1..]);
      }
      assert forall i :: 1 <= i < |t| ==> ([s[0]] + t)[i] == t[i - 1];
    }
  }

  /** A string without "**" is left as it is. */
  lemma {:induction false} StripBoldFixed(s: string)
    requires NoDoubleStar(s)
    ensures StripBold(s) == s
  {
    if s != [] {
      assert NoDoubleStar(s[1..]) by {
        assert forall i :: 0 <= i < |s| - 2 ==> s[1..][i] == s[i + 1];
      }
      StripBoldFixed(s[1..]);
    }
  }

  /** A slice of a string without "**" has none either. */
  lemma NoDoubleStarSlice(s: string, a: nat, b: nat)
    requires a <= b <= |s| && NoDoubleStar(s)
    ensures NoDoubleStar(s[a..b])
  {
    assert forall i :: 0 <= i < b - a ==> s[a..b][i] == s[a + i];
  }

  /** `extractTitle`: the line without "**", trimmed, and cut to `cap` characters with a "..." when longer. */
  function ExtractTitle(line: string, cap: nat): string
    requires cap >= 3
  {
    if line == [] then []
    else
      var cleaned := Trim(StripBold(line));
      if |cleaned| > cap then cleaned[..cap - 3] + "..." else cleaned
  }

  /** A title is the cleaned line itself when that fits, else its first `cap - 3` characters and "...". */
  lemma TitleCases(line: string, cap: nat)
    requires cap >= 3
    ensures var cleaned := Trim(StripBold(line));
      (|cleaned| <= cap ==> ExtractTitle(line, cap) == cleaned)
      && (|cleaned| > cap ==> ExtractTitle(line, cap) == cleaned[..cap - 3] + "...")
  {
    if line == [] {
      assert StripBold(line) == [];
    }
  }

  /** A title is at most `cap` characters long and holds no "**". */
  lemma TitleBounded(line: string, cap: nat)
    requires cap >= 3
    ensures |ExtractTitle(line, cap)| <= cap && NoDoubleStar(ExtractTitle(line, cap))
  {
    var stripped := StripBold(line);
    var cleaned := Trim(stripped);
    TitleCases(line, cap);
    StripBoldClean(line);
    TrimSpec(stripped);
    NoDoubleStarSlice(stripped, SpacePrefix(stripped), SpacePrefix(stripped) + |cleaned|);
    if |cleaned| > cap {
      NoDoubleStarSlice(cleaned, 0, cap - 3);
      DotsAfter(cleaned[..cap - 3]);
    }
  }

  /** Appending "..." to a string without "**" makes none. */
  lemma DotsAfter(s: string)
    requires NoDoubleStar(s)
    ensures NoDoubleStar(s + "...")
  {
    var t := s + "...";
    assert forall i :: 0 <= i < |s| ==> t[i] == s[i];
    assert forall i :: |s| <= i < |t| ==> t[i] == '.';
  }

  /** Taking the title of a title changes nothing, provided it is not cut again. */
  lemma TitleOfShortTitle(line: string, cap: nat)
    requires cap >= 3 && |Trim(StripBold(line))| <= cap
    ensures ExtractTitle(ExtractTitle(line, cap), cap) == ExtractTitle(line, cap)
  {
    var t := ExtractTitle(line, cap);
    TitleCases(line, cap);
    TitleBounded(line, cap);
    StripBoldFixed(t);
    if line != [] {
      TrimIdempotent(StripBold(line));
    }
  }
}
