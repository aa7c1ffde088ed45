/**
 * The block-level Markdown tokenizer: the text is split on "\n" and a cursor
 * walks the lines; each turn of the loop recognises one construct (fenced code,
 * ATX heading, rule, pipe table, blockquote, bullet or numbered list,
 * paragraph) and emits at most one token.
 *
 * As written, a non-blank line that opens no block and also stops a paragraph
 * (a '#' line that is not a valid heading, a '|' line that does not end in
 * '|') leaves the cursor where it is, and the loop never ends. `StepAsWritten`
 * and `ParseAsWritten` model that behaviour (the outcome `Hangs`); `Step`,
 * `Tokenize` and the method `Parse` model the corrected loop, whose paragraph
 * always takes its first line.
 */
module MarkdownParser {
  import opened JsString
  import opened Wrappers

  datatype Token =
    | Paragraph(content: string)
    | Heading(level: nat, content: string)
    | Code(lang: string, content: string)
    | List(ordered: bool, items: seq<string>)
    | Blockquote(content: string)
    | Hr
    | Table(headers: seq<string>, rows: seq<seq<string>>)

  /** What one turn of the loop does at a line. */
  datatype Move =
    | Emit(token: Token, next: nat)  // push a token, move the cursor to next
    | Skip(next: nat)                // move the cursor, push nothing
    | NoBlock                        // no block rule applies: the paragraph branch decides

  /** The result of running the loop to its end, or the line where it spins forever. */
  datatype Outcome = Tokens(tokens: seq<Token>) | Hangs(line: nat)

  // ---------------------------------------------------------------------------
  // Line classification (the regular expressions of the source)
  // ---------------------------------------------------------------------------

  /** The characters the regex '.' does not match. */
  predicate IsLineTerminator(c: char) {
    c == '\n' || c == '\r' || c == '\U{2028}' || c == '\U{2029}'
  }

  /** Text the regex '.+' can match to the end: no line terminator in it. */
  predicate SingleLine(s: string) {
    forall k :: 0 <= k < |s| ==> !IsLineTerminator(s[k])
  }

  predicate IsFence(trimmed: string) {
    StartsWith(trimmed, "```")
  }

  /** Number of leading '#'. */
  function HashRun(t: string): (k: nat)
    ensures k <= |t|
    ensures forall i :: 0 <= i < k ==> t[i] == '#'
    ensures k < |t| ==> t[k] != '#'
  {
    if t == [] || t[0] != '#' then 0 else 1 + HashRun(t[1..])
  }

  /** `/^(#{1,6})\s+(.+)$/`: the level and the text after the whitespace. */
  function HeadingMatch(t: string): Option<(nat, string)>
  {
    var k := HashRun(t);
    if 1 <= k <= 6 && k < |t| && IsSpace(t[k]) then
      var rest := t[k..];
      var body := rest[SpacePrefix(rest)..];
      if body != [] && SingleLine(body) then Some((k, body)) else None
    else None
  }

  /** `/^(-{3,}|\*{3,}|_{3,})$/`. */
  predicate IsHr(t: string) {
    |t| >= 3 && (t[0] == '-' || t[0] == '*' || t[0] == '_')
    && forall i :: 0 <= i < |t| ==> t[i] == t[0]
  }

  predicate IsTableLine(line: string) {
    var t := Trim(line);
    StartsWith(t, "|") && EndsWith(t, "|")
  }

  predicate IsQuoteLine(line: string) {
    StartsWith(Trim(line), ">")
  }

  /** `/^[-*+]\s/`. */
  predicate IsBulletStart(s: string) {
    |s| >= 2 && (s[0] == '-' || s[0] == '*' || s[0] == '+') && IsSpace(s[1])
  }

  /** Number of leading ASCII digits. */
  function DigitRun(s: string): (k: nat)
    ensures k <= |s|
    ensures forall i :: 0 <= i < k ==> IsDigit(s[i])
    ensures k < |s| ==> !IsDigit(s[k])
  {
    if s == [] || !IsDigit(s[0]) then 0 else 1 + DigitRun(s[1..])
  }

  /** `/^\d+\.\s/`. */
  predicate IsOrderedStart(s: string) {
    var k := DigitRun(s);
    1 <= k && k + 1 < |s| && s[k] == '.' && IsSpace(s[k + 1])
  }

  /** `/^\s+/`: the line begins with whitespace. */
  predicate IsIndented(line: string) {
    |line| > 0 && IsSpace(line[0])
  }

  predicate IsBulletLine(line: string) {
    IsBulletStart(Trim(line)) || IsIndented(line)
  }

  predicate IsOrderedLine(line: string) {
    IsOrderedStart(Trim(line)) || IsIndented(line)
  }

  /** A line at which a paragraph stops. */
  /** A line at which a paragraph stops, judged on its trim. */
  predicate BreaksParagraph(t: string) {
    t == [] || StartsWith(t, "```") || StartsWith(t, "#") || StartsWith(t, ">")
    || StartsWith(t, "|") || IsBulletStart(t) || IsOrderedStart(t) || IsHr(t)
  }

  predicate ParagraphBreak(line: string) {
    BreaksParagraph(Trim(line))
  }

  /**
   * A trimmed line on which the loop as written makes no progress: it stops a
   * paragraph but opens no block.
   */
  predicate IsTrigger(t: string) {
    (StartsWith(t, "#") && HeadingMatch(t).None?) || (StartsWith(t, "|") && !EndsWith(t, "|"))
  }

  predicate IsTriggerLine(line: string) {
    IsTrigger(Trim(line))
  }

  /** Which branch of the loop body a trimmed line enters, tested in the order of the source. */
  datatype LineKind =
    | BlankLine | FenceLine | HeadingLine | RuleLine | TableLine
    | QuoteLine | BulletLine | OrderedLine | TextLine

  function Classify(t: string): (k: LineKind)
    ensures k == BlankLine <==> t == []
    ensures k == FenceLine ==> IsFence(t)
    ensures k == HeadingLine ==> HeadingMatch(t).Some?
    ensures k == TableLine ==> StartsWith(t, "|") && EndsWith(t, "|")
    ensures k == QuoteLine ==> StartsWith(t, ">")
    ensures k == BulletLine ==> IsBulletStart(t)
    ensures k == OrderedLine ==> IsOrderedStart(t)
  {
    if t == [] then BlankLine
    else if IsFence(t) then FenceLine
    else if HeadingMatch(t).Some? then HeadingLine
    else if IsHr(t) then RuleLine
    else if StartsWith(t, "|") && EndsWith(t, "|") then TableLine
    else if StartsWith(t, ">") then QuoteLine
    else if IsBulletStart(t) then BulletLine
    else if IsOrderedStart(t) then OrderedLine
    else TextLine
  }

  // ---------------------------------------------------------------------------
  // Per-line rewriting inside a block
  // ---------------------------------------------------------------------------

  /** `l.replace(/^>\s?/, "")` on the untrimmed line. */
  function StripQuote(l: string): string {
    if |l| >= 1 && l[0] == '>' then
      if |l| >= 2 && IsSpace(l[1]) then l[2..] else l[1..]
    else l
  }

  /** `l.replace(/^[-*+]\s/, "").trim()` on the untrimmed line. */
  function BulletItem(l: string): string {
    Trim(if IsBulletStart(l) then l[2..] else l)
  }

  /** `l.replace(/^\d+\.\s/, "").trim()` on the untrimmed line. */
  function OrderedItem(l: string): string {
    Trim(if IsOrderedStart(l) then l[DigitRun(l) + 2..] else l)
  }

  function Item(l: string, ordered: bool): string {
    if ordered then OrderedItem(l) else BulletItem(l)
  }

  /** `row.split("|").slice(1, -1).map(cell => cell.trim())`. */
  function ParseRow(row: string): (cells: seq<string>)
  {
    var ps := Split(row, '|');
    if |ps| >= 2 then MapTrim(ps[1..|ps| - 1]) else []
  }

  function MapTrim(ls: seq<string>): (r: seq<string>)
    ensures |r| == |ls| && forall k :: 0 <= k < |ls| ==> r[k] == Trim(ls[k])
  {
    seq(|ls|, k requires 0 <= k < |ls| => Trim(ls[k]))
  }

  function ParseRows(rows: seq<string>): (r: seq<seq<string>>)
    ensures |r| == |rows| && forall k :: 0 <= k < |rows| ==> r[k] == ParseRow(rows[k])
  {
    seq(|rows|, k requires 0 <= k < |rows| => ParseRow(rows[k]))
  }

  function StripQuotes(ls: seq<string>): (r: seq<string>)
    ensures |r| == |ls| && forall k :: 0 <= k < |ls| ==> r[k] == StripQuote(ls[k])
  {
    seq(|ls|, k requires 0 <= k < |ls| => StripQuote(ls[k]))
  }

  function Items(ls: seq<string>, ordered: bool): (r: seq<string>)
    ensures |r| == |ls| && forall k :: 0 <= k < |ls| ==> r[k] == Item(ls[k], ordered)
  {
    seq(|ls|, k requires 0 <= k < |ls| => Item(ls[k], ordered))
  }

  // ---------------------------------------------------------------------------
  // One turn of the loop
  // ---------------------------------------------------------------------------

  /** The cursor after `consumeWhile(pred)` from line i: the first line that fails. */
  function RunEnd(lines: seq<string>, i: nat, p: string -> bool): (j: nat)
    requires i <= |lines|
    ensures i <= j <= |lines|
    decreases |lines| - i
  {
    if i == |lines| || !p(lines[i]) then i else RunEnd(lines, i + 1, p)
  }

  /** The run is maximal: every line in it satisfies the predicate and the line after it does not. */
  lemma {:induction false} RunEndSpec(lines: seq<string>, i: nat, p: string -> bool)
    requires i <= |lines|
    ensures forall k :: i <= k < RunEnd(lines, i, p) ==> p(lines[k])
    ensures RunEnd(lines, i, p) < |lines| ==> !p(lines[RunEnd(lines, i, p)])
    decreases |lines| - i
  {
    if i < |lines| && p(lines[i]) {
      RunEndSpec(lines, i + 1, p);
    }
  }

  predicate NotParagraphBreak(line: string) {
    !ParagraphBreak(line)
  }

  predicate NotFence(line: string) {
    !IsFence(Trim(line))
  }

  predicate ContinuesList(line: string, ordered: bool) {
    if ordered then IsOrderedLine(line) else IsBulletLine(line)
  }

  /** The end of the paragraph whose remaining lines start at `from`. */
  function ParaEnd(lines: seq<string>, from: nat): nat
    requires from <= |lines|
  {
    RunEnd(lines, from, NotParagraphBreak)
  }

  function CodeEnd(lines: seq<string>, from: nat): nat
    requires from <= |lines|
  {
    RunEnd(lines, from, NotFence)
  }

  function ListEnd(lines: seq<string>, from: nat, ordered: bool): nat
    requires from <= |lines|
  {
    if ordered then RunEnd(lines, from, IsOrderedLine) else RunEnd(lines, from, IsBulletLine)
  }

  function TableToken(tableLines: seq<string>): Token
    requires |tableLines| >= 2
  {
    var dataStart := if Includes(tableLines[1], '-') then 2 else 1;
    Table(ParseRow(tableLines[0]), ParseRows(tableLines[dataStart..]))
  }

  /** A fence at line i: the code runs to the next fence line, or to the end of input. */
  function FenceMove(lines: seq<string>, i: nat): (s: Move)
    requires i < |lines| && IsFence(Trim(lines[i]))
    ensures s.Emit? && i < s.next <= |lines| + 1
  {
    var lang := Trim(Trim(lines[i])[3..]);
    var j := CodeEnd(lines, i + 1);
    Emit(Code(if lang == [] then "text" else lang, Join(lines[i + 1..j], "\n")), j + 1)
  }

  /** A table line at i: the maximal run of table lines; a run of one is dropped. */
  function TableMove(lines: seq<string>, i: nat): (s: Move)
    requires i < |lines| && IsTableLine(lines[i])
    ensures !s.NoBlock? && i < s.next <= |lines|
    ensures s.Skip? ==> s.next == i + 1
  {
    var j := RunEnd(lines, i, IsTableLine);
    if j - i >= 2 then Emit(TableToken(lines[i..j]), j) else Skip(j)
  }

  function QuoteMove(lines: seq<string>, i: nat): (s: Move)
    requires i < |lines| && IsQuoteLine(lines[i])
    ensures s.Emit? && i < s.next <= |lines|
  {
    var j := RunEnd(lines, i, IsQuoteLine);
    Emit(Blockquote(Join(StripQuotes(lines[i..j]), "\n")), j)
  }

  function ListMove(lines: seq<string>, i: nat, ordered: bool): (s: Move)
    requires i < |lines| && ContinuesList(lines[i], ordered)
    ensures s.Emit? && i < s.next <= |lines|
  {
    var j := ListEnd(lines, i, ordered);
    Emit(List(ordered, Items(lines[i..j], ordered)), j)
  }

  /**
   * The branches of the loop body before the paragraph: blank line, fence,
   * heading, rule, table, blockquote, bullet list, numbered list, in that order.
   */
  function BlockStep(lines: seq<string>, i: nat): (s: Move)
    requires i < |lines|
    ensures !s.NoBlock? ==> i < s.next <= |lines| + 1
    ensures s.Skip? ==> s.next == i + 1
  {
    var t := Trim(lines[i]);
    match Classify(t)
    case BlankLine => Skip(i + 1)
    case FenceLine => FenceMove(lines, i)
    case HeadingLine => Emit(Heading(HeadingMatch(t).value.0, HeadingMatch(t).value.1), i + 1)
    case RuleLine => Emit(Hr, i + 1)
    case TableLine => TableMove(lines, i)
    case QuoteLine => QuoteMove(lines, i)
    case BulletLine => ListMove(lines, i, false)
    case OrderedLine => ListMove(lines, i, true)
    case TextLine => NoBlock
  }

  /** One turn of the loop as written: `NoBlock` here means the cursor did not move. */
  function StepAsWritten(lines: seq<string>, i: nat): (s: Move)
    requires i < |lines|
    ensures !s.NoBlock? ==> i < s.next <= |lines| + 1
  {
    match BlockStep(lines, i)
    case NoBlock =>
      var j := ParaEnd(lines, i);
      if j == i then NoBlock else Emit(Paragraph(Join(MapTrim(lines[i..j]), " ")), j)
    case s => s
  }

  /** One turn of the corrected loop: a line that opens no block starts a paragraph. */
  function Step(lines: seq<string>, i: nat): (s: Move)
    requires i < |lines|
    ensures !s.NoBlock? && i < s.next <= |lines| + 1
  {
    match BlockStep(lines, i)
    case NoBlock =>
      var j := ParaEnd(lines, i + 1);
      Emit(Paragraph(Join(MapTrim(lines[i..j]), " ")), j)
    case s => s
  }

  // ---------------------------------------------------------------------------
  // The whole loop
  // ---------------------------------------------------------------------------

  function TokenizeFrom(lines: seq<string>, i: nat): seq<Token>
    decreases |lines| + 1 - i
  {
    if i >= |lines| then []
    else match Step(lines, i)
      case Emit(t, n) => [t] + TokenizeFrom(lines, n)
      case Skip(n) => TokenizeFrom(lines, n)
  }

  /** The tokens of the corrected parser. */
  function Tokenize(input: string): seq<Token> {
    TokenizeFrom(Split(input, '\n'), 0)
  }

  function ParseAsWrittenFrom(lines: seq<string>, i: nat): Outcome
    decreases |lines| + 1 - i
  {
    if i >= |lines| then Tokens([])
    else match StepAsWritten(lines, i)
      case NoBlock => Hangs(i)
      case Skip(n) => ParseAsWrittenFrom(lines, n)
      case Emit(t, n) =>
        match ParseAsWrittenFrom(lines, n)
        case Tokens(ts) => Tokens([t] + ts)
        case Hangs(k) => Hangs(k)
  }

  /** What `parse` as written does: returns tokens, or spins forever at a line. */
  function ParseAsWritten(input: string): Outcome {
    ParseAsWrittenFrom(Split(input, '\n'), 0)
  }

  // ---------------------------------------------------------------------------
  // Which branch a line enters
  // ---------------------------------------------------------------------------

  /** What the first character of a trimmed line decides. */
  lemma LeadChar(t: string)
    requires t != []
    ensures IsFence(t) ==> t[0] == '`'
    ensures StartsWith(t, "#") <==> t[0] == '#'
    ensures StartsWith(t, "|") <==> t[0] == '|'
    ensures StartsWith(t, ">") <==> t[0] == '>'
    ensures HashRun(t) >= 1 <==> t[0] == '#'
    ensures IsOrderedStart(t) ==> IsDigit(t[0])
    ensures IsHr(t) ==> t[0] == '-' || t[0] == '*' || t[0] == '_'
    ensures IsBulletStart(t) ==> !IsHr(t)
  {
    if IsFence(t) {
      assert t[..3][0] == t[0];
    }
    assert t[..1][0] == t[0];
  }

  /**
   * The branch a non-blank trimmed line enters, read off its first character;
   * the lines the source leaves to the paragraph branch and that also stop a
   * paragraph are exactly the trigger lines.
   */
  lemma ClassifyLead(t: string)
    requires t != []
    ensures IsFence(t) <==> Classify(t) == FenceLine
    ensures HeadingMatch(t).Some? <==> Classify(t) == HeadingLine
    ensures t[0] == '|' ==> Classify(t) == (if EndsWith(t, "|") then TableLine else TextLine)
    ensures t[0] == '>' ==> Classify(t) == QuoteLine
    ensures IsBulletStart(t) ==> Classify(t) == BulletLine
    ensures IsOrderedStart(t) ==> Classify(t) == OrderedLine
    ensures Classify(t) == TextLine && BreaksParagraph(t) <==> IsTrigger(t)
  {
    LeadChar(t);
  }

  // ---------------------------------------------------------------------------
  // What each branch produces
  // ---------------------------------------------------------------------------

  function Hashes(k: nat): (h: string)
    ensures |h| == k && forall i :: 0 <= i < k ==> h[i] == '#'
  {
    seq(k, _ => '#')
  }

  /** A heading match: 1 to 6 '#', a non-empty run of whitespace, then the content. */
  lemma HeadingMatchSound(t: string)
    requires HeadingMatch(t).Some?
    ensures var (k, b) := HeadingMatch(t).value;
      1 <= k <= 6 && k + |b| < |t|
      && t == Hashes(k) + t[k..|t| - |b|] + b
      && IsBlank(t[k..|t| - |b|])
      && !IsSpace(b[0]) && SingleLine(b)
  {
    var (k, b) := HeadingMatch(t).value;
    var rest := t[k..];
    var n := SpacePrefix(rest);
    SpacePrefixSpec(rest);
    assert b == rest[n..];
    assert b[0] == rest[n];
    assert t[k..|t| - |b|] == rest[..n];
    assert t == t[..k] + rest[..n] + b;
    assert t[..k] == Hashes(k);
  }

  /** The converse: every such line is a heading with that level and content. */
  lemma HeadingMatchComplete(k: nat, w: string, b: string)
    requires 1 <= k <= 6 && w != [] && IsBlank(w)
    requires b != [] && !IsSpace(b[0]) && SingleLine(b)
    ensures HeadingMatch(Hashes(k) + w + b) == Some((k, b))
  {
    var t := Hashes(k) + w + b;
    assert t[k] == w[0];
    assert HashRun(t) == k;
    var rest := t[k..];
    assert rest == w + b;
    assert rest[|w|] == b[0];
    SpacePrefixBlank(w, b);
    assert rest[|w|..] == b;
  }

  /** A heading line is emitted as one heading token and the cursor moves one line. */
  lemma HeadingStep(lines: seq<string>, i: nat)
    requires i < |lines| && HeadingMatch(Trim(lines[i])).Some?
    ensures Step(lines, i) == StepAsWritten(lines, i)
      == Emit(Heading(HeadingMatch(Trim(lines[i])).value.0, HeadingMatch(Trim(lines[i])).value.1), i + 1)
  {
    ClassifyLead(Trim(lines[i]));
  }

  /** A line whose trim starts with ``` enters the fence branch. */
  lemma StepFence(lines: seq<string>, i: nat)
    requires i < |lines| && IsFence(Trim(lines[i]))
    ensures Step(lines, i) == StepAsWritten(lines, i) == FenceMove(lines, i)
  {
    ClassifyLead(Trim(lines[i]));
  }

  /**
   * A fence opens a code block whose language is the rest of the line, or
   * "text", and whose content is the following lines up to the next fence
   * line or the end of input; the closing fence is consumed.
   */
  lemma FencedCode(lines: seq<string>, i: nat)
    requires i < |lines| && IsFence(Trim(lines[i]))
    ensures var s := FenceMove(lines, i);
      var lang := Trim(Trim(lines[i])[3..]);
      i + 1 < s.next <= |lines| + 1
      && s.token == Code(if lang == [] then "text" else lang, Join(lines[i + 1..s.next - 1], "\n"))
  {
    var s := FenceMove(lines, i);
    var j := CodeEnd(lines, i + 1);
    assert s.next == j + 1;
  }

  /** The code lines hold no fence line, and the line after them, if any, is the closing fence. */
  lemma FenceRun(lines: seq<string>, i: nat)
    requires i < |lines| && IsFence(Trim(lines[i]))
    ensures var s := FenceMove(lines, i);
      (forall k :: i < k < s.next - 1 ==> !IsFence(Trim(lines[k])))
      && (s.next - 1 < |lines| ==> IsFence(Trim(lines[s.next - 1])))
  {
    var j := CodeEnd(lines, i + 1);
    RunEndSpec(lines, i + 1, NotFence);
    assert FenceMove(lines, i).next == j + 1;
    forall k | i < k < j
      ensures !IsFence(Trim(lines[k]))
    {
      assert NotFence(lines[k]);
    }
    if j < |lines| {
      assert !NotFence(lines[j]);
    }
  }

  /** A line whose trim starts and ends with '|' enters the table branch. */
  lemma StepTable(lines: seq<string>, i: nat)
    requires i < |lines| && IsTableLine(lines[i])
    ensures Step(lines, i) == StepAsWritten(lines, i) == TableMove(lines, i)
  {
    var t := Trim(lines[i]);
    LeadChar(t);
    ClassifyLead(t);
  }

  /**
   * A table is the maximal run of '|'-delimited lines; a run of one line is
   * dropped.
   */
  lemma TableRun(lines: seq<string>, i: nat)
    requires i < |lines| && IsTableLine(lines[i])
    ensures var s := TableMove(lines, i);
      i < s.next <= |lines|
      && (forall k :: i <= k < s.next ==> IsTableLine(lines[k]))
      && (s.next < |lines| ==> !IsTableLine(lines[s.next]))
      && (s.next == i + 1 <==> s.Skip?)
  {
    RunEndSpec(lines, i, IsTableLine);
  }

  /**
   * The first line of a table gives the headers; the second is skipped as a
   * separator iff it holds a '-', and every other line is a row.
   */
  lemma TableRows(lines: seq<string>, i: nat)
    requires i < |lines| && IsTableLine(lines[i])
    ensures var s := TableMove(lines, i);
      s.Emit? ==> s.token.Table? && s.token.headers == ParseRow(lines[i])
    ensures var s := TableMove(lines, i);
      s.Emit? ==> |s.token.rows| == s.next - i - (if Includes(lines[i + 1], '-') then 2 else 1)
    ensures var s := TableMove(lines, i);
      s.Emit? ==> s.token == TableToken(lines[i..s.next])
  {
    var j := RunEnd(lines, i, IsTableLine);
    var s := TableMove(lines, i);
    if j - i >= 2 {
      var tl := lines[i..j];
      var ds := if Includes(lines[i + 1], '-') then 2 else 1;
      assert tl[0] == lines[i] && tl[1] == lines[i + 1];
      assert s.token == Table(ParseRow(lines[i]), ParseRows(tl[ds..]));
    }
  }

  /** A table's cells: the first line gives the headers and each line after the separator, if any, one row. */
  lemma TableCells(tl: seq<string>, ds: nat)
    requires |tl| >= 2 && ds == if Includes(tl[1], '-') then 2 else 1
    ensures TableToken(tl).headers == ParseRow(tl[0])
    ensures |TableToken(tl).rows| == |tl| - ds
    ensures forall r :: 0 <= r < |tl| - ds ==> TableToken(tl).rows[r] == ParseRow(tl[ds + r])
  {
    assert forall r :: 0 <= r < |tl| - ds ==> tl[ds..][r] == tl[ds + r];
  }

  /** A row's cells are the pieces between its '|', without the first and the last, each trimmed. */
  lemma RowCells(row: string)
    ensures var ps := Split(row, '|');
      |ParseRow(row)| == (if |ps| >= 2 then |ps| - 2 else 0)
      && forall k :: 0 <= k < |ParseRow(row)| ==> ParseRow(row)[k] == Trim(ps[k + 1])
  {
  }

  /** No cell holds a '|'. */
  lemma RowCellsNoBar(row: string)
    ensures forall k :: 0 <= k < |ParseRow(row)| ==> !Includes(ParseRow(row)[k], '|')
  {
    var ps := Split(row, '|');
    SplitNoSeparator(row, '|');
    forall k | 0 <= k < |ParseRow(row)|
      ensures !Includes(ParseRow(row)[k], '|')
    {
      assert ParseRow(row)[k] == Trim(ps[k + 1]);
      TrimExcludes(ps[k + 1], '|');
    }
  }

  /** A line whose trim starts with '>' enters the quote branch. */
  lemma StepQuote(lines: seq<string>, i: nat)
    requires i < |lines| && IsQuoteLine(lines[i])
    ensures Step(lines, i) == StepAsWritten(lines, i) == QuoteMove(lines, i)
  {
    var t := Trim(lines[i]);
    LeadChar(t);
    ClassifyLead(t);
  }

  /** A quote is the run of lines whose trim starts with '>', each with its column-0 marker removed, joined by "\n". */
  lemma QuoteLines(lines: seq<string>, i: nat)
    requires i < |lines| && IsQuoteLine(lines[i])
    ensures var s := QuoteMove(lines, i);
      i < s.next <= |lines|
      && (forall k :: i <= k < s.next ==> IsQuoteLine(lines[k]))
      && (s.next < |lines| ==> !IsQuoteLine(lines[s.next]))
      && s.token == Blockquote(Join(StripQuotes(lines[i..s.next]), "\n"))
  {
    RunEndSpec(lines, i, IsQuoteLine);
  }

  /** The quote marker is removed, with one following whitespace character, only in column 0. */
  lemma StripQuoteColumnZero(l: string)
    ensures |l| >= 2 && l[0] == '>' && IsSpace(l[1]) ==> StripQuote(l) == l[2..]
    ensures |l| >= 1 && l[0] == '>' && !(|l| >= 2 && IsSpace(l[1])) ==> StripQuote(l) == l[1..]
    ensures (|l| == 0 || l[0] != '>') ==> StripQuote(l) == l
  {
  }

  /** A line whose trim opens a list item enters the matching list branch. */
  lemma StepList(lines: seq<string>, i: nat, ordered: bool)
    requires i < |lines|
    requires if ordered then IsOrderedStart(Trim(lines[i])) else IsBulletStart(Trim(lines[i]))
    ensures ContinuesList(lines[i], ordered)
    ensures Step(lines, i) == StepAsWritten(lines, i) == ListMove(lines, i, ordered)
  {
    var t := Trim(lines[i]);
    LeadChar(t);
    ClassifyLead(t);
    if ordered {
      assert !IsBulletStart(t);
    }
  }

  /** An item line that starts with whitespace loses no marker: its item is its trim. */
  lemma IndentedItem(l: string, ordered: bool)
    requires IsIndented(l)
    ensures Item(l, ordered) == Trim(l)
  {
    assert !IsBulletStart(l);
    assert DigitRun(l) == 0;
  }

  /**
   * A list is the run of item lines and indented lines from its first item;
   * an indented line keeps its text (a nested marker included), trimmed, so a
   * whitespace-only line becomes an empty item.
   */
  lemma ListLines(lines: seq<string>, i: nat, ordered: bool)
    requires i < |lines| && ContinuesList(lines[i], ordered)
    ensures var s := ListMove(lines, i, ordered);
      i < s.next <= |lines|
      && s.token == List(ordered, s.token.items) && |s.token.items| == s.next - i
      && (forall k :: i <= k < s.next ==> ContinuesList(lines[k], ordered) && s.token.items[k - i] == Item(lines[k], ordered))
      && (s.next < |lines| ==> !ContinuesList(lines[s.next], ordered))
      && (forall k :: i <= k < s.next && IsIndented(lines[k]) ==> s.token.items[k - i] == Trim(lines[k]))
  {
    var s := ListMove(lines, i, ordered);
    RunEndSpec(lines, i, if ordered then IsOrderedLine else IsBulletLine);
    forall k | i <= k < s.next
      ensures ContinuesList(lines[k], ordered) && s.token.items[k - i] == Item(lines[k], ordered)
    {
      assert lines[i..s.next][k - i] == lines[k];
    }
    forall k | i <= k < s.next && IsIndented(lines[k])
      ensures s.token.items[k - i] == Trim(lines[k])
    {
      IndentedItem(lines[k], ordered);
    }
  }

  /**
   * A paragraph takes the line it starts at and the following lines up to a
   * blank or block-opening line, each trimmed, joined by single spaces.
   */
  lemma ParagraphLines(lines: seq<string>, i: nat)
    requires i < |lines| && Classify(Trim(lines[i])) == TextLine
    ensures var s := Step(lines, i);
      s.Emit? && i < s.next <= |lines|
      && (forall k :: i < k < s.next ==> !ParagraphBreak(lines[k]))
      && (s.next < |lines| ==> ParagraphBreak(lines[s.next]))
      && s.token == Paragraph(Join(MapTrim(lines[i..s.next]), " "))
  {
    var j := ParaEnd(lines, i + 1);
    RunEndSpec(lines, i + 1, NotParagraphBreak);
    forall k | i < k < j
      ensures !ParagraphBreak(lines[k])
    {
      assert NotParagraphBreak(lines[k]);
    }
    if j < |lines| {
      assert !NotParagraphBreak(lines[j]);
    }
  }

  // ---------------------------------------------------------------------------
  // The defect: where the loop as written stops making progress
  // ---------------------------------------------------------------------------

  /** The loop as written is stuck at a line iff that line is a trigger line; elsewhere it does what the corrected loop does. */
  lemma StuckIffTrigger(lines: seq<string>, i: nat)
    requires i < |lines|
    ensures StepAsWritten(lines, i).NoBlock? <==> IsTriggerLine(lines[i])
    ensures !IsTriggerLine(lines[i]) ==> StepAsWritten(lines, i) == Step(lines, i)
  {
    var t := Trim(lines[i]);
    if t != [] {
      ClassifyLead(t);
    }
    if Classify(t) == TextLine {
      if IsTrigger(t) {
        assert !NotParagraphBreak(lines[i]);
      } else {
        assert NotParagraphBreak(lines[i]);
        assert ParaEnd(lines, i) == ParaEnd(lines, i + 1);
      }
    }
  }

  /** Without trigger lines the loop as written ends, with the corrected loop's tokens. */
  lemma {:induction false} NoTriggerAgrees(lines: seq<string>, i: nat)
    requires forall k :: i <= k < |lines| ==> !IsTriggerLine(lines[k])
    ensures ParseAsWrittenFrom(lines, i) == Tokens(TokenizeFrom(lines, i))
    decreases |lines| + 1 - i
  {
    if i < |lines| {
      StuckIffTrigger(lines, i);
      NoTriggerAgrees(lines, Step(lines, i).next);
    }
  }

  /** When the loop as written hangs, it hangs at a trigger line it reached. */
  lemma {:induction false} HangsAtTrigger(lines: seq<string>, i: nat)
    requires ParseAsWrittenFrom(lines, i).Hangs?
    ensures i <= ParseAsWrittenFrom(lines, i).line < |lines|
    ensures IsTriggerLine(lines[ParseAsWrittenFrom(lines, i).line])
    decreases |lines| + 1 - i
  {
    StuckIffTrigger(lines, i);
    match StepAsWritten(lines, i)
    case NoBlock =>
    case Skip(n) => HangsAtTrigger(lines, n);
    case Emit(_, n) => HangsAtTrigger(lines, n);
  }

  lemma HashTagSplit()
    ensures Split("#tag", '\n') == ["#tag"]
  {
    assert Find("#tag"[3..], '\n') == 1;
  }

  lemma HashTagTrim()
    ensures Trim("#tag") == "#tag"
  {
    assert SpacePrefix("#tag") == 0;
    assert SpaceSuffix("#tag") == 0;
  }

  lemma HashTagLine()
    ensures Split("#tag", '\n') == ["#tag"]
    ensures Trim("#tag") == "#tag"
    ensures IsTrigger("#tag") && Classify("#tag") == TextLine
  {
    HashTagSplit();
    HashTagTrim();
    HashTagTrigger();
    ClassifyLead("#tag");
  }

  lemma HashTagTrigger()
    ensures IsTrigger("#tag")
  {
    var s := "#tag";
    assert HashRun(s) == 1 by {
      assert HashRun(s[1..]) == 0;
    }
    assert !IsSpace(s[1]);
  }

  /** "#tag" is not a heading and stops a paragraph: the loop as written spins on line 0. */
  lemma HashTagHangs()
    ensures ParseAsWritten("#tag") == Hangs(0)
  {
    HashTagLine();
    StuckIffTrigger(["#tag"], 0);
  }

  /** The corrected loop reads a lone trigger line as a one-line paragraph. */
  lemma TriggerLineParagraph(line: string)
    requires IsTriggerLine(line)
    ensures TokenizeFrom([line], 0) == [Paragraph(Trim(line))]
  {
    var lines := [line];
    var t := Trim(line);
    ClassifyLead(t);
    ParagraphLines(lines, 0);
    var s := Step(lines, 0);
    assert lines[0..1] == lines;
    assert MapTrim(lines) == [t];
    assert s == Emit(Paragraph(t), 1);
  }

  /** "#tag" as the whole input: one paragraph in the corrected loop. */
  lemma HashTagParagraph()
    ensures Tokenize("#tag") == [Paragraph("#tag")]
  {
    HashTagLine();
    TriggerLineParagraph("#tag");
  }

  // ---------------------------------------------------------------------------
  // Size of the output
  // ---------------------------------------------------------------------------

  /** Number of non-blank lines from line i on. */
  function NonBlankFrom(lines: seq<string>, i: nat): nat
    decreases |lines| - i
  {
    if i >= |lines| then 0
    else (if IsBlank(lines[i]) then 0 else 1) + NonBlankFrom(lines, i + 1)
  }

  lemma {:induction false} NonBlankMonotone(lines: seq<string>, i: nat, j: nat)
    requires i <= j
    ensures NonBlankFrom(lines, j) <= NonBlankFrom(lines, i)
    decreases j - i
  {
    if i < j {
      NonBlankMonotone(lines, i + 1, j);
    }
  }

  /** Every token takes at least one non-blank line, so blank lines yield none. */
  lemma {:induction false} TokenCount(lines: seq<string>, i: nat)
    ensures |TokenizeFrom(lines, i)| <= NonBlankFrom(lines, i)
    decreases |lines| + 1 - i
  {
    if i < |lines| {
      var s := Step(lines, i);
      TokenCount(lines, s.next);
      NonBlankMonotone(lines, i + 1, s.next);
      if s.Emit? {
        TrimSpec(lines[i]);
        assert Trim(lines[i]) != [];
      }
    }
  }

  // ---------------------------------------------------------------------------
  // The loop itself
  // ---------------------------------------------------------------------------

  /** `consumeWhile(p)`: the lines taken from the cursor on, and the new cursor. */
  method ConsumeWhile(lines: seq<string>, from: nat, p: string -> bool) returns (run: seq<string>, i: nat)
    requires from <= |lines|
    ensures i == RunEnd(lines, from, p) && run == lines[from..i]
  {
    run := [];
    i := from;
    while i < |lines| && p(lines[i])
      invariant from <= i <= |lines| && run == lines[from..i]
      invariant RunEnd(lines, from, p) == RunEnd(lines, i, p)
    {
      run := run + [lines[i]];
      i := i + 1;
    }
  }

  /** The paragraph loop from line i, whose first line is always taken. */
  method CollectParagraph(lines: seq<string>, i: nat) returns (paraLines: seq<string>, next: nat)
    requires i < |lines|
    ensures next == ParaEnd(lines, i + 1) && paraLines == MapTrim(lines[i..next])
  {
    paraLines := [Trim(lines[i])];
    next := i + 1;
    assert lines[i..next] == [lines[i]];
    while next < |lines| && !ParagraphBreak(lines[next])
      invariant i < next <= |lines| && paraLines == MapTrim(lines[i..next])
      invariant ParaEnd(lines, i + 1) == ParaEnd(lines, next)
    {
      assert lines[i..next + 1] == lines[i..next] + [lines[next]];
      paraLines := paraLines + [Trim(lines[next])];
      next := next + 1;
    }
    assert next == |lines| || !NotParagraphBreak(lines[next]);
  }

  /** The tokens a move pushes. */
  function MoveTokens(s: Move): seq<Token> {
    if s.Emit? then [s.token] else []
  }

  lemma TokenizeUnfold(lines: seq<string>, i: nat)
    requires i < |lines|
    ensures TokenizeFrom(lines, i) == MoveTokens(Step(lines, i)) + TokenizeFrom(lines, Step(lines, i).next)
  {
  }

  /** The fence branch: the code lines up to the closing fence, which is skipped. */
  method ParseFence(lines: seq<string>, i: nat) returns (emitted: seq<Token>, next: nat)
    requires i < |lines| && IsFence(Trim(lines[i]))
    ensures emitted == MoveTokens(FenceMove(lines, i)) && next == FenceMove(lines, i).next
  {
    var trimmed := Trim(lines[i]);
    var lang := Trim(trimmed[3..]);
    var codeLines;
    codeLines, next := ConsumeWhile(lines, i + 1, NotFence);
    next := next + 1;
    emitted := [Code(if lang == [] then "text" else lang, Join(codeLines, "\n"))];
  }

  /** The table branch: a run of one line pushes nothing. */
  method ParseTable(lines: seq<string>, i: nat) returns (emitted: seq<Token>, next: nat)
    requires i < |lines| && IsTableLine(lines[i])
    ensures emitted == MoveTokens(TableMove(lines, i)) && next == TableMove(lines, i).next
  {
    var tableLines;
    tableLines, next := ConsumeWhile(lines, i, IsTableLine);
    emitted := if |tableLines| >= 2 then [TableToken(tableLines)] else [];
  }

  method ParseQuote(lines: seq<string>, i: nat) returns (emitted: seq<Token>, next: nat)
    requires i < |lines| && IsQuoteLine(lines[i])
    ensures emitted == MoveTokens(QuoteMove(lines, i)) && next == QuoteMove(lines, i).next
  {
    var quoteLines;
    quoteLines, next := ConsumeWhile(lines, i, IsQuoteLine);
    emitted := [Blockquote(Join(StripQuotes(quoteLines), "\n"))];
  }

  method ParseList(lines: seq<string>, i: nat, ordered: bool) returns (emitted: seq<Token>, next: nat)
    requires i < |lines| && ContinuesList(lines[i], ordered)
    ensures emitted == MoveTokens(ListMove(lines, i, ordered)) && next == ListMove(lines, i, ordered).next
  {
    var listLines;
    if ordered {
      listLines, next := ConsumeWhile(lines, i, IsOrderedLine);
    } else {
      listLines, next := ConsumeWhile(lines, i, IsBulletLine);
    }
    emitted := [List(ordered, Items(listLines, ordered))];
  }

  /** One turn of the loop body: the tokens it pushes and where it leaves the cursor. */
  method ParseBlock(lines: seq<string>, i: nat) returns (emitted: seq<Token>, next: nat)
    requires i < |lines|
    ensures i < next <= |lines| + 1
    ensures emitted + TokenizeFrom(lines, next) == TokenizeFrom(lines, i)
  {
    var trimmed := Trim(lines[i]);
    if trimmed != [] {
      ClassifyLead(trimmed);
    }
    match Classify(trimmed) {
      case BlankLine =>
        emitted, next := [], i + 1;
      case FenceLine =>
        StepFence(lines, i);
        emitted, next := ParseFence(lines, i);
      case HeadingLine =>
        HeadingStep(lines, i);
        var (level, content) := HeadingMatch(trimmed).value;
        emitted, next := [Heading(level, content)], i + 1;
      case RuleLine =>
        emitted, next := [Hr], i + 1;
      case TableLine =>
        StepTable(lines, i);
        emitted, next := ParseTable(lines, i);
      case QuoteLine =>
        StepQuote(lines, i);
        emitted, next := ParseQuote(lines, i);
      case BulletLine =>
        StepList(lines, i, false);
        emitted, next := ParseList(lines, i, false);
      case OrderedLine =>
        StepList(lines, i, true);
        emitted, next := ParseList(lines, i, true);
      case TextLine =>
        var paraLines;
        paraLines, next := CollectParagraph(lines, i);
        emitted := [Paragraph(Join(paraLines, " "))];
    }
    assert emitted == MoveTokens(Step(lines, i)) && next == Step(lines, i).next;
    TokenizeUnfold(lines, i);
  }

  /** `parse`, with the paragraph branch always taking the line it starts at. */
  method Parse(input: string) returns (tokens: seq<Token>)
    ensures tokens == Tokenize(input)
  {
    var lines := Split(input, '\n');
    tokens := [];
    var i: nat := 0;
    while i < |lines|
      invariant i <= |lines| + 1
      invariant tokens + TokenizeFrom(lines, i) == Tokenize(input)
      decreases |lines| + 1 - i
    {
      var emitted, next := ParseBlock(lines, i);
      assert (tokens + emitted) + TokenizeFrom(lines, next) == tokens + (emitted + TokenizeFrom(lines, next));
      tokens := tokens + emitted;
      i := next;
    }
  }
}
