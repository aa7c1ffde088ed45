# Chat client core, modelled in Dafny

This project models the client-side core of a chat application written in
TypeScript and React, and proves properties of the model.

The core turns a growing assistant reply into render-ready structure.

- **Thinking markers.** `<!--THINKING_START:…-->` and `<!--THINKING_END:…-->` markers become thinking sessions, and their spans are cut from the text (module `Thinking`).
- **Tool and source markers.** `<!--TOOL_CALL:…-->`, `<!--TOOL_RESULT:…-->` and `<!--SOURCE:…-->` markers become tool panels and a source list, and the markers are stripped (`ToolMarkers`).
- **Markdown.** The remaining text is cut into block tokens (`MarkdownParser`) and inline segments (`MarkdownInline`).

Around that pipeline sit small decisions and state machines:

- **Rendering.** Whether a message is rendered live or from stored text, and how the thinking accordion behaves (`StreamRender`).
- **Streaming hook.** The guards and the requests it sends (`StreamChat`).
- **Local chat store.** `ChatStore`.
- **Canvas.** The canvas's undo/redo history, comment lists and download extension (`Canvas`).
- **Comment highlighter.** `SelectableText`.
- **Search snippet.** The snippet a search result shows (`SearchDialog`).
- **Chat pages.** The sidebar grouping and the submit guards of the two chat pages (`ChatPage`, `AppChatPage`).

Shared pieces:

- `JsString` states the JavaScript string built-ins the code relies on.
- `Grouping` models the "object of arrays keyed by a label" pass both sidebars use.
- `StableSort` models `Array.prototype.sort` with a rank comparator.
- `Wrappers` holds `Option`.

Code that works step by step is modelled as methods with loops:

- the marker scans and merges;
- the two Markdown loops;
- the highlighter's walk;
- the grouping passes.

Each of these methods is proved equal to a specification function. Lemmas then state what the source promises about that function.

Code that updates state is modelled as classes whose methods state the whole new state:

- the chat store;
- the streaming hook's request log;
- the canvas history;
- the accordion;
- the app page's submit guard.

Inputs the program reads from outside are parameters:

- the clock;
- fresh ids;
- the locale's month label;
- percent-decoding;
- JSON parsing;
- URL hostnames;
- the stream status.

## Model

Each row names a member whose own `ensures` states the property. The
functions that define the model have no contract of their own. Each one is
specified by the lemmas or methods listed after it, whose rows follow in the
table:

- `StreamRender.ChooseRenderer` (components/chat/streaming-message.tsx:178-217): `ChooseRendererCases`, `StoredContentWins`.
- `StreamRender.Pipeline` and `StreamRender.StaticView` (components/chat/streaming-message.tsx:220-243): `ToolsReadAfterThinking`, `NoThinkingPipeline`, `MarkdownNoLonger`.
- `StreamRender.ActiveScreen` (components/chat/streaming-message.tsx:292-343): `ActiveScreenCases`, `EmptyTextPipeline`, `LiveMatchesStatic`.
- `Canvas.GetExtension` (components/canvas/canvas-panel.tsx:450-467): `GetExtensionSpec`, `NativeFunctionNoDot`, `ConstructorExtension`.
- `Canvas.DownloadName` (components/canvas/canvas-panel.tsx:114): `DownloadNameExtension`.
- `MarkdownParser.Tokenize` (lib/markdown/parser.ts:5-124, corrected): `Parse`, `NoTriggerAgrees`, `TokenCount`, `HashTagParagraph`, `TriggerLineParagraph`.
- `MarkdownParser.ParseAsWritten` and `MarkdownParser.ParseAsWrittenFrom` (lib/markdown/parser.ts:5-124, as written): `StuckIffTrigger`, `NoTriggerAgrees`, `HangsAtTrigger`, `HashTagHangs`.
- `MarkdownInline.Segments` (lib/markdown/inline.tsx:12-100, corrected): `SegmentsRender`, `SegmentCount`, `HelloOnce`.
- `MarkdownInline.InlineAsWritten` (lib/markdown/inline.tsx:12-100, as written): `ParseInline`, `AsWrittenRepeatsTail`, `AsWrittenAgrees`, `HelloTwice`.
- `Thinking.ParseThinking` (components/chat/thinking-sidebar.tsx:124-201): `ParseThinkingSessions`, `SessionPerStart`, `StartsComplete`, `CutOrderDescending`.
- `Thinking.ExtractTitle` (components/chat/thinking-sidebar.tsx:109-121): `TitleCases`, `TitleBounded`, `TitleOfShortTitle`.
- `ToolMarkers.ParseTools` (components/chat/streaming-message.tsx:72-175): `ParseToolAndSourceMarkers`, `MalformedStillStripped`, `ToolIdsUnique`, `SourcesDistinct`.
- `SearchDialog.TruncateContent` and `SearchDialog.Snippet` (components/chat/search-dialog.tsx:72-87): `ShortShownWhole`, `NoMatchShowsHead`, `WindowAroundMatch`, `SnippetWindow`, `CaseInsensitive`.
- `ChatStore.TitleFor` (stores/chat-store.ts:104-106): `AppendMessageEffect`, `LongFirstMessageTitle`.
- `ChatPage.HandleSubmit` (components/chat-page.tsx:265-276): `SubmitGuard`.
- `AppChatPage.StreamingAssistant` (app/chat-page.tsx:186-205): `StreamingAssistantSpec`, `UniqueOfDistinct`.
- `AppChatPage.DisplayMessages` (app/chat-page.tsx:207-213): `DisplaySpec`.
- `AppChatPage.Apply` and `AppChatPage.Run` (app/chat-page.tsx:78-107): `Composer.Replay`, `StaysSetAsWritten`, `ErrorLeavesGuardSet`, `ErrorThenSubmitCorrected`.

| member | source | states |
|---|---|---|
| MarkdownParser.HashRun | lib/markdown/parser.ts:44 | the run of leading '#' is maximal: every character in it is '#' and the next is not |
| MarkdownParser.DigitRun | lib/markdown/parser.ts:91-93 | the run of leading digits is maximal, as `\d+` matches it |
| MarkdownParser.Classify | lib/markdown/parser.ts:24-96 | a trimmed line is blank exactly when it is empty; each other kind it is given satisfies that branch's test, the tests taken in the source's order |
| MarkdownParser.RunEnd | lib/markdown/parser.ts:10-17 | the cursor `consumeWhile` stops at lies between its start and the number of lines |
| MarkdownParser.RunEndSpec | lib/markdown/parser.ts:10-17 | the run `consumeWhile` takes is maximal: every line in it passes the predicate and the line after it, if any, fails |
| MarkdownParser.FenceMove | lib/markdown/parser.ts:30-40 | a fence always emits a code token and moves the cursor forward, at most one past the end (the skipped closing fence) |
| MarkdownParser.TableMove | lib/markdown/parser.ts:60-72 | a table line always moves the cursor; a run of one line emits nothing and moves one line |
| MarkdownParser.QuoteMove | lib/markdown/parser.ts:75-79 | a quote line emits a blockquote and moves the cursor forward |
| MarkdownParser.ListMove | lib/markdown/parser.ts:83-95 | a list item emits a list and moves the cursor forward |
| MarkdownParser.BlockStep | lib/markdown/parser.ts:23-96 | every branch before the paragraph moves the cursor forward; a blank line moves it one line |
| MarkdownParser.StepAsWritten | lib/markdown/parser.ts:19-121 | a turn of the loop as written either moves the cursor forward or leaves it where it is |
| MarkdownParser.Step | lib/markdown/parser.ts:98-120 | a turn of the corrected loop always moves the cursor forward |
| MarkdownParser.LeadChar | lib/markdown/parser.ts:30-111 | on a non-blank trimmed line the fence, heading, table, quote and list tests depend on its first character as stated |
| MarkdownParser.ClassifyLead | lib/markdown/parser.ts:24-111 | the branch a non-blank line enters: fence iff it starts with three backticks, heading iff it matches the heading pattern, a '|' line is a table iff it also ends with '|', a '>' line is a quote, list markers open lists |
| MarkdownParser.HeadingMatchSound | lib/markdown/parser.ts:44-47 | a heading match is 1 to 6 '#', a non-empty run of whitespace and a content that starts with no whitespace; the level is the number of '#' |
| MarkdownParser.HeadingMatchComplete | lib/markdown/parser.ts:44-47 | every line of that shape is matched, with that level and content |
| MarkdownParser.HeadingStep | lib/markdown/parser.ts:44-49 | on a heading line the loop as written and the corrected loop take the same step |
| MarkdownParser.StepFence | lib/markdown/parser.ts:30 | a line whose trim starts with three backticks enters the fence branch, in both loops |
| MarkdownParser.FencedCode | lib/markdown/parser.ts:31-39 | the code block's language is the rest of the fence line trimmed, or "text" when that is empty; its content is the following lines joined by newlines |
| MarkdownParser.FenceRun | lib/markdown/parser.ts:34-38 | no code line is a fence line, and the line after them, if any, is the closing fence, which is skipped |
| MarkdownParser.StepTable | lib/markdown/parser.ts:60 | a line whose trim starts and ends with '\|' enters the table branch, in both loops |
| MarkdownParser.TableRun | lib/markdown/parser.ts:61-62 | a table takes the maximal run of table lines; a run of one line is dropped |
| MarkdownParser.TableRows | lib/markdown/parser.ts:62-69 | the first line gives the headers; the second is skipped as a separator iff it holds a '-'; every other line is a row |
| MarkdownParser.TableCells | lib/markdown/parser.ts:63-69 | the headers and rows are the parsed cells of those lines |
| MarkdownParser.RowCells | lib/markdown/parser.ts:63-64 | a row's cells are the pieces between its '\|' characters, without the first and last piece, each trimmed |
| MarkdownParser.RowCellsNoBar | lib/markdown/parser.ts:63-64 | no cell holds a '\|' |
| MarkdownParser.StepQuote | lib/markdown/parser.ts:75 | a line whose trim starts with '>' enters the quote branch, in both loops |
| MarkdownParser.QuoteLines | lib/markdown/parser.ts:76-78 | a quote is the maximal run of '>' lines, each with its marker stripped, joined by newlines |
| MarkdownParser.StripQuoteColumnZero | lib/markdown/parser.ts:77 | the marker and one following whitespace character are removed only when the '>' is in column 0 of the untrimmed line |
| MarkdownParser.StepList | lib/markdown/parser.ts:83-95 | a line whose trim opens a bullet or numbered item enters that list branch, in both loops |
| MarkdownParser.IndentedItem | lib/markdown/parser.ts:84-85 | an indented continuation line loses no marker: its item is its trim |
| MarkdownParser.ListLines | lib/markdown/parser.ts:84-94 | a list is the maximal run of item lines and indented lines from its first item, each reduced to its item text |
| MarkdownParser.ParagraphLines | lib/markdown/parser.ts:98-119 | a paragraph is the line it starts at and the following lines up to a blank or block-opening line, each trimmed, joined by single spaces |
| MarkdownParser.StuckIffTrigger | lib/markdown/parser.ts:98-120 | the loop as written fails to move at a line iff that line opens no block yet stops a paragraph; at any other line it takes the corrected step |
| MarkdownParser.NoTriggerAgrees | lib/markdown/parser.ts:19-121 | on input without such lines the loop as written ends, with exactly the corrected tokens |
| MarkdownParser.HangsAtTrigger | lib/markdown/parser.ts:19-121 | when the loop as written hangs, it hangs at such a line that it reached |
| MarkdownParser.HashTagHangs | lib/markdown/parser.ts:98-120 | "#tag" is no heading and stops a paragraph: the loop as written spins on line 0 |
| MarkdownParser.TriggerLineParagraph | lib/markdown/parser.ts:98-120 | the corrected loop reads such a line as a one-line paragraph |
| MarkdownParser.HashTagParagraph | lib/markdown/parser.ts:98-120 | in the corrected loop, "#tag" alone is one paragraph "#tag" |
| MarkdownParser.TokenCount | lib/markdown/parser.ts:19-121 | there are at most as many tokens as non-blank lines; blank input gives none |
| MarkdownParser.ConsumeWhile | lib/markdown/parser.ts:10-17 | the loop returns the lines from the cursor up to the end of the maximal run, and that end |
| MarkdownParser.CollectParagraph | lib/markdown/parser.ts:99-117 | the paragraph loop takes the trimmed lines up to the next paragraph break, the first line always |
| MarkdownParser.ParseFence | lib/markdown/parser.ts:30-40 | the fence branch pushes the fence's code token and skips the closing fence |
| MarkdownParser.ParseTable | lib/markdown/parser.ts:60-72 | the table branch pushes the table, or nothing for a single line |
| MarkdownParser.ParseQuote | lib/markdown/parser.ts:75-79 | the quote branch pushes the blockquote of the run |
| MarkdownParser.ParseList | lib/markdown/parser.ts:83-95 | the list branches push the list of the run, ordered or not |
| MarkdownParser.ParseBlock | lib/markdown/parser.ts:19-120 | one turn moves the cursor forward and its tokens followed by those of the rest are the tokens from its line |
| MarkdownParser.Parse | lib/markdown/parser.ts:5-124 | `parse` returns the tokens of the corrected specification (see Findings) |
| MarkdownInline.CodeSpan | lib/markdown/inline.tsx:20 | a code match fits in the text with its two backticks |
| MarkdownInline.CodeSpanSound | lib/markdown/inline.tsx:20-24 | inline code is the non-empty text between the first two backticks, with no backtick inside |
| MarkdownInline.CodeSpanComplete | lib/markdown/inline.tsx:20 | every such text between two backticks is matched, with that content |
| MarkdownInline.Doubled | lib/markdown/inline.tsx:28-44 | a bold or strike match fits in the text with its four delimiters |
| MarkdownInline.DoubledSound | lib/markdown/inline.tsx:28-48 | bold and strike take the non-empty text up to the first delimiter, which must be doubled |
| MarkdownInline.DoubledComplete | lib/markdown/inline.tsx:28-44 | every such text between doubled delimiters is matched |
| MarkdownInline.Single | lib/markdown/inline.tsx:52-60 | an italic match fits in the text with its two delimiters |
| MarkdownInline.SingleSound | lib/markdown/inline.tsx:52-64 | italic takes the non-empty text up to the next delimiter, and that text neither starts nor ends with whitespace |
| MarkdownInline.SingleComplete | lib/markdown/inline.tsx:52-60 | every such text between single delimiters is matched |
| MarkdownInline.Target | lib/markdown/inline.tsx:68-76 | a reference match fits in the text with its brackets and parentheses |
| MarkdownInline.TargetSound | lib/markdown/inline.tsx:68-76 | a reference is the text up to the first ']', then '(' and a non-empty target up to the first ')' |
| MarkdownInline.TargetComplete | lib/markdown/inline.tsx:68-76 | every such reference is matched, with that text and target |
| MarkdownInline.ImageRef | lib/markdown/inline.tsx:68 | an image match fits in the text |
| MarkdownInline.ImageRefSound | lib/markdown/inline.tsx:68-72 | an image is "![" followed by a reference whose text may be empty |
| MarkdownInline.LinkRef | lib/markdown/inline.tsx:76 | a link match fits in the text |
| MarkdownInline.LinkRefSound | lib/markdown/inline.tsx:76-80 | a link is "[" followed by a reference whose text is not empty |
| MarkdownInline.FindSpecial | lib/markdown/inline.tsx:84 | the search result lies within the text, the length standing for -1 |
| MarkdownInline.FindSpecialSpec | lib/markdown/inline.tsx:84 | the search finds the first character that could open a pattern, and nothing before it is one |
| MarkdownInline.Pattern | lib/markdown/inline.tsx:19-81 | each pattern, when it matches, consumes a non-empty prefix of the text |
| MarkdownInline.MatchFrom | lib/markdown/inline.tsx:19-81 | the first matching pattern, tried in the source's order, consumes a non-empty prefix |
| MarkdownInline.Markup | lib/markdown/inline.tsx:19-81 | a markup match consumes a non-empty prefix |
| MarkdownInline.PatternRenders | lib/markdown/inline.tsx:19-81 | each pattern's segment is a reading of exactly the prefix it consumes |
| MarkdownInline.MatchFromRenders | lib/markdown/inline.tsx:19-81 | so is the first match's |
| MarkdownInline.Next | lib/markdown/inline.tsx:18-91 | a turn that does not end the loop consumes a non-empty prefix |
| MarkdownInline.PlainText | lib/markdown/inline.tsx:83-91 | without markup, plain text is the first character and everything up to the next special character, which is left for the next turn; with none, the whole rest |
| MarkdownInline.NextRenders | lib/markdown/inline.tsx:18-91 | every turn's segment is a reading of the piece it consumes |
| MarkdownInline.PiecesFlatten | lib/markdown/inline.tsx:18-92 | the pieces the turns consume concatenate to the text: each character is read exactly once |
| MarkdownInline.SegmentsRender | lib/markdown/inline.tsx:18-92 | the corrected segments are a reading of those pieces, one per piece |
| MarkdownInline.SegmentCount | lib/markdown/inline.tsx:16-18 | there are at most as many segments as characters, so the iteration cap of twice the length is never reached |
| MarkdownInline.Turn | lib/markdown/inline.tsx:19-91 | one turn of the loop body: it breaks only on a plain tail, leaving it in `remaining`; otherwise it consumes a prefix |
| MarkdownInline.ParseInline | lib/markdown/inline.tsx:12-100 | `parseInline` returns the segments of the loop as written, including the repeated tail (see Findings) |
| MarkdownInline.AsWrittenRepeatsTail | lib/markdown/inline.tsx:85-97 | when the text ends in plain text, the loop as written returns the corrected segments and that tail a second time |
| MarkdownInline.TailSegIsLast | lib/markdown/inline.tsx:85-97 | the repeated segment is a copy of the last corrected segment |
| MarkdownInline.AsWrittenAgrees | lib/markdown/inline.tsx:18-97 | otherwise the loop as written returns exactly the corrected segments |
| MarkdownInline.HelloTwice | lib/markdown/inline.tsx:85-97 | "hello" yields two "hello" text segments as written |
| MarkdownInline.HelloOnce | lib/markdown/inline.tsx:85-87 | and one in the corrected reading |
| Thinking.DigitRun | components/chat/thinking-sidebar.tsx:133-134 | a run of digits `\d+` stays inside the text |
| Thinking.DigitRunSpec | components/chat/thinking-sidebar.tsx:133-134 | the run is all digits and ends at a non-digit or at the end of the text |
| Thinking.ReadFields | components/chat/thinking-sidebar.tsx:133-134 | a marker tail has exactly the number of digit groups its pattern names and ends inside the text |
| Thinking.StartAt | components/chat/thinking-sidebar.tsx:133 | a start-marker match begins where it is tried and ends inside the text |
| Thinking.EndAt | components/chat/thinking-sidebar.tsx:134 | an end-marker match begins where it is tried and ends inside the text |
| Thinking.ScanStarts | components/chat/thinking-sidebar.tsx:137-145 | the exec loop collects exactly the start markers of the specification scan |
| Thinking.ScanEnds | components/chat/thinking-sidebar.tsx:148-157 | the exec loop collects exactly the end markers of the specification scan |
| Thinking.StartsSound | components/chat/thinking-sidebar.tsx:139-145 | every start collected is a match at its index |
| Thinking.StartsDisjoint | components/chat/thinking-sidebar.tsx:139-145 | the starts collected do not overlap and come in text order |
| Thinking.StartsFromEmpty | components/chat/thinking-sidebar.tsx:139-145 | with no start marker in the text, none is collected |
| Thinking.StartsComplete | components/chat/thinking-sidebar.tsx:139-145 | every start marker in the text is collected |
| Thinking.FirstEndIndex | components/chat/thinking-sidebar.tsx:165 | `ends.find` returns a position within the list, the length standing for none |
| Thinking.FirstEndSpec | components/chat/thinking-sidebar.tsx:165 | `ends.find` stops at the first end marker with the id, and returns none exactly when no end has it |
| Thinking.SessionsOf | components/chat/thinking-sidebar.tsx:163-188 | there is one session per start |
| Thinking.RangesOf | components/chat/thinking-sidebar.tsx:163-188 | there is one span to cut per start |
| Thinking.Reverse | components/chat/thinking-sidebar.tsx:191 | reversal keeps the length |
| Thinking.BuildSessions | components/chat/thinking-sidebar.tsx:160-188 | the loop over starts builds exactly the specified sessions, spans and `totalTime` |
| Thinking.CutSpans | components/chat/thinking-sidebar.tsx:192-195 | the spans are cut one after another from the text as it stands |
| Thinking.ParseThinkingSessions | components/chat/thinking-sidebar.tsx:124-201 | `parseThinkingSessions` returns the specified sessions, total time and clean text |
| Thinking.SessionsAt | components/chat/thinking-sidebar.tsx:163-188 | the k-th session and the k-th span come from the k-th start |
| Thinking.SessionPerStart | components/chat/thinking-sidebar.tsx:163-187 | one session per start, in text order, with its id; complete exactly when an end marker has that id, with that end's duration, else duration 0; its span runs to that end's end or to the end of the text |
| Thinking.FirstEndIsFirst | components/chat/thinking-sidebar.tsx:165 | the end a complete session uses is the first with its id in text order |
| Thinking.ReadPrint | components/chat/thinking-sidebar.tsx:133-134 | the text a marker tail spans is its digit groups joined by ':' and closed by "-->" |
| Thinking.FieldsDigits | components/chat/thinking-sidebar.tsx:133-134 | every group of a marker tail is a run of digits |
| Thinking.ReprintGroup | components/chat/thinking-sidebar.tsx:142-168 | printing a number read from a group without leading zeros gives the group back |
| Thinking.ReprintLength | components/chat/thinking-sidebar.tsx:168-169 | the reprinted start marker takes as much room as the marker it came from when neither number has leading zeros |
| Thinking.StartNumbers | components/chat/thinking-sidebar.tsx:140-144 | a start's id and timestamp are the numbers its digit groups spell |
| Thinking.ContentStartAtMatchEnd | components/chat/thinking-sidebar.tsx:168-169 | a session's text begins just past its start marker when that marker has no leading zeros |
| Thinking.SessionContentBetween | components/chat/thinking-sidebar.tsx:167-171 | a session's text is what lies between its start marker and its end marker, or the end of the text |
| Thinking.NoStartMarkers | components/chat/thinking-sidebar.tsx:124-201 | with no start marker there are no sessions, total time 0, and the clean text is the text trimmed |
| Thinking.LastTotalFromLast | components/chat/thinking-sidebar.tsx:180-181 | `totalTime` comes from the last start, in start order, that found an end marker |
| Thinking.LastTotalNone | components/chat/thinking-sidebar.tsx:130-181 | `totalTime` is 0 when no session found an end marker |
| Thinking.RangesAscending | components/chat/thinking-sidebar.tsx:183-186 | the spans begin at the starts, so they come in strictly ascending order of start |
| Thinking.ReverseDescending | components/chat/thinking-sidebar.tsx:191 | reversing spans in ascending order of start puts them in descending order |
| Thinking.CutOrderDescending | components/chat/thinking-sidebar.tsx:191 | the spans are cut in strictly descending order of start, as the in-place sort orders them |
| Thinking.EndBeforeStart | components/chat/thinking-sidebar.tsx:170-183 | an end marker placed before its start marker leaves the session empty and turns the span around, so the text between them is kept twice |
| Thinking.StripBold | components/chat/thinking-sidebar.tsx:113 | removing every "**" never lengthens the line |
| Thinking.StripBoldHead | components/chat/thinking-sidebar.tsx:113 | a line that does not start with '*' keeps its first character |
| Thinking.StripBoldClean | components/chat/thinking-sidebar.tsx:113 | no "**" is left after the global replace |
| Thinking.StripBoldFixed | components/chat/thinking-sidebar.tsx:113 | a line without "**" is left as it is |
| Thinking.TitleCases | components/chat/thinking-sidebar.tsx:109-121 | a title is the cleaned line when it fits the cap, else its first cap - 3 characters and "..."; the sidebar's cap is 50 and the accordion's 60 (components/chat/thinking-accordion.tsx:94-101) |
| Thinking.TitleBounded | components/chat/thinking-sidebar.tsx:109-121 | a title is at most cap characters long and holds no "**" |
| Thinking.TitleOfShortTitle | components/chat/thinking-sidebar.tsx:109-121 | taking the title of an uncut title changes nothing |
| ToolMarkers.MarkerAt | components/chat/streaming-message.tsx:91-93 | a marker match begins where it is tried and ends inside the text |
| ToolMarkers.RemoveFrom | components/chat/streaming-message.tsx:109-112 | removing markers never lengthens the text |
| ToolMarkers.RemoveDropsMatches | components/chat/streaming-message.tsx:109-112 | removal drops exactly the matched spans: what is left and what was matched, interleaved, make up the text |
| ToolMarkers.RemoveNothing | components/chat/streaming-message.tsx:109-112 | where no marker begins, nothing is removed |
| ToolMarkers.CollectPayloads | components/chat/streaming-message.tsx:64-107 | each exec loop keeps, in order, the decodings of the matched payloads that decode to a truthy value |
| ToolMarkers.DecodedCons | components/chat/streaming-message.tsx:97-98 | a match contributes its payload exactly when it decodes to a truthy value |
| ToolMarkers.DecodedSound | components/chat/streaming-message.tsx:96-107 | every payload kept is the truthy decoding of some match |
| ToolMarkers.DecodedComplete | components/chat/streaming-message.tsx:96-107 | every match that decodes to a truthy value contributes its payload |
| ToolMarkers.MapSet | components/chat/streaming-message.tsx:131-164 | `Map.set` keeps the size or adds one entry |
| ToolMarkers.Keys | components/chat/streaming-message.tsx:115-125 | one key per entry |
| ToolMarkers.Values | components/chat/streaming-message.tsx:171-172 | `Array.from(map.values())` has one value per entry |
| ToolMarkers.MapSetGet | components/chat/streaming-message.tsx:131-151 | after `set`, `get` of that key gives the new value and every other key is unchanged |
| ToolMarkers.MapSetKeys | components/chat/streaming-message.tsx:131-164 | `set` keeps the key order: a present key stays in place, a new one is appended |
| ToolMarkers.MapGetKeys | components/chat/streaming-message.tsx:143 | a key is found exactly when it is among the keys |
| ToolMarkers.MapSetUnique | components/chat/streaming-message.tsx:115-125 | `set` never makes a key appear twice |
| ToolMarkers.MergeCalls | components/chat/streaming-message.tsx:127-137 | the call loop builds the specified map |
| ToolMarkers.MergeResults | components/chat/streaming-message.tsx:139-159 | the result loop builds the specified map from the calls' map |
| ToolMarkers.DedupSources | components/chat/streaming-message.tsx:161-168 | the source loop builds the specified map, or fails when a hostname lookup throws |
| ToolMarkers.FoldStaysFailed | components/chat/streaming-message.tsx:161-168 | once a hostname lookup has thrown, the whole function throws |
| ToolMarkers.ParseToolAndSourceMarkers | components/chat/streaming-message.tsx:72-175 | `parseToolAndSourceMarkers` returns the specified tools, sources and clean text |
| ToolMarkers.MalformedStillStripped | components/chat/streaming-message.tsx:109-113 | markers are stripped whether or not their payloads decode; a codec that rejects every payload yields no tools and no sources |
| ToolMarkers.NothingDecoded | components/chat/streaming-message.tsx:64-107 | when every payload fails to decode, nothing is collected |
| ToolMarkers.DigitsAfterDash | components/chat/streaming-message.tsx:130-142 | a made-up id ends in the digits of its counter |
| ToolMarkers.SyntheticIdsDistinct | components/chat/streaming-message.tsx:130-142 | a made-up call id never equals a made-up result id |
| ToolMarkers.SyntheticCallIdsInjective | components/chat/streaming-message.tsx:130 | made-up ids for one tool name differ when their counters differ |
| ToolMarkers.ResultToolState | components/chat/streaming-message.tsx:144-158 | a result's state is output-error exactly when its error text is a non-empty string, output-available otherwise; a non-string error is serialized |
| ToolMarkers.ResultKeepsCall | components/chat/streaming-message.tsx:143-157 | a result whose id is in the map keeps that tool's name and input |
| ToolMarkers.CallsSurviveResults | components/chat/streaming-message.tsx:127-159 | after all results are merged, a tool a call added still has that call's name and input |
| ToolMarkers.ToolIdsUnique | components/chat/streaming-message.tsx:115-172 | the tools come out with distinct ids, each filed under its own id |
| ToolMarkers.CallsUnique | components/chat/streaming-message.tsx:127-137 | the call loop keeps ids distinct and each tool under its own id |
| ToolMarkers.ResultsUnique | components/chat/streaming-message.tsx:139-159 | so does the result loop |
| ToolMarkers.SourceStepEffect | components/chat/streaming-message.tsx:162-167 | a source without a url changes nothing; one with a url sets that url's title, its own or the hostname, and keeps the url's first place |
| ToolMarkers.SourcesDistinct | components/chat/streaming-message.tsx:161-172 | sources come out with distinct urls |
| ChatStore.SampleChats | stores/chat-store.ts:9-31 | the store starts with three demo chats |
| ChatStore.UpdateAll | stores/chat-store.ts:65-71 | `updateChat` keeps the number of chats |
| ChatStore.RemoveAll | stores/chat-store.ts:73-74 | `deleteChat` never adds a chat |
| ChatStore.AppendAll | stores/chat-store.ts:94-111 | `addMessage` keeps the number of chats |
| ChatStore.ReplaceLastAll | stores/chat-store.ts:115-127 | `updateLastMessage` keeps the number of chats |
| ChatStore.SliceEnd | stores/chat-store.ts:135 | the end `slice(0, messageIndex + 1)` stops at lies within the list, a negative end counting back from its length |
| ChatStore.Renumber | stores/chat-store.ts:140 | the fork's copied messages are as many as those kept |
| ChatStore.BumpAll | stores/chat-store.ts:149-153 | counting a fork keeps the number of chats |
| ChatStore.Store.constructor | stores/chat-store.ts:9-35 | a fresh store holds the demo chats and no current chat |
| ChatStore.Store.CreateChat | stores/chat-store.ts:50-63 | `createChat` puts a new empty chat titled "New chat" in front, makes it current and returns its id |
| ChatStore.Store.UpdateChat | stores/chat-store.ts:65-71 | `updateChat` maps the update over the chats and leaves the current id |
| ChatStore.Store.DeleteChat | stores/chat-store.ts:73-78 | `deleteChat` filters the chats and clears the current id exactly when it was the deleted one |
| ChatStore.Store.SetCurrentChat | stores/chat-store.ts:80-82 | `setCurrentChat` sets the current id and nothing else |
| ChatStore.Store.AddMessage | stores/chat-store.ts:84-112 | `addMessage` appends the message, with a fresh id and the clock's time, to the target chat |
| ChatStore.Store.UpdateLastMessage | stores/chat-store.ts:114-128 | `updateLastMessage` replaces the target chat's last message content |
| ChatStore.Store.ForkChat | stores/chat-store.ts:130-158 | `forkChat` hands back an unknown id and changes nothing; otherwise the fork goes in front, the source counts one more fork, and the fork becomes current |
| ChatStore.FindChatSpec | stores/chat-store.ts:38-42 | the current chat is the first with the current id, and there is none when no chat has it |
| ChatStore.FrontIsCurrent | stores/chat-store.ts:147-155 | a chat put in front and made current is the current chat |
| ChatStore.NoCurrentChat | stores/chat-store.ts:35-42 | with no current id there is no current chat |
| ChatStore.UpdateOnlyTarget | stores/chat-store.ts:65-71 | `updateChat` changes the chats with the id as the update says, and no other |
| ChatStore.ApplyUpdateFields | stores/chat-store.ts:68 | an update takes each field it carries, keeps every other field and always stamps the time |
| ChatStore.RemoveAllSpec | stores/chat-store.ts:74 | `deleteChat` leaves exactly the chats with another id, in order |
| ChatStore.AppendOnlyTarget | stores/chat-store.ts:94-111 | `addMessage` changes the target chat only |
| ChatStore.AppendMessageEffect | stores/chat-store.ts:98-109 | the message goes last; the title becomes the first 50 characters, with "..." when longer, exactly when the chat was empty and the message is the user's |
| ChatStore.LongFirstMessageTitle | stores/chat-store.ts:104-106 | a 60-character first message gives its first 50 characters and "..." as the title |
| ChatStore.ReplaceLastEffect | stores/chat-store.ts:118-125 | `updateLastMessage` changes only the last message's content, and nothing on an empty chat |
| ChatStore.ReplaceLastOnlyTarget | stores/chat-store.ts:115-127 | `updateLastMessage` touches only chats with the id |
| ChatStore.ForkContents | stores/chat-store.ts:135-145 | a fork keeps messages up to the index inclusive, each with content and role but a fresh id, records the parent and the index, and is titled "Fork: " and the source's title |
| ChatStore.ForkAtOneKeepsTwo | stores/chat-store.ts:135 | forking a three-message chat at index 1 keeps two messages |
| ChatStore.BumpOnlyTarget | stores/chat-store.ts:149-153 | the source's fork count goes up by one, an absent count counting as 0, and no other chat changes |
| ChatStore.FirstForkCountsOne | stores/chat-store.ts:151 | a first fork records a count of exactly 1 |
| StreamRender.ChooseRendererCases | components/chat/streaming-message.tsx:186-216 | the live renderer is chosen exactly for a message with a stream id, a stream URL and no content; stored content is shown exactly when present, and shown as stored; nothing is rendered otherwise |
| StreamRender.StoredContentWins | components/chat/streaming-message.tsx:188-213 | a message that has content is always rendered from it, whatever its stream fields say |
| StreamRender.LiveThinkingAgrees | components/chat/streaming-message.tsx:317-320 | the live view's shortcut for empty text gives exactly what parsing the empty text gives |
| StreamRender.ToolsReadAfterThinking | components/chat/streaming-message.tsx:234-243 | tools, sources and markdown depend only on the text left after the thinking spans are cut: two messages with the same remainder show the same tools, sources and markdown |
| StreamRender.NoThinkingPipeline | components/chat/streaming-message.tsx:234-243 | text without a thinking start marker yields no sessions and a total time of 0, and its tool markers are read from the whole trimmed text |
| StreamRender.MarkdownNoLonger | components/chat/streaming-message.tsx:234-243 | the markdown shown is never longer than the text thinking parsing leaves |
| StreamRender.ActiveScreenCases | components/chat/streaming-message.tsx:317-343 | both parses run before the early returns, so the render crashes exactly when a source hostname lookup throws, whatever the status; otherwise the indicator shows exactly while pending or streaming with no text, nothing is shown exactly on an error, and a body is marked streaming exactly while pending or streaming, and then has text |
| StreamRender.LiveMatchesStatic | components/chat/streaming-message.tsx:317-324 | whenever the live view shows a body, it is what the stored view shows for the same text |
| StreamRender.EmptyTextPipeline | components/chat/streaming-message.tsx:317-324 | with no text the live view's parses give no sessions, tools, sources or markdown and cannot throw |
| StreamRender.Lines | components/chat/thinking-accordion.tsx:26-30 | splitting the latest session's trimmed content always gives at least one line |
| StreamRender.LabelCases | components/chat/thinking-accordion.tsx:27-56 | the label is "Thinking..." exactly while streaming and the latest session is incomplete; once not streaming it is "Thought for {totalTime}s" |
| StreamRender.TitleShape | components/chat/thinking-accordion.tsx:94-101 | the title is never empty, contains no "**" and is at most 60 characters |
| StreamRender.SingleLineBody | components/chat/thinking-accordion.tsx:30-74 | a session whose trimmed content is one line shows its whole content as the body |
| StreamRender.InlineTextNonEmpty | components/chat/thinking-accordion.tsx:74 | the body is non-empty whenever the latest session's content is non-empty |
| StreamRender.Accordion.constructor | components/chat/thinking-accordion.tsx:21 | the accordion starts collapsed |
| StreamRender.Accordion.HandleClick | components/chat/thinking-accordion.tsx:33-40 | a click opens the sidebar exactly when there are several sessions and then leaves the accordion as it was; with one session it toggles the accordion |
| StreamRender.Accordion.Body | components/chat/thinking-accordion.tsx:66-77 | the inline body is shown exactly when expanded with a single session |
| StreamRender.Accordion.ShowsTitle | components/chat/thinking-accordion.tsx:69-71 | the title line is shown only inside a shown body and never when the title is the "Thinking..." stand-in |
| StreamRender.AccordionHeader | components/chat/thinking-accordion.tsx:23-63 | there is no accordion exactly when there are no sessions; the step count shows exactly when there are several |
| StreamRender.ClickTwice | components/chat/thinking-accordion.tsx:33-40 | two clicks on a single-session accordion restore its state and never open the sidebar |
| StreamChat.AnyWaitingSpec | hooks/use-stream-chat.ts:31-34 | the chat streams exactly when some message is an assistant reply with a stream id and no content |
| StreamChat.Messages | hooks/use-stream-chat.ts:61-67 | the hook returns one message per stored message, in order, with its id, role, content and stream id; none while loading |
| StreamChat.Hook.constructor | hooks/use-stream-chat.ts:14-17 | the model defaults to "gpt-5.1"; no request has been sent |
| StreamChat.Hook.SendMessage | hooks/use-stream-chat.ts:36-40 | without a chat or while streaming nothing is sent; otherwise the user message and then the stream request, with the hook's model and reasoning effort |
| StreamChat.Hook.CreateChatAndSend | hooks/use-stream-chat.ts:42-59 | while streaming it fails with "Stream in progress" and sends nothing; otherwise it creates the chat under the temporary title, adds the user message, requests a title, opens the stream, and returns the new id |
| StreamChat.Hook.Stop | hooks/use-stream-chat.ts:69-72 | a cancel request is sent exactly for a selected chat that is streaming |
| StreamChat.StreamingNeedsWaitingReply | hooks/use-stream-chat.ts:31-34 | nothing streams before the messages load, or when every message has content |
| StreamChat.WaitingReplyStreams | hooks/use-stream-chat.ts:31-34 | appending a waiting reply makes the chat stream; once its content arrives the chat stops streaming if no other reply waits |
| StreamChat.TempTitleShape | hooks/use-stream-chat.ts:45 | the temporary title is the message itself up to 50 characters, else its first 50 characters and "..." |
| StreamChat.LoadingNeedsChat | hooks/use-stream-chat.ts:81 | history is never loading without a chat, and is loading for a chat whose messages have not arrived |
| Canvas.History.constructor | components/canvas/canvas-panel.tsx:93-94 | a canvas opens with a history holding only its content, at index 0 |
| Canvas.History.UserEdit | components/canvas/canvas-panel.tsx:119-128 | a user edit keeps the entries up to the index, appends the new content, moves the index to it and emits the new content |
| Canvas.History.Undo | components/canvas/canvas-panel.tsx:130-136 | undo steps back one entry and emits it, or does nothing at the first entry |
| Canvas.History.Redo | components/canvas/canvas-panel.tsx:138-144 | redo steps forward one entry and emits it, or does nothing at the last entry |
| Canvas.InitialState | components/canvas/canvas-panel.tsx:93-94 | a new canvas shows its content, and both the undo and redo buttons start disabled |
| Canvas.EditEffect | components/canvas/canvas-panel.tsx:119-128 | after an edit the history up to the old index is kept, the new content is on screen, redo is disabled and does nothing, and one undo brings back the content shown before the edit |
| Canvas.StepsStayValid | components/canvas/canvas-panel.tsx:130-144 | undo and redo keep the entries and an index inside them, and what they emit is the entry at the new index |
| Canvas.ButtonsMatchGuards | components/canvas/canvas-panel.tsx:254-270 | in edit mode the undo and redo buttons are enabled exactly when pressing them would change the content |
| Canvas.UndoThenRedo | components/canvas/canvas-panel.tsx:130-144 | undo then redo returns to the same history and shows the content that was on screen |
| Canvas.RedoThenUndo | components/canvas/canvas-panel.tsx:130-144 | redo then undo returns to the same history and shows the content that was on screen |
| Canvas.EditAfterUndoDropsRedo | components/canvas/canvas-panel.tsx:119-136 | an edit after an undo replaces the undone entry and everything after it, and leaves nothing to redo |
| Canvas.UndoTimes | components/canvas/canvas-panel.tsx:130-136 | any number of undos keeps the entries and an index inside them |
| Canvas.RedoTimes | components/canvas/canvas-panel.tsx:138-144 | any number of redos keeps the entries and an index inside them |
| Canvas.UndoTimesIndex | components/canvas/canvas-panel.tsx:130-136 | n undos move the index back by n, stopping at the first entry |
| Canvas.RedoTimesIndex | components/canvas/canvas-panel.tsx:138-144 | n redos move the index forward by n, stopping at the last entry |
| Canvas.UndoRedoTimes | components/canvas/canvas-panel.tsx:130-144 | n undos that do not pass the first entry are undone by n redos |
| Canvas.PendingCount | components/canvas/canvas-panel.tsx:178-180 | the pending count never exceeds the number of comments |
| Canvas.InlineComments | components/canvas/canvas-panel.tsx:181 | the inline list is never longer than the comment list |
| Canvas.PendingCountSpec | components/canvas/canvas-panel.tsx:178-180 | the pending count is 0 exactly when no comment is pending, and equals the number of comments exactly when all are pending |
| Canvas.PendingCountAppend | components/canvas/canvas-panel.tsx:178-180 | the count over two lists put together is the sum of their counts |
| Canvas.InlineCommentsSpec | components/canvas/canvas-panel.tsx:181 | a comment is in the inline list exactly when it is in the comments and is inline |
| Canvas.InlineCommentsAppend | components/canvas/canvas-panel.tsx:181 | filtering keeps the order: filtering two lists put together gives the two filtered lists put together |
| Canvas.HighlightProps | components/canvas/canvas-panel.tsx:370-375 | each inline comment becomes one highlight, at the same position, with a missing start or end read as 0 and missing text as "" |
| Canvas.ActiveIndex | components/canvas/canvas-panel.tsx:381-383 | the active index is -1 or a position in the inline list |
| Canvas.ActiveIndexSpec | components/canvas/canvas-panel.tsx:381-383 | the active index is -1 exactly when there is no active id or no inline comment has it; otherwise it is the first inline comment with that id |
| Canvas.ClickRoundTrip | components/canvas/canvas-panel.tsx:377-383 | when ids are distinct, clicking the highlight that reports index i makes comment i active, and the index handed back is i |
| Canvas.ClickOutside | components/canvas/canvas-panel.tsx:377-380 | a click that reports an index outside the inline list activates no comment |
| Canvas.CorrectedClickActivatesShown | components/canvas/canvas-panel.tsx:370-383 | with the corrected walk order, clicking any highlight activates the comment whose range that highlight shows, and that comment is then drawn as active |
| Canvas.GetExtensionSpec | components/canvas/canvas-panel.tsx:450-467 | a listed language gets its own extension; a name the object literal inherits from Object.prototype ("constructor", "toString", "__proto__" and the rest) gets that member as a template string prints it, never "txt"; any other language gets "txt"; the extension is never empty and has no dot |
| Canvas.NativeFunctionNoDot | components/canvas/canvas-panel.tsx:466 | an inherited built-in function prints without a dot, so the download name's extension stays readable, and never prints as "txt" |
| Canvas.ConstructorExtension | components/canvas/canvas-panel.tsx:114 | downloading with language "constructor" names the file "notes.function Object() { [native code] }", not "notes.txt" |
| Canvas.DownloadNameExtension | components/canvas/canvas-panel.tsx:109-117 | the text after the last dot of the download name is the language's extension, whatever the title |
| SearchDialog.Lower | components/chat/search-dialog.tsx:73 | lowercasing keeps the length and lowercases each character in place |
| SearchDialog.IndexOfFromSpec | components/chat/search-dialog.tsx:73 | `indexOf` returns the first occurrence at or after the starting point, and -1 exactly when there is none |
| SearchDialog.ShortShownWhole | components/chat/search-dialog.tsx:74-77 | a message no longer than `maxLength` is shown whole, whether or not the query occurs |
| SearchDialog.NoMatchShowsHead | components/chat/search-dialog.tsx:74-77 | a longer message in which the query does not occur shows its first `maxLength` characters followed by "..." |
| SearchDialog.WindowAroundMatch | components/chat/search-dialog.tsx:72-87 | a longer message with a match shows the first match whole, with at most 50 characters before it and 100 after it, and "..." on a side exactly where text was cut there; the snippet is at most 156 characters longer than the query |
| SearchDialog.SnippetWindow | components/chat/search-dialog.tsx:79-86 | the window runs from 50 characters before the match (or the start) to 100 after it (or the end), and the snippet is that slice with the "..." marks |
| SearchDialog.MatchShownInWindow | components/chat/search-dialog.tsx:73-86 | the characters shown at the match lowercase to the lowercased query |
| SearchDialog.CaseInsensitive | components/chat/search-dialog.tsx:73 | two queries that lowercase alike give the same snippet |
| SelectableText.SortByStart | components/comments/selectable-text.tsx:130-133 | sorting keeps the number of comments |
| SelectableText.TagPositions | components/comments/selectable-text.tsx:131 | each comment is paired with its position in the list as given |
| SelectableText.InsertOrdered | components/comments/selectable-text.tsx:130-133 | inserting a comment listed after all others into a list ordered by start, then by position, keeps that order |
| SelectableText.SortTagsBelow | components/comments/selectable-text.tsx:130-133 | the sort brings in no position that was not in its input |
| SelectableText.SortPermutes | components/comments/selectable-text.tsx:130-133 | the sort keeps every comment, each as often as before |
| SelectableText.SortOrdered | components/comments/selectable-text.tsx:130-133 | the sorted comments are ordered by start and, among equal starts, by their position in the list: the sort is stable |
| SelectableText.AsWrittenOrder | components/comments/selectable-text.tsx:138-157 | as written, each highlight reports its place in the sorted list, 0, 1, 2 and so on |
| SelectableText.RenderHighlightedContent | components/comments/selectable-text.tsx:125-172 | no comments give the text itself; otherwise the loop produces exactly the pieces of the walk over the sorted comments (gap, highlight, and `lastEnd` set to each end), then the rest of the text if any |
| SelectableText.PiecesEnd | components/comments/selectable-text.tsx:166-169 | after the last comment only the rest of the text is added, and only when some is left |
| SelectableText.PiecesStep | components/comments/selectable-text.tsx:139-163 | one comment adds the gap when it starts after `lastEnd`, then its highlight, and the walk goes on from its end |
| SelectableText.PiecesShowRest | components/comments/selectable-text.tsx:135-169 | when the ranges lie inside the text and do not overlap, the pieces from any point before the next comment show exactly the rest of the text |
| SelectableText.ReproducesContent | components/comments/selectable-text.tsx:125-172 | when the sorted ranges lie inside the text and do not overlap, the pieces put together are the text itself |
| SelectableText.NestedRangeRepeats | components/comments/selectable-text.tsx:163 | a range nested in another shows its text twice, and the text after it too: "abc" with comments on "abc" and "b" shows "abcbc" |
| SelectableText.ClickIndexMismatch | components/comments/selectable-text.tsx:131-157 | as written, with the comment on "b" listed before the comment on "a", the highlight of "a" reports index 0, which is the comment on "b" |
| SelectableText.MarksReportTheirComment | components/comments/selectable-text.tsx:145-159 | when each walked comment carries its position in the list, every highlight reports a comment of the list, shows that comment's range, has its resolved flag, and is active exactly when that index is the active one |
| SelectableText.CorrectedClickFindsComment | components/comments/selectable-text.tsx:131-159 | with each highlight reporting the comment's position in the list as given, every highlight's index is the comment whose range it shows, and it is active exactly for the active index |
| SelectableText.SameTextEitherOrder | components/comments/selectable-text.tsx:135-169 | the reported indices do not change the text: walks over the same comments show the same text |
| SelectableText.OrdersAgreeOnComments | components/comments/selectable-text.tsx:131-138 | the corrected walk visits the same comments in the same order as the written one |
| SelectableText.AddCommentGuard | components/comments/selectable-text.tsx:91-101 | a comment is sent exactly when something is selected and the comment is not blank; it is sent with the selected text and the comment as typed, untrimmed |
| ChatPage.TimeSegmentThresholds | components/chat-page.tsx:52-66 | a chat is "Today" from midnight on, "Yesterday" in the day before, "Previous 7 days" back to seven days before midnight, "Previous 30 days" back to thirty, and otherwise gets its month label |
| ChatPage.SegmentOfBucket | components/chat-page.tsx:52-78 | the segment is the fixed label of how far back the chat lies, or its month label when it is older; a fixed label's place in `order` is that distance |
| ChatPage.BucketMonotone | components/chat-page.tsx:56-64 | a later timestamp never falls in an older segment |
| ChatPage.SortKeys | components/chat-page.tsx:88-95 | sorting keeps the number of segments |
| ChatPage.Grouped | components/chat-page.tsx:69-98 | one group per sorted segment, in that order, each holding the chats of its segment in input order |
| ChatPage.GroupChatsByTime | components/chat-page.tsx:69-98 | the one-pass fill of the groups object, followed by the sort and map of its keys, gives exactly the groups of `Grouped` |
| ChatPage.Listed | components/chat-page.tsx:97 | one group per sorted key, in that order, holding that key's array |
| ChatPage.KeysInMap | components/chat-page.tsx:88-97 | every sorted key has an array in the groups object |
| ChatPage.SortKeysPermutes | components/chat-page.tsx:88-95 | sorting keeps every segment, each as often as before |
| ChatPage.SortKeysSpec | components/chat-page.tsx:88-95 | the sorted segments follow `order`, with the month labels after the fixed ones; segments the comparator ties keep their order of first appearance |
| ChatPage.GroupsNonEmpty | components/chat-page.tsx:80-97 | every group listed holds at least one chat |
| ChatPage.GroupsOrdered | components/chat-page.tsx:88-97 | no segment is listed twice, and Today, Yesterday, Previous 7 days, Previous 30 days come first, in that order, before any month |
| ChatPage.ChatInItsGroup | components/chat-page.tsx:80-97 | every chat is in the group of its own segment and in no other, and that group is listed |
| ChatPage.DistinctAfterPermutation | components/chat-page.tsx:88-95 | reordering a list of distinct keys gives distinct keys |
| ChatPage.CountOne | components/chat-page.tsx:82-84 | in a list of distinct keys each key occurs at most once |
| ChatPage.SubmitGuard | components/chat-page.tsx:265-276 | submit does nothing exactly when the input is blank or a stream is open; otherwise it sends the trimmed message, which starts and ends with a non-space, to a new chat exactly when no chat is open |
| StableSort.InsertBy | components/chat-page.tsx:88-95 | inserting adds exactly one element |
| StableSort.SortBy | components/chat-page.tsx:88-95 | sorting keeps the length |
| StableSort.InsertByPermutes | components/chat-page.tsx:88-95 | inserting adds the element and keeps all the others |
| StableSort.SortByPermutes | components/chat-page.tsx:88-95 | sorting keeps every element, each as often as before |
| StableSort.OfRankAppend | components/chat-page.tsx:88-95 | the elements of one rank in two lists put together are those of the first list followed by those of the second |
| StableSort.OfRankNone | components/chat-page.tsx:88-95 | a list ranked wholly above a rank has no element of that rank |
| StableSort.InsertByBound | components/chat-page.tsx:88-95 | inserting keeps every rank at or above a lower bound that held before |
| StableSort.InsertBySorted | components/chat-page.tsx:88-95 | inserting into a list sorted by rank keeps it sorted |
| StableSort.InsertByOfRank | components/chat-page.tsx:88-95 | inserting into a sorted list puts the element after every element of the same rank |
| StableSort.InsertPastHead | components/chat-page.tsx:88-95 | when the element goes past the first, the elements of each rank keep their order with it last |
| StableSort.InsertAtFront | components/chat-page.tsx:88-95 | when the element goes in front, it is still after every element of its own rank, since there is none |
| StableSort.SortBySpec | components/comments/selectable-text.tsx:130-133 | the sorted list is in rank order, and the elements of each rank keep their input order: the sort is stable, as the comparator sorts require |
| Grouping.Members | components/chat-page.tsx:80-86 | a group is never larger than the list it is taken from |
| Grouping.MembersOutside | components/chat-page.tsx:82-84 | a key that no element has has no array in the object |
| Grouping.GroupStep | components/chat-page.tsx:80-86 | one step of the pass adds the key if new, and pushes the element at the end of its key's array, created empty if new; nothing else changes |
| Grouping.MembersSpec | app/chat-page.tsx:307-320 | a group holds exactly the elements whose key is its key |
| Grouping.MembersAppend | components/chat-page.tsx:80-86 | grouping two lists put together puts their groups together: each group keeps input order |
| Grouping.KeysOfSpec | components/chat-page.tsx:80-88 | the object's keys are exactly the keys that occur, each once |
| Grouping.Partition | app/chat-page.tsx:307-320 | every element is in the group of its key and in no other, every element's key has a group, and no group is empty |
| AppChatPage.GroupChatsByDate | app/chat-page.tsx:307-320 | the forEach pass produces exactly the keys in order of first appearance and, for each, the chats with that label in input order |
| AppChatPage.DateGroupAgrees | app/chat-page.tsx:308-316 | the labels follow the thresholds of one, seven and thirty days (86400000, 604800000, 2592000000 ms) before midnight, exactly as the component page's segments do with every month folded into "Older", and the label's rank is how far back the chat lies |
| AppChatPage.DateGroupsPartition | app/chat-page.tsx:313-319 | every group is non-empty and is one of the five labels; every chat is in the group of its label and in no other |
| AppChatPage.NewestFirstGivesDateOrder | app/chat-page.tsx:307-320 | for chats listed newest first, the groups come out Today, Yesterday, Previous 7 days, Previous 30 days, Older, skipping empty ones |
| AppChatPage.HistoryConverted | app/chat-page.tsx:176-183 | the history has one message per stored message |
| AppChatPage.HistoryReversed | app/chat-page.tsx:175-183 | message i of the history is the stored message i places from the end, converted |
| AppChatPage.NewestFirstShownOldestFirst | app/chat-page.tsx:175-183 | stored messages fetched newest first are shown oldest first |
| AppChatPage.OlderPageGoesFirst | app/chat-page.tsx:175-183 | when the fetched list is a current page followed by an older one, the older page's messages come first in the history |
| AppChatPage.FirstAssistantSpec | app/chat-page.tsx:187-188 | the message found is the first assistant message, and there is none exactly when no message is from the assistant |
| AppChatPage.TextsSpec | app/chat-page.tsx:190-191 | the text list and the reasoning list hold exactly the texts of the text parts and of the reasoning parts |
| AppChatPage.StreamingAssistantSpec | app/chat-page.tsx:186-205 | there is a streamed message exactly when there is an assistant message; it keeps that message's id, is from the assistant, is dated now, shows "" exactly when there is no text or the last distinct text is empty, and otherwise one of its text parts; its reasoning is present exactly when the last reasoning part is non-empty, and is that part |
| AppChatPage.UniqueOfDistinct | app/chat-page.tsx:193-195 | when the texts are all different, removing repeats keeps them all, so the last text is shown |
| AppChatPage.RepeatKeepsFirstPlace | app/chat-page.tsx:193-195 | a repeated text keeps its first place: of "a", "b", "a" the message shows "b" |
| AppChatPage.DisplaySpec | app/chat-page.tsx:207-213 | the history is always shown whole and first; the streamed message follows it exactly while submitted or streaming and there is one |
| AppChatPage.Composer.constructor | app/chat-page.tsx:73-75 | the guard starts clear and the last status seen is the current one |
| AppChatPage.Composer.Submit | app/chat-page.tsx:104-107 | a submission goes ahead exactly when there is input or a file and none is in flight, and then sets the guard; otherwise nothing changes |
| AppChatPage.Composer.StatusChanged | app/chat-page.tsx:78-101 | the guard is cleared when a stream in flight ends, then the status is recorded (the release on errors is the corrected behaviour) |
| AppChatPage.Composer.StatusChangedAsWritten | app/chat-page.tsx:78-101 | as written, the guard is cleared only when a stream in flight changes to ready, then the status is recorded |
| AppChatPage.Composer.Handle | app/chat-page.tsx:78-107 | one status change goes through the status effect as written or corrected, and one submission through the guard; the new guard, status and whether it went ahead are those of the one-event specification |
| AppChatPage.Composer.Replay | app/chat-page.tsx:78-107 | feeding the page a run of status changes and submissions, with the status effect as written or corrected, leaves exactly the guard and status the run specification gives, and reports each submission that went ahead |
| AppChatPage.SubmitGuard | app/chat-page.tsx:105-106 | a submission goes ahead exactly on non-blank input or at least one file, and never while another is in flight |
| AppChatPage.StaysSetAsWritten | app/chat-page.tsx:78-107 | as written, a set guard with no stream in flight is never cleared while no stream starts, and every submission in that run is dropped |
| AppChatPage.ErrorLeavesGuardSet | app/chat-page.tsx:78-107 | as written, after the status goes from streaming to an error, any later run of events in which no stream starts keeps the guard set and drops every submission, whatever its input |
| AppChatPage.ErrorThenSubmitCorrected | app/chat-page.tsx:78-107 | after streaming then an error, a submission with input or a file goes ahead with the corrected effect and is dropped with the effect as written |
| AppChatPage.EndedStreamReleases | app/chat-page.tsx:78-107 | with the release on errors too, every stream that ends clears the guard, and the next submission with input goes ahead |
| JsString.SpacePrefixSpec | components/chat-page.tsx:266-268 | the leading run that `trim` removes is all whitespace, and the character after it is not |
| JsString.SpaceSuffixSpec | components/chat-page.tsx:266-268 | the trailing run that `trim` removes is all whitespace, and the character before it is not |
| JsString.Trim | components/chat-page.tsx:268 | trimming never lengthens a string |
| JsString.TrimSpec | components/chat-page.tsx:266-268 | the trim is the part between the leading and the trailing whitespace; it neither starts nor ends with whitespace, and it is empty exactly when the string is all whitespace |
| JsString.TrimIdempotent | components/chat/thinking-accordion.tsx:30 | trimming twice is trimming once |
| JsString.TrimNoSpaceEnds | components/chat/thinking-accordion.tsx:96 | a string that neither starts nor ends with whitespace is its own trim |
| JsString.Slice | components/chat/search-dialog.tsx:86 | `slice(a, b)` is the substring from a to b inside the string, empty when the range is reversed or starts past the end, and never longer than the string |
| JsString.EllipsisSpec | hooks/use-stream-chat.ts:45 | `s.slice(0, n) + (s.length > n ? "..." : "")` keeps a string that fits whole, and otherwise its first n characters followed by "..."; never more than n + 3 characters |
| JsString.SliceFrom | components/comments/selectable-text.tsx:168 | `slice(a)` is the rest of the string from a, or empty past the end |
| JsString.FindSpec | components/chat/thinking-accordion.tsx:30 | the search for a separator stops at its first occurrence, and only there |
| JsString.IncludesIff | components/chat/thinking-accordion.tsx:30 | a string includes a character exactly when it occurs in it |
| JsString.Split | components/chat/thinking-accordion.tsx:30 | `split` on a one-character separator always gives at least one piece |
| JsString.SplitNoSeparator | components/chat/thinking-accordion.tsx:30 | no piece of a split holds the separator |
| JsString.JoinSplit | components/chat/thinking-accordion.tsx:74 | joining the pieces of a split with the separator gives back the string |
| JsString.SplitJoin | components/chat/thinking-accordion.tsx:74 | splitting a join of pieces without the separator gives back the pieces |
| JsString.ToDecimal | components/chat/thinking-accordion.tsx:56 | the decimal text of a number is a non-empty string of digits without a leading zero |
| JsString.ParseToDecimal | components/chat/thinking-sidebar.tsx:142-143 | `parseInt` of a number's decimal text gives the number back |
| JsString.ParseDecimalRange | components/chat/thinking-sidebar.tsx:142-143 | a k-digit string reads as a number below 10^k, and at least 10^(k-1) without a leading zero |
| JsString.ToDecimalParse | components/chat/thinking-sidebar.tsx:142-143 | printing what `parseInt` read gives back the digits, when they have no leading zero |

## Left out

- Backend and I/O are not part of this model:
  - database queries and mutations;
  - the live stream subscription and its toast;
  - title generation;
  - local storage persistence of the chat store;
  - the clipboard;
  - file downloads.
  Requests are recorded as values in the order the code makes them, and every request is taken to succeed.
- `decodeURIComponent`, `JSON.parse`, `JSON.stringify` and `new URL(…).hostname` are opaque functions of a `Codec`. A throw is `None`.
- ToolMarkers.ParseToolAndSourceMarkers: a payload's `toolName`, `toolCallId`, `url` and `title` are read only when they are JSON strings; a number or object in those fields is read as absent, where the source would use it as is.
- Strings are sequences of Unicode scalar values. UTF-16 code units (surrogate pairs in `length` and `slice`) are not modelled.
- SearchDialog.Lower: `toLowerCase` is ASCII-only. Letters outside ASCII, and lowercasings that change a string's length, are not modelled.
- Regular expressions are written out by hand, one function per pattern. The regex engine itself is not modelled.
- `highlightMatch` in the search dialog builds a regular expression from the raw query and is left out.
- `parseInt` and the numbers in markers are unbounded integers. Precision loss above 2^53 is not modelled.
- Thinking.SessionContentBetween: states a session's content only for markers whose numbers have no leading zeros. With leading zeros the source rebuilds the start marker's length from the parsed numbers and the content starts inside the marker. The model computes this, but no lemma describes it.
- Thinking.NoStartMarkers: that end markers matching no start remain in the clean text is proved only for text without start markers. An orphan end marker inside another session's span is cut with that span.
- The in-place sort of `rangesToRemove` is modelled as reversing the ranges, which come in ascending order of start. `Thinking.CutOrderDescending` proves that this is the order the sort gives.
- ChatStore.ApplyUpdateFields: in `{...chat, ...updates}`, an update that carries a field explicitly set to `undefined` overwrites the chat's field with `undefined`. In the model an absent field is `None`, meaning not carried, so such an update leaves the field unchanged.
- An inherited built-in function in a download name is printed as `function name() { [native code] }`, the form common JavaScript engines use. The language standard fixes only the general shape of that text.
- Selection offsets and list indices are natural numbers. A negative `selectionStart` or `selectionEnd` stored on a comment is not modelled.
- The DOM selection code that produces a comment's offsets, and `handleAskAI`, are left out.
- Object keys are taken in insertion order. JavaScript lists integer-like keys first, but none of the group labels is integer-like or a prototype property name.
- The month label of an old chat (`toLocaleDateString`) is an opaque function of the timestamp. The local midnight "today" is an input.
- `Array.prototype.sort` is modelled as a stable insertion sort. The comparators used are consistent, so any stable sort gives the same list.
- `handleSubmit` on both pages is modelled only up to the guard and the message it sends. Not modelled:
  - clearing the input;
  - navigation;
  - attachments;
  - the title request;
  - the chat creation on the app page.
  The app page sends the input untrimmed. The component page sends it trimmed. The model keeps both.
- The app page's status effect saves the finished reply and navigates (app/chat-page.tsx:84-99). Only its release of the submit guard is modelled.
- The AI SDK's chat transport is not part of this model. Its status is taken to be one of submitted, streaming, ready and error. Its message parts are text, reasoning, or anything else.
- Not modelled:
  - the canvas's AI edit;
  - the canvas comments panel;
  - the copy button;
  - the fullscreen toggle;
  - the general-comment input.
- Markdown rendering is left out: react-markdown, KaTeX, syntax highlighting and the JSX of every component.
- The block parser is modelled twice: `Parse` and its specification `Tokenize` take the corrected loop, and `ParseAsWritten` keeps the loop as written (see Findings).

## Findings

| source | as written | input that shows it | evidently intended | confidence | as-written member | corrected member |
|---|---|---|---|---|---|---|
| lib/markdown/parser.ts:98-120 | a non-blank line that opens no block but stops a paragraph (a '#' line that is not a heading, a '\|' line not ending in '\|') makes the paragraph loop take no line, so the cursor never moves and `parse` never returns | "#tag" | the paragraph takes its first line whatever it is, so "#tag" is a one-line paragraph | high, not executed | MarkdownParser.ParseAsWritten, MarkdownParser.HashTagHangs | MarkdownParser.Parse, MarkdownParser.HashTagParagraph |
| lib/markdown/inline.tsx:84-97 | when no special character is left, the tail is pushed and the loop breaks with `remaining` still set, so the fallback after the loop pushes the same tail again | "hello" gives two "hello" segments | the tail is pushed once | high, not executed | MarkdownInline.ParseInline, MarkdownInline.HelloTwice | MarkdownInline.Segments, MarkdownInline.HelloOnce |
| components/comments/selectable-text.tsx:131-157 | a highlight reports its place in the sorted list, but the canvas looks that index up in the list as it came (components/canvas/canvas-panel.tsx:377-383) | comments on "b" (1-2) then "a" (0-1) of "ab": clicking "a" reports 0, the comment on "b" | each highlight reports the comment's position in the list it was given | high, not executed | SelectableText.ClickIndexMismatch | SelectableText.CorrectedClickFindsComment, Canvas.CorrectedClickActivatesShown |
| app/chat-page.tsx:78-107 | the submit guard is cleared only when the status goes from submitted or streaming to ready; a stream that ends in error leaves it set, and every later submission returns early | status streaming then error, then submit "hi" | the guard is cleared whenever a stream ends, ready or error | medium (the status values come from the AI SDK, not part of this model), not executed | AppChatPage.ErrorLeavesGuardSet, AppChatPage.Composer.StatusChangedAsWritten | AppChatPage.EndedStreamReleases, AppChatPage.ErrorThenSubmitCorrected, AppChatPage.Composer.StatusChanged |
