/**
 * Render decisions for an assistant message
 * (components/chat/streaming-message.tsx `StreamingMessage`,
 * `StaticMessage`, `ActiveStreamMessage`, and
 * components/chat/thinking-accordion.tsx `ThinkingAccordion`).
 *
 * A message either follows a live stream or shows text loaded from the
 * database. Either way the text goes through the same pipeline: thinking
 * markers are parsed and cut out first, and tool and source markers are read
 * from what is left. The live subscription and its toast are not part of
 * this model; only the status it reports is.
 */
module StreamRender {
  import opened Wrappers
  import opened JsString
  import opened Thinking
  import opened ToolMarkers

  // ---------------------------------------------------------------------
  // Choosing a renderer
  // ---------------------------------------------------------------------

  /** The three ways a message can render. */
  datatype Choice = LiveStream | StaticContent(content: string) | NoMessage

  /** A JavaScript string prop is truthy when it is present and not empty. */
  predicate Present(s: Option<string>) {
    s.Some? && s.value != []
  }

  /**
   * `StreamingMessage`: follow the stream when the message has a stream id
   * and url and no stored content yet; otherwise show the stored content if
   * there is any; otherwise render nothing. A url is an object, so it counts
   * when it is there.
   */
  function ChooseRenderer(streamId: Option<string>, hasStreamUrl: bool, initialContent: Option<string>): Choice {
    var wasStreaming := Present(streamId) && hasStreamUrl && !Present(initialContent);
    if wasStreaming && Present(streamId) && hasStreamUrl then LiveStream
    else if Present(initialContent) then StaticContent(initialContent.value)
    else NoMessage
  }

  /** Each renderer is chosen exactly in its case, and stored content is shown as stored. */
  lemma ChooseRendererCases(streamId: Option<string>, hasStreamUrl: bool, initialContent: Option<string>)
    ensures var c := ChooseRenderer(streamId, hasStreamUrl, initialContent);
      (c == LiveStream <==> Present(streamId) && hasStreamUrl && !Present(initialContent))
      && (c.StaticContent? <==> Present(initialContent))
      && (c.StaticContent? ==> c.content == initialContent.value && c.content != [])
      && (c == NoMessage <==> !Present(initialContent) && !(Present(streamId) && hasStreamUrl))
  {
  }

  /** A message that already has content is never streamed again, whatever its stream fields say. */
  lemma StoredContentWins(streamId: Option<string>, hasStreamUrl: bool, content: string)
    requires content != []
    ensures ChooseRenderer(streamId, hasStreamUrl, Some(content)) == StaticContent(content)
  {
  }

  // ---------------------------------------------------------------------
  // The parsing pipeline
  // ---------------------------------------------------------------------

  /** What the message body shows once its markers are read. */
  datatype Rendered = Rendered(sessions: seq<Session>, totalTime: nat,
                               tools: seq<Tool>, sources: seq<Source>, markdown: string)

  /** Thinking first, then tools and sources from the text thinking leaves; `None` when a hostname lookup throws. */
  function Pipeline(codec: Codec, thinking: Parsed): Option<Rendered> {
    match ParseTools(codec, thinking.cleanContent)
    case None => None
    case Some(td) => Some(Rendered(thinking.sessions, thinking.totalTime, td.tools, td.sources, td.cleanContent))
  }

  /** `StaticMessage`: the pipeline over the stored content. */
  function StaticView(codec: Codec, content: string): Option<Rendered> {
    Pipeline(codec, ParseThinking(content))
  }

  /** The thinking result `ActiveStreamMessage` uses: the empty result for no text, without parsing. */
  function LiveThinking(text: string): Parsed {
    if text == [] then Parsed([], 0, []) else ParseThinking(text)
  }

  /** The empty-text shortcut gives what parsing the empty text gives, so live and static agree on all text. */
  lemma LiveThinkingAgrees(text: string)
    ensures LiveThinking(text) == ParseThinking(text)
  {
    if text == [] {
      NoStartMarkers(text);
    }
  }

  /**
   * Tools, sources and the markdown depend only on the text left once the
   * thinking spans are cut: markers inside a span are dropped with it and
   * never read.
   */
  lemma ToolsReadAfterThinking(codec: Codec, a: string, b: string)
    requires ParseThinking(a).cleanContent == ParseThinking(b).cleanContent
    ensures StaticView(codec, a).Some? <==> StaticView(codec, b).Some?
    ensures StaticView(codec, a).Some? ==>
      StaticView(codec, a).value.tools == StaticView(codec, b).value.tools
      && StaticView(codec, a).value.sources == StaticView(codec, b).value.sources
      && StaticView(codec, a).value.markdown == StaticView(codec, b).value.markdown
  {
  }

  /** Text without thinking markers has no sessions and its tool markers are read from the whole trimmed text. */
  lemma NoThinkingPipeline(codec: Codec, content: string)
    requires forall q :: 0 <= q < |content| ==> StartAt(content, q).None?
    ensures StaticView(codec, content).Some? ==>
      StaticView(codec, content).value.sessions == [] && StaticView(codec, content).value.totalTime == 0
    ensures StaticView(codec, content) == Pipeline(codec, Parsed([], 0, Trim(content)))
  {
    NoStartMarkers(content);
  }

  /** The markdown shown never holds more than the text it came from. */
  lemma MarkdownNoLonger(codec: Codec, content: string)
    requires StaticView(codec, content).Some?
    ensures |StaticView(codec, content).value.markdown| <= |ParseThinking(content).cleanContent|
  {
    var c := ParseThinking(content).cleanContent;
    var a := RemoveFrom(c, 0, CallPrefix);
    var b := RemoveFrom(a, 0, ResultPrefix);
    var d := RemoveFrom(b, 0, SourcePrefix);
    TrimSpec(d);
  }

  // ---------------------------------------------------------------------
  // Status gating of a live message
  // ---------------------------------------------------------------------

  /** The status of a stream as the subscription reports it. */
  datatype StreamStatus = Pending | Streaming | Done | Error | Timeout

  /** What a live message shows. */
  datatype Screen =
    | Indicator                                 // "Thinking" placeholder
    | Blank                                     // nothing (the error toast aside)
    | Body(isStreaming: bool, body: Rendered)
    | Crash                                     // a hostname lookup threw during render

  predicate Active(status: StreamStatus) {
    status == Pending || status == Streaming
  }

  /**
   * `ActiveStreamMessage`. Both parses run in `useMemo` before either early
   * return, so a hostname lookup that throws crashes the render whatever the
   * status; only then do the indicator and the error return apply.
   */
  function ActiveScreen(codec: Codec, status: StreamStatus, text: string): Screen {
    match Pipeline(codec, LiveThinking(text))
    case None => Crash
    case Some(r) =>
      if Active(status) && text == [] then Indicator
      else if status == Error then Blank
      else Body(Active(status), r)
  }

  /** With no text there is nothing to look up, so the pipeline cannot throw. */
  lemma EmptyTextPipeline(codec: Codec)
    ensures Pipeline(codec, LiveThinking([])) == Some(Rendered([], 0, [], [], []))
  {
    assert MatchesFrom([], 0, SourcePrefix) == [];
  }

  /**
   * The render crashes exactly when the pipeline throws, whatever the
   * status. Otherwise the indicator shows exactly while the stream is pending
   * or streaming and no text has come; an error shows nothing; a body is
   * marked streaming exactly while the stream is pending or streaming, and
   * then has text.
   */
  lemma ActiveScreenCases(codec: Codec, status: StreamStatus, text: string)
    ensures var sc := ActiveScreen(codec, status, text);
      var ok := Pipeline(codec, LiveThinking(text)).Some?;
      (sc == Crash <==> !ok)
      && (sc == Indicator <==> Active(status) && text == [])
      && (sc == Blank <==> status == Error && ok)
      && (sc.Body? ==> (sc.isStreaming <==> Active(status)) && (sc.isStreaming ==> text != []))
  {
    if text == [] {
      EmptyTextPipeline(codec);
    }
  }

  /** A live body shows what the stored message would show for the same text. */
  lemma LiveMatchesStatic(codec: Codec, status: StreamStatus, text: string)
    requires ActiveScreen(codec, status, text).Body?
    ensures StaticView(codec, text) == Some(ActiveScreen(codec, status, text).body)
  {
    LiveThinkingAgrees(text);
  }

  // ---------------------------------------------------------------------
  // The thinking accordion
  // ---------------------------------------------------------------------

  const AccordionTitleCap: nat := 60
  const ThinkingLabel: string := "Thinking..."

  /** The model is thinking while the stream runs and the latest session has not ended. */
  predicate IsThinking(sessions: seq<Session>, isStreaming: bool)
    requires sessions != []
  {
    isStreaming && !sessions[|sessions| - 1].isComplete
  }

  /** The header text: "Thinking..." while thinking, else "Thought for {totalTime}s". */
  function Label(sessions: seq<Session>, totalTime: nat, isStreaming: bool): string
    requires sessions != []
  {
    if IsThinking(sessions, isStreaming) then ThinkingLabel else "Thought for " + ToDecimal(totalTime) + "s"
  }

  /** The latest session's trimmed content, split into lines. */
  function Lines(sessions: seq<Session>): (ls: seq<string>)
    requires sessions != []
    ensures ls != []
  {
    Split(Trim(sessions[|sessions| - 1].content), '\n')
  }

  /** The title: the first line's title capped at 60, or "Thinking..." when that is empty. */
  function Title(sessions: seq<Session>): string
    requires sessions != []
  {
    var t := ExtractTitle(Lines(sessions)[0], AccordionTitleCap);
    if t == [] then ThinkingLabel else t
  }

  /** The body shown inline: the lines after the first, trimmed, or the whole content when they are blank. */
  function InlineText(sessions: seq<Session>): string
    requires sessions != []
  {
    var rest := Trim(Join(Lines(sessions)[1..], "\n"));
    if rest == [] then sessions[|sessions| - 1].content else rest
  }

  /** The header label says "Thinking..." exactly while thinking, and otherwise reports the total time. */
  lemma LabelCases(sessions: seq<Session>, totalTime: nat, isStreaming: bool)
    requires sessions != []
    ensures Label(sessions, totalTime, isStreaming) == ThinkingLabel <==> IsThinking(sessions, isStreaming)
    ensures !isStreaming ==> Label(sessions, totalTime, isStreaming) == "Thought for " + ToDecimal(totalTime) + "s"
  {
    var l := Label(sessions, totalTime, isStreaming);
    if !IsThinking(sessions, isStreaming) {
      assert l[0] == 'T' && l[1] == 'h' && l[2] == 'o';
      assert ThinkingLabel[2] == 'i';
    }
  }

  /** A title is never empty, holds no "**" and has at most 60 characters. */
  lemma TitleShape(sessions: seq<Session>)
    requires sessions != []
    ensures var t := Title(sessions); t != [] && |t| <= AccordionTitleCap && NoDoubleStar(t)
  {
    TitleBounded(Lines(sessions)[0], AccordionTitleCap);
    var t := Title(sessions);
    if t == ThinkingLabel {
      assert forall i :: 0 <= i < |t| ==> t[i] != '*';
    }
  }

  /** A single-line session shows its whole content inline. */
  lemma SingleLineBody(sessions: seq<Session>)
    requires sessions != [] && !Includes(Trim(sessions[|sessions| - 1].content), '\n')
    ensures InlineText(sessions) == sessions[|sessions| - 1].content
  {
    var c := Trim(sessions[|sessions| - 1].content);
    IncludesIff(c, '\n');
    FindSpec(c, '\n');
    assert Lines(sessions) == [c];
    assert Lines(sessions)[1..] == [];
  }

  /** The inline body is empty only when the session's content is. */
  lemma InlineTextNonEmpty(sessions: seq<Session>)
    requires sessions != [] && sessions[|sessions| - 1].content != []
    ensures InlineText(sessions) != []
  {
  }

  /** `ThinkingAccordion`'s own state: whether the single-session body is open. */
  class Accordion {
    var isExpanded: bool

    /** The component mounts collapsed. */
    constructor ()
      ensures !isExpanded
    {
      isExpanded := false;
    }

    /**
     * `handleClick`: with several sessions the click opens the sidebar and
     * leaves the accordion as it was; with one it toggles the body.
     */
    method HandleClick(sessions: seq<Session>) returns (openSidebar: bool)
      modifies this
      ensures openSidebar <==> |sessions| > 1
      ensures isExpanded == if |sessions| > 1 then old(isExpanded) else !old(isExpanded)
    {
      if |sessions| > 1 {
        openSidebar := true;
      } else {
        openSidebar := false;
        isExpanded := !isExpanded;
      }
    }

    /** The inline body, shown only when open and there is exactly one session. */
    function Body(sessions: seq<Session>): (r: Option<string>)
      reads this
      ensures r.Some? <==> isExpanded && |sessions| == 1
    {
      if isExpanded && |sessions| == 1 then Some(InlineText(sessions)) else None
    }

    /** Whether the body repeats the title above it: never when the title is the "Thinking..." stand-in. */
    function ShowsTitle(sessions: seq<Session>): (r: bool)
      reads this
      requires sessions != []
      ensures r ==> Body(sessions).Some? && Title(sessions) != ThinkingLabel
    {
      Body(sessions).Some? && Title(sessions) != ThinkingLabel
    }
  }

  /** The header of the accordion: label, title and step count; nothing at all without sessions. */
  datatype Header = Header(caption: string, title: string, steps: Option<nat>)

  function AccordionHeader(sessions: seq<Session>, totalTime: nat, isStreaming: bool): (r: Option<Header>)
    ensures r.None? <==> sessions == []
    ensures r.Some? ==> (r.value.steps.Some? <==> |sessions| > 1)
  {
    if sessions == [] then None
    else Some(Header(Label(sessions, totalTime, isStreaming), Title(sessions),
                     if |sessions| > 1 then Some(|sessions|) else None))
  }

  /** Two clicks on a single-session accordion leave it as it was and never open the sidebar. */
  method ClickTwice(a: Accordion, sessions: seq<Session>) returns (sidebar: bool)
    requires |sessions| == 1
    modifies a
    ensures !sidebar && a.isExpanded == old(a.isExpanded)
  {
    var first := a.HandleClick(sessions);
    var second := a.HandleClick(sessions);
    sidebar := first || second;
  }
}
