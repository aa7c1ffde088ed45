/**
 * Tool and source markers in an assistant reply
 * (components/chat/streaming-message.tsx, `safeDecodeJson` and
 * `parseToolAndSourceMarkers`).
 *
 * The server records each tool call, tool result and cited source as
 * `<!--TOOL_CALL:payload-->`, `<!--TOOL_RESULT:payload-->` or
 * `<!--SOURCE:payload-->`, where the payload is percent-encoded JSON. The
 * client decodes the payloads, merges calls and results by tool-call id,
 * removes duplicate sources by url and strips every marker from the text.
 * Percent-decoding, JSON parsing, `JSON.stringify` and the hostname of a url
 * are not part of this model: they come in as the functions of a `Codec`.
 */
module ToolMarkers {
  import opened Wrappers
  import opened JsString

  const CallPrefix: string := "<!--TOOL_CALL:"
  const ResultPrefix: string := "<!--TOOL_RESULT:"
  const SourcePrefix: string := "<!--SOURCE:"

  /** A JSON value as `JSON.parse` returns it. */
  datatype Json =
    | JNull
    | JBool(b: bool)
    | JNumber(n: real)
    | JString(str: string)
    | JArray(items: seq<Json>)
    | JObject(fields: map<string, Json>)

  /**
   * The library functions the parser calls. `None` stands for a thrown
   * exception: `decodeURIComponent` on a bad escape, `JSON.parse` on bad
   * JSON, `new URL(u)` on an unparsable url.
   */
  datatype Codec = Codec(
    decodeUri: string -> Option<string>,
    parseJson: string -> Option<Json>,
    hostname: string -> Option<string>,
    stringify: Json -> string)

  datatype ToolState = InputAvailable | OutputAvailable | OutputError

  /** A tool panel; `None` fields are `undefined`. */
  datatype Tool = Tool(toolName: string, toolCallId: string, state: ToolState,
                       input: Option<Json>, output: Option<Json>, errorText: Option<string>)

  datatype Source = Source(title: string, url: string)

  datatype ToolData = ToolData(tools: seq<Tool>, sources: seq<Source>, cleanContent: string)

  /** A marker match: where it begins, its payload, and where it ends. */
  datatype Match = Match(start: nat, payload: string, end: nat)

  // ---------------------------------------------------------------------
  // Finding and removing markers
  // ---------------------------------------------------------------------

  /**
   * A match of `/<prefix>([^>]+)-->/` beginning exactly at `p`. `[^>]+`
   * cannot pass the first '>' after the prefix, and `-->` must end on a '>',
   * so the only match ends at that first '>', with "--" just before it and
   * at least one payload character.
   */
  function MarkerAt(s: string, p: nat, prefix: string): (r: Option<Match>)
    requires p <= |s|
    ensures r.Some? ==> r.value.start == p && p < r.value.end <= |s|
  {
    if StartsWith(s[p..], prefix) then
      var a := p + |prefix|;
      var g := a + Find(s[a..], '>');
      if g < |s| && a + 3 <= g && s[g - 2] == '-' && s[g - 1] == '-'
      then Some(Match(p, s[a..g - 2], g + 1))
      else None
    else None
  }

  /** The matches a global regex finds from `p` on: each search resumes where the last match ended. */
  function MatchesFrom(s: string, p: nat, prefix: string): seq<Match>
    requires p <= |s|
    decreases |s| - p
  {
    if p == |s| then []
    else match MarkerAt(s, p, prefix)
      case Some(m) => [m] + MatchesFrom(s, m.end, prefix)
      case None => MatchesFrom(s, p + 1, prefix)
  }

  /** `s.replace(regex, "")` from `p` on: the same matches, deleted. */
  function RemoveFrom(s: string, p: nat, prefix: string): (r: string)
    requires p <= |s|
    ensures |r| <= |s| - p
    decreases |s| - p
  {
    if p == |s| then []
    else match MarkerAt(s, p, prefix)
      case Some(m) => RemoveFrom(s, m.end, prefix)
      case None => [s[p]] + RemoveFrom(s, p + 1, prefix)
  }

  /** The text left once every marker is stripped, one kind after the other, and trimmed. */
  function CleanText(content: string): string {
    var noCalls := RemoveFrom(content, 0, CallPrefix);
    var noResults := RemoveFrom(noCalls, 0, ResultPrefix);
    Trim(RemoveFrom(noResults, 0, SourcePrefix))
  }

  /** Total length of the matched spans. */
  function MatchedLength(ms: seq<Match>): int {
    if ms == [] then 0 else (ms[0].end - ms[0].start) + MatchedLength(ms[1..])
  }

  /** Removal drops exactly the matched spans: what is left and what was matched add up to the text. */
  lemma {:induction false} RemoveDropsMatches(s: string, p: nat, prefix: string)
    requires p <= |s|
    ensures |RemoveFrom(s, p, prefix)| + MatchedLength(MatchesFrom(s, p, prefix)) == |s| - p
    decreases |s| - p
  {
    if p < |s| {
      var m := MarkerAt(s, p, prefix);
      if m.Some? {
        RemoveDropsMatches(s, m.value.end, prefix);
        assert MatchesFrom(s, p, prefix)[1..] == MatchesFrom(s, m.value.end, prefix);
      } else {
        RemoveDropsMatches(s, p + 1, prefix);
      }
    }
  }

  /** Where no marker begins, nothing is removed. */
  lemma {:induction false} RemoveNothing(s: string, p: nat, prefix: string)
    requires p <= |s|
    requires forall q :: p <= q < |s| ==> MarkerAt(s, q, prefix).None?
    ensures RemoveFrom(s, p, prefix) == s[p..] && MatchesFrom(s, p, prefix) == []
    decreases |s| - p
  {
    if p < |s| {
      RemoveNothing(s, p + 1, prefix);
      assert s[p..] == [s[p]] + s[p + 1..];
    }
  }

  // ---------------------------------------------------------------------
  // Payloads
  // ---------------------------------------------------------------------

  /** `safeDecodeJson`: `JSON.parse(decodeURIComponent(encoded))`, or null when either throws. */
  function SafeDecodeJson(codec: Codec, encoded: string): Option<Json> {
    match codec.decodeUri(encoded)
    case None => None
    case Some(text) => codec.parseJson(text)
  }

  /** JavaScript truthiness of a parsed value: null, false, 0 and "" are falsy. */
  predicate Truthy(j: Json) {
    match j
    case JNull => false
    case JBool(b) => b
    case JNumber(n) => n != 0.0
    case JString(str) => str != []
    case _ => true
  }

  /** The payload of a match, kept when it decodes to a truthy value (`if (payload) list.push(payload)`). */
  function Kept(codec: Codec, m: Match): Option<Json> {
    match SafeDecodeJson(codec, m.payload)
    case Some(j) => if Truthy(j) then Some(j) else None
    case None => None
  }

  /** The payloads pushed for a list of matches, in order. */
  function Decoded(codec: Codec, ms: seq<Match>): seq<Json> {
    if ms == [] then []
    else (match Kept(codec, ms[0]) case Some(j) => [j] case None => []) + Decoded(codec, ms[1..])
  }

  /** An exec loop over one marker kind, decoding each payload. */
  method CollectPayloads(codec: Codec, content: string, prefix: string) returns (payloads: seq<Json>)
    ensures payloads == Decoded(codec, MatchesFrom(content, 0, prefix))
  {
    payloads := [];
    var pos := 0;
    while pos < |content|
      invariant pos <= |content|
      invariant payloads + Decoded(codec, MatchesFrom(content, pos, prefix)) == Decoded(codec, MatchesFrom(content, 0, prefix))
      decreases |content| - pos
    {
      ghost var total := Decoded(codec, MatchesFrom(content, 0, prefix));
      var m := MarkerAt(content, pos, prefix);
      MatchesStep(content, pos, prefix);
      if m.Some? {
        var payload := SafeDecodeJson(codec, m.value.payload);
        ghost var rest := Decoded(codec, MatchesFrom(content, m.value.end, prefix));
        DecodedCons(codec, m.value, MatchesFrom(content, m.value.end, prefix));
        if payload.Some? && Truthy(payload.value) {
          assert payloads + ([payload.value] + rest) == total;
          payloads := payloads + [payload.value];
          assert payloads + rest == total;
        } else {
          assert payloads + ([] + rest) == total;
          assert [] + rest == rest;
        }
        pos := m.value.end;
      } else {
        pos := pos + 1;
      }
    }
  }

  /** One step of the scan. */
  lemma MatchesStep(s: string, p: nat, prefix: string)
    requires p < |s|
    ensures MarkerAt(s, p, prefix).Some? ==>
      MatchesFrom(s, p, prefix) == [MarkerAt(s, p, prefix).value] + MatchesFrom(s, MarkerAt(s, p, prefix).value.end, prefix)
    ensures MarkerAt(s, p, prefix).None? ==> MatchesFrom(s, p, prefix) == MatchesFrom(s, p + 1, prefix)
  {
  }

  /** The first match contributes its payload exactly when it decodes to a truthy value. */
  lemma DecodedCons(codec: Codec, m: Match, rest: seq<Match>)
    ensures var j := SafeDecodeJson(codec, m.payload);
      Decoded(codec, [m] + rest) == (if j.Some? && Truthy(j.value) then [j.value] else []) + Decoded(codec, rest)
  {
    assert ([m] + rest)[1..] == rest;
  }

  /** Every payload kept is the truthy decoding of some match. */
  lemma {:induction false} DecodedSound(codec: Codec, ms: seq<Match>, j: Json)
    requires j in Decoded(codec, ms)
    ensures exists k :: 0 <= k < |ms| && Kept(codec, ms[k]) == Some(j)
  {
    var head := match Kept(codec, ms[0]) case Some(x) => [x] case None => [];
    assert Decoded(codec, ms) == head + Decoded(codec, ms[1..]);
    if j in head {
      assert Kept(codec, ms[0]) == Some(j);
    } else {
      DecodedSound(codec, ms[1..], j);
      var k :| 0 <= k < |ms[1..]| && Kept(codec, ms[1..][k]) == Some(j);
      assert Kept(codec, ms[k + 1]) == Some(j);
    }
  }

  /** Every match whose payload decodes to a truthy value contributes its payload. */
  lemma {:induction false} DecodedComplete(codec: Codec, ms: seq<Match>, k: nat)
    requires k < |ms| && Kept(codec, ms[k]).Some?
    ensures Kept(codec, ms[k]).value in Decoded(codec, ms)
  {
    var head := match Kept(codec, ms[0]) case Some(x) => [x] case None => [];
    assert Decoded(codec, ms) == head + Decoded(codec, ms[1..]);
    if k > 0 {
      assert ms[1..][k - 1] == ms[k];
      DecodedComplete(codec, ms[1..], k - 1);
    }
  }

  // ---------------------------------------------------------------------
  // Reading payload fields
  // ---------------------------------------------------------------------

  /** A property of a parsed payload; `None` is `undefined`. */
  function Field(j: Json, key: string): Option<Json> {
    if j.JObject? && key in j.fields then Some(j.fields[key]) else None
  }

  /** A string property of a parsed payload; `None` when it is absent or null. */
  function StrField(j: Json, key: string): Option<string> {
    match Field(j, key)
    case Some(JString(str)) => Some(str)
    case _ => None
  }

  /** `payload.key ?? fallback`. */
  function StrFieldOr(j: Json, key: string, fallback: string): string {
    match StrField(j, key)
    case Some(str) => str
    case None => fallback
  }

  /** `${toolName}-call-${n}`. */
  function CallId(toolName: string, n: nat): string {
    toolName + "-call-" + ToDecimal(n)
  }

  /** `${toolName}-result-${n}`. */
  function ResultId(toolName: string, n: nat): string {
    toolName + "-result-" + ToDecimal(n)
  }

  /** The `errorText` of a result: absent for no error or null, the text of a string, else its JSON text. */
  function ErrorText(codec: Codec, result: Json): Option<string> {
    match Field(result, "error")
    case None => None
    case Some(JNull) => None
    case Some(JString(str)) => Some(str)
    case Some(e) => Some(codec.stringify(e))
  }

  // ---------------------------------------------------------------------
  // Insertion-ordered maps
  // ---------------------------------------------------------------------

  /** A JavaScript `Map` with string keys: its entries in insertion order. */
  type Entries<V> = seq<(string, V)>

  /** `map.set(k, v)`: a present key keeps its place and takes the new value; a new key goes last. */
  function MapSet<V>(es: Entries<V>, k: string, v: V): (r: Entries<V>)
    ensures |r| == |es| || |r| == |es| + 1
  {
    if es == [] then [(k, v)]
    else if es[0].0 == k then [(k, v)] + es[1..]
    else [es[0]] + MapSet(es[1..], k, v)
  }

  /** `map.get(k)`. */
  function MapGet<V>(es: Entries<V>, k: string): Option<V> {
    if es == [] then None else if es[0].0 == k then Some(es[0].1) else MapGet(es[1..], k)
  }

  function Keys<V>(es: Entries<V>): (ks: seq<string>)
    ensures |ks| == |es|
  {
    if es == [] then [] else [es[0].0] + Keys(es[1..])
  }

  /** `Array.from(map.values())`. */
  function Values<V>(es: Entries<V>): (vs: seq<V>)
    ensures |vs| == |es|
  {
    if es == [] then [] else [es[0].1] + Values(es[1..])
  }

  predicate DistinctKeys<V>(es: Entries<V>) {
    forall i, j :: 0 <= i < j < |es| ==> es[i].0 != es[j].0
  }

  /** After `set`, `get` of that key gives the new value and every other key is unchanged. */
  lemma {:induction false} MapSetGet<V>(es: Entries<V>, k: string, v: V, k': string)
    ensures MapGet(MapSet(es, k, v), k') == if k' == k then Some(v) else MapGet(es, k')
  {
    if es != [] && es[0].0 != k {
      MapSetGet(es[1..], k, v, k');
    }
  }

  /** `set` keeps the key order: a present key stays where it was, a new one is appended. */
  lemma {:induction false} MapSetKeys<V>(es: Entries<V>, k: string, v: V)
    ensures Keys(MapSet(es, k, v)) == if MapGet(es, k).Some? then Keys(es) else Keys(es) + [k]
  {
    if es != [] && es[0].0 != k {
      MapSetKeys(es[1..], k, v);
    }
  }

  /** A key is found exactly when it is among the keys. */
  lemma {:induction false} MapGetKeys<V>(es: Entries<V>, k: string)
    ensures MapGet(es, k).Some? <==> k in Keys(es)
  {
    if es != [] {
      MapGetKeys(es[1..], k);
    }
  }

  /** No key appears twice. */
  predicate UniqueKeys(ks: seq<string>) {
    forall i, j :: 0 <= i < j < |ks| ==> ks[i] != ks[j]
  }

  /** `set` never makes a key appear twice. */
  lemma MapSetUnique<V>(es: Entries<V>, k: string, v: V)
    requires UniqueKeys(Keys(es))
    ensures UniqueKeys(Keys(MapSet(es, k, v)))
  {
    MapSetKeys(es, k, v);
    MapGetKeys(es, k);
  }

  // ---------------------------------------------------------------------
  // Merging calls and results
  // ---------------------------------------------------------------------

  /** The tool map and the number of ids made up so far. */
  datatype Merge = Merge(tools: Entries<Tool>, synthetic: nat)

  /** One iteration of `for (const call of toolCalls)`. */
  function CallStep(st: Merge, call: Json): Merge {
    var toolName := StrFieldOr(call, "toolName", "tool");
    var given := StrField(call, "toolCallId");
    var toolCallId := if given.Some? then given.value else CallId(toolName, st.synthetic);
    var next := if given.Some? then st.synthetic else st.synthetic + 1;
    Merge(MapSet(st.tools, toolCallId, Tool(toolName, toolCallId, InputAvailable, Field(call, "input"), None, None)), next)
  }

  /** The tool a result records, given what the map held for its id. */
  function ResultTool(codec: Codec, prev: Option<Tool>, toolName: string, toolCallId: string, result: Json): Tool {
    var errorText := ErrorText(codec, result);
    Tool(if prev.Some? then prev.value.toolName else toolName,
         toolCallId,
         if errorText.Some? && errorText.value != [] then OutputError else OutputAvailable,
         if prev.Some? then prev.value.input else None,
         Field(result, "output"),
         errorText)
  }

  /** One iteration of `for (const result of toolResults)`. */
  function ResultStep(codec: Codec, st: Merge, result: Json): Merge {
    var toolName := StrFieldOr(result, "toolName", "tool");
    var given := StrField(result, "toolCallId");
    var toolCallId := if given.Some? then given.value else ResultId(toolName, st.synthetic);
    var next := if given.Some? then st.synthetic else st.synthetic + 1;
    var prev := MapGet(st.tools, toolCallId);
    Merge(MapSet(st.tools, toolCallId, ResultTool(codec, prev, toolName, toolCallId, result)), next)
  }

  function CallsFold(calls: seq<Json>): Merge {
    if calls == [] then Merge([], 0)
    else CallStep(CallsFold(calls[..|calls| - 1]), calls[|calls| - 1])
  }

  function ResultsFold(codec: Codec, start: Entries<Tool>, results: seq<Json>): Merge {
    if results == [] then Merge(start, 0)
    else ResultStep(codec, ResultsFold(codec, start, results[..|results| - 1]), results[|results| - 1])
  }

  // ---------------------------------------------------------------------
  // Sources
  // ---------------------------------------------------------------------

  /** One iteration of the source loop; `None` when `new URL(url)` throws. */
  function SourceStep(codec: Codec, es: Entries<Source>, src: Json): Option<Entries<Source>> {
    var url := StrField(src, "url");
    if url.None? || url.value == [] then Some(es)
    else
      var title := StrField(src, "title");
      if title.Some? && title.value != [] then Some(MapSet(es, url.value, Source(title.value, url.value)))
      else match codec.hostname(url.value)
        case None => None
        case Some(host) => Some(MapSet(es, url.value, Source(host, url.value)))
  }

  function SourcesFold(codec: Codec, sources: seq<Json>): Option<Entries<Source>> {
    if sources == [] then Some([])
    else match SourcesFold(codec, sources[..|sources| - 1])
      case None => None
      case Some(es) => SourceStep(codec, es, sources[|sources| - 1])
  }

  // ---------------------------------------------------------------------
  // The whole parse
  // ---------------------------------------------------------------------

  /** What `parseToolAndSourceMarkers` returns; `None` when it throws. */
  function ParseTools(codec: Codec, content: string): Option<ToolData> {
    var calls := Decoded(codec, MatchesFrom(content, 0, CallPrefix));
    var results := Decoded(codec, MatchesFrom(content, 0, ResultPrefix));
    var sources := Decoded(codec, MatchesFrom(content, 0, SourcePrefix));
    var merged := ResultsFold(codec, CallsFold(calls).tools, results).tools;
    match SourcesFold(codec, sources)
    case None => None
    case Some(es) => Some(ToolData(Values(merged), Values(es), CleanText(content)))
  }

  /** The call loop. */
  method MergeCalls(calls: seq<Json>) returns (tools: Entries<Tool>)
    ensures tools == CallsFold(calls).tools
  {
    tools := [];
    var syntheticCallIndex := 0;
    for i := 0 to |calls|
      invariant Merge(tools, syntheticCallIndex) == CallsFold(calls[..i])
    {
      var call := calls[i];
      var toolName := StrFieldOr(call, "toolName", "tool");
      var toolCallId: string;
      var given := StrField(call, "toolCallId");
      if given.Some? {
        toolCallId := given.value;
      } else {
        toolCallId := CallId(toolName, syntheticCallIndex);
        syntheticCallIndex := syntheticCallIndex + 1;
      }
      tools := MapSet(tools, toolCallId, Tool(toolName, toolCallId, InputAvailable, Field(call, "input"), None, None));
      assert calls[..i + 1][..i] == calls[..i];
    }
    assert calls[..|calls|] == calls;
  }

  /** The result loop. */
  method MergeResults(codec: Codec, start: Entries<Tool>, results: seq<Json>) returns (tools: Entries<Tool>)
    ensures tools == ResultsFold(codec, start, results).tools
  {
    tools := start;
    var syntheticResultIndex := 0;
    for i := 0 to |results|
      invariant Merge(tools, syntheticResultIndex) == ResultsFold(codec, start, results[..i])
    {
      var result := results[i];
      var toolName := StrFieldOr(result, "toolName", "tool");
      var toolCallId: string;
      var given := StrField(result, "toolCallId");
      if given.Some? {
        toolCallId := given.value;
      } else {
        toolCallId := ResultId(toolName, syntheticResultIndex);
        syntheticResultIndex := syntheticResultIndex + 1;
      }
      var prev := MapGet(tools, toolCallId);
      tools := MapSet(tools, toolCallId, ResultTool(codec, prev, toolName, toolCallId, result));
      assert results[..i + 1][..i] == results[..i];
    }
    assert results[..|results|] == results;
  }

  /** The source loop; `None` when a hostname lookup throws. */
  method DedupSources(codec: Codec, sources: seq<Json>) returns (r: Option<Entries<Source>>)
    ensures r == SourcesFold(codec, sources)
  {
    var es: Entries<Source> := [];
    for i := 0 to |sources|
      invariant SourcesFold(codec, sources[..i]) == Some(es)
    {
      assert sources[..i + 1][..i] == sources[..i];
      var next := SourceStep(codec, es, sources[i]);
      if next.None? {
        FoldStaysFailed(codec, sources, i + 1);
        return None;
      }
      es := next.value;
    }
    assert sources[..|sources|] == sources;
    return Some(es);
  }

  /** Once a hostname lookup has thrown, the whole loop has. */
  lemma {:induction false} FoldStaysFailed(codec: Codec, sources: seq<Json>, k: nat)
    requires k <= |sources| && SourcesFold(codec, sources[..k]).None?
    ensures SourcesFold(codec, sources).None?
    decreases |sources| - k
  {
    if k < |sources| {
      assert sources[..k + 1][..k] == sources[..k];
      FoldStaysFailed(codec, sources, k + 1);
    } else {
      assert sources[..k] == sources;
    }
  }

  /** `parseToolAndSourceMarkers`. */
  method ParseToolAndSourceMarkers(codec: Codec, content: string) returns (r: Option<ToolData>)
    ensures r == ParseTools(codec, content)
  {
    var toolCalls := CollectPayloads(codec, content, CallPrefix);
    var toolResults := CollectPayloads(codec, content, ResultPrefix);
    var sources := CollectPayloads(codec, content, SourcePrefix);
    var cleanContent := CleanText(content);
    var tools := MergeCalls(toolCalls);
    tools := MergeResults(codec, tools, toolResults);
    var dedup := DedupSources(codec, sources);
    if dedup.None? {
      return None;
    }
    return Some(ToolData(Values(tools), Values(dedup.value), cleanContent));
  }

  // ---------------------------------------------------------------------
  // Properties
  // ---------------------------------------------------------------------

  /**
   * Markers are stripped whether or not their payload decodes: the clean
   * text does not depend on the codec, and a codec that rejects every
   * payload yields no tools and no sources.
   */
  lemma MalformedStillStripped(codec: Codec, content: string)
    ensures ParseTools(codec, content).Some? ==> ParseTools(codec, content).value.cleanContent == CleanText(content)
    ensures (forall e :: codec.decodeUri(e).None?) ==>
      ParseTools(codec, content) == Some(ToolData([], [], CleanText(content)))
  {
    if forall e :: codec.decodeUri(e).None? {
      NothingDecoded(codec, MatchesFrom(content, 0, CallPrefix));
      NothingDecoded(codec, MatchesFrom(content, 0, ResultPrefix));
      NothingDecoded(codec, MatchesFrom(content, 0, SourcePrefix));
    }
  }

  lemma {:induction false} NothingDecoded(codec: Codec, ms: seq<Match>)
    requires forall e :: codec.decodeUri(e).None?
    ensures Decoded(codec, ms) == []
  {
    if ms != [] {
      NothingDecoded(codec, ms[1..]);
    }
  }

  /** The trailing digits of a made-up id are exactly its counter. */
  lemma DigitsAfterDash(prefix: string, n: nat, i: nat)
    requires |prefix| <= i < |prefix + ToDecimal(n)|
    ensures IsDigit((prefix + ToDecimal(n))[i])
  {
  }

  /**
   * A made-up call id never equals a made-up result id: both end in their
   * counter after a '-', and the character two before that '-' is the 'l' of
   * "call" in one and the 't' of "result" in the other.
   */
  lemma SyntheticIdsDistinct(callName: string, k: nat, resultName: string, j: nat)
    ensures CallId(callName, k) != ResultId(resultName, j)
  {
    var dk := ToDecimal(k);
    var dj := ToDecimal(j);
    var c := (callName + "-call-") + dk;
    var r := (resultName + "-result-") + dj;
    if |c| == |r| {
      if |dk| < |dj| {
        var i := |c| - |dk| - 1;
        assert c[i] == '-';
        assert r[i] == dj[|dj| - |dk| - 1];
        assert c[i] != r[i];
      } else if |dj| < |dk| {
        var i := |r| - |dj| - 1;
        assert r[i] == '-';
        assert c[i] == dk[|dk| - |dj| - 1];
        assert c[i] != r[i];
      } else {
        var i := |c| - |dk| - 2;
        assert c[i] == 'l' && r[i] == 't';
      }
    }
  }

  /** Made-up ids for the same tool name differ when their counters do. */
  lemma SyntheticCallIdsInjective(toolName: string, k: nat, j: nat)
    requires k != j
    ensures CallId(toolName, k) != CallId(toolName, j)
  {
    var p := toolName + "-call-";
    if CallId(toolName, k) == CallId(toolName, j) {
      assert ToDecimal(k) == CallId(toolName, k)[|p|..];
      assert ToDecimal(j) == CallId(toolName, j)[|p|..];
      ParseToDecimal(k);
      ParseToDecimal(j);
    }
  }

  /**
   * The state of a result's tool: an error when `errorText` is a non-empty
   * string, otherwise output-available, including for the empty error
   * string; `errorText` is absent exactly when the error is absent or null.
   */
  lemma ResultToolState(codec: Codec, prev: Option<Tool>, toolName: string, toolCallId: string, result: Json)
    ensures var t := ResultTool(codec, prev, toolName, toolCallId, result);
      (t.state == OutputError <==> t.errorText.Some? && t.errorText.value != [])
      && (t.errorText.None? <==> Field(result, "error").None? || Field(result, "error") == Some(JNull))
      && (Field(result, "error") == Some(JString([])) ==> t.state == OutputAvailable && t.errorText == Some([]))
  {
  }

  /**
   * A result whose id is already in the map keeps that tool's name and
   * input, whatever its own name says.
   */
  lemma ResultKeepsCall(codec: Codec, st: Merge, result: Json)
    requires var id := StrField(result, "toolCallId"); id.Some? && MapGet(st.tools, id.value).Some?
    ensures var id := StrField(result, "toolCallId").value;
      var before := MapGet(st.tools, id).value;
      var after := MapGet(ResultStep(codec, st, result).tools, id);
      after.Some? && after.value.toolName == before.toolName && after.value.input == before.input
      && after.value.state != InputAvailable
  {
    var id := StrField(result, "toolCallId").value;
    var toolName := StrFieldOr(result, "toolName", "tool");
    var prev := MapGet(st.tools, id);
    MapSetGet(st.tools, id, ResultTool(codec, prev, toolName, id, result), id);
  }

  /**
   * Calls come first: after all results are merged, a tool a call put in the
   * map still has that call's name and input, wherever its result markers
   * stood in the text.
   */
  lemma {:induction false} CallsSurviveResults(codec: Codec, start: Entries<Tool>, results: seq<Json>, id: string)
    requires MapGet(start, id).Some?
    ensures var after := MapGet(ResultsFold(codec, start, results).tools, id);
      after.Some? && after.value.toolName == MapGet(start, id).value.toolName
      && after.value.input == MapGet(start, id).value.input
  {
    if results != [] {
      var init := results[..|results| - 1];
      CallsSurviveResults(codec, start, init, id);
      var st := ResultsFold(codec, start, init);
      var result := results[|results| - 1];
      var toolName := StrFieldOr(result, "toolName", "tool");
      var given := StrField(result, "toolCallId");
      var key := if given.Some? then given.value else ResultId(toolName, st.synthetic);
      var prev := MapGet(st.tools, key);
      MapSetGet(st.tools, key, ResultTool(codec, prev, toolName, key, result), id);
    }
  }

  /** Map entries hold the id they are filed under. */
  predicate IdsMatch(es: Entries<Tool>) {
    forall i :: 0 <= i < |es| ==> es[i].1.toolCallId == es[i].0
  }

  /** `set` with a tool filed under its own id keeps every entry filed under its id. */
  lemma {:induction false} MapSetIdsMatch(es: Entries<Tool>, k: string, t: Tool)
    requires IdsMatch(es) && t.toolCallId == k
    ensures IdsMatch(MapSet(es, k, t))
  {
    if es != [] && es[0].0 != k {
      MapSetIdsMatch(es[1..], k, t);
      var r := MapSet(es[1..], k, t);
      assert forall i :: 1 <= i < |r| + 1 ==> ([es[0]] + r)[i] == r[i - 1];
    }
  }

  /** The tools come out with distinct ids: one panel per tool-call id. */
  lemma {:induction false} ToolIdsUnique(codec: Codec, calls: seq<Json>, results: seq<Json>)
    ensures UniqueKeys(Keys(ResultsFold(codec, CallsFold(calls).tools, results).tools))
    ensures IdsMatch(ResultsFold(codec, CallsFold(calls).tools, results).tools)
  {
    CallsUnique(calls);
    ResultsUnique(codec, CallsFold(calls).tools, results);
  }

  lemma {:induction false} CallsUnique(calls: seq<Json>)
    ensures UniqueKeys(Keys(CallsFold(calls).tools)) && IdsMatch(CallsFold(calls).tools)
  {
    if calls != [] {
      var init := calls[..|calls| - 1];
      CallsUnique(init);
      var st := CallsFold(init);
      var call := calls[|calls| - 1];
      var toolName := StrFieldOr(call, "toolName", "tool");
      var given := StrField(call, "toolCallId");
      var id := if given.Some? then given.value else CallId(toolName, st.synthetic);
      var t := Tool(toolName, id, InputAvailable, Field(call, "input"), None, None);
      MapSetUnique(st.tools, id, t);
      MapSetIdsMatch(st.tools, id, t);
    }
  }

  lemma {:induction false} ResultsUnique(codec: Codec, start: Entries<Tool>, results: seq<Json>)
    requires UniqueKeys(Keys(start)) && IdsMatch(start)
    ensures UniqueKeys(Keys(ResultsFold(codec, start, results).tools)) && IdsMatch(ResultsFold(codec, start, results).tools)
  {
    if results != [] {
      var init := results[..|results| - 1];
      ResultsUnique(codec, start, init);
      var st := ResultsFold(codec, start, init);
      var result := results[|results| - 1];
      var toolName := StrFieldOr(result, "toolName", "tool");
      var given := StrField(result, "toolCallId");
      var id := if given.Some? then given.value else ResultId(toolName, st.synthetic);
      var t := ResultTool(codec, MapGet(st.tools, id), toolName, id, result);
      MapSetUnique(st.tools, id, t);
      MapSetIdsMatch(st.tools, id, t);
    }
  }

  /** The url of a source record, if it is kept. */
  function SourceUrl(src: Json): Option<string> {
    var url := StrField(src, "url");
    if url.Some? && url.value != [] then url else None
  }

  /**
   * Sources are kept one per url: the last source with a url sets its
   * title, while the url keeps the place where it was first seen; sources
   * without a url change nothing.
   */
  lemma SourceStepEffect(codec: Codec, es: Entries<Source>, src: Json)
    requires SourceStep(codec, es, src).Some?
    ensures var after := SourceStep(codec, es, src).value;
      match SourceUrl(src)
      case None => after == es
      case Some(u) =>
        MapGet(after, u).Some? && MapGet(after, u).value.url == u
        && (StrField(src, "title").Some? && StrField(src, "title").value != [] ==>
              MapGet(after, u).value.title == StrField(src, "title").value)
        && Keys(after) == (if MapGet(es, u).Some? then Keys(es) else Keys(es) + [u])
        && (forall v :: v != u ==> MapGet(after, v) == MapGet(es, v))
  {
    match SourceUrl(src)
    case None =>
    case Some(u) =>
      var after := SourceStep(codec, es, src).value;
      var rec := MapGet(after, u);
      var title := StrField(src, "title");
      var value := if title.Some? && title.value != [] then Source(title.value, u) else Source(codec.hostname(u).value, u);
      assert after == MapSet(es, u, value);
      MapSetGet(es, u, value, u);
      MapSetKeys(es, u, value);
      forall v | v != u
        ensures MapGet(after, v) == MapGet(es, v)
      {
        MapSetGet(es, u, value, v);
      }
  }

  /** Two sources with the same url collapse into one record. */
  lemma SourcesDistinct(codec: Codec, sources: seq<Json>)
    requires SourcesFold(codec, sources).Some?
    ensures UniqueKeys(Keys(SourcesFold(codec, sources).value))
  {
    if sources != [] {
      var init := sources[..|sources| - 1];
      SourcesDistinct(codec, init);
      var es := SourcesFold(codec, init).value;
      SourceStepEffect(codec, es, sources[|sources| - 1]);
      var u := SourceUrl(sources[|sources| - 1]);
      if u.Some? {
        MapGetKeys(es, u.value);
      }
    }
  }
}
