/**
 * The snippet a search result shows (components/chat/search-dialog.tsx,
 * `truncateContent`).
 *
 * A short message, or one where the query does not occur, is cut to the
 * first `maxLength` characters. Otherwise the snippet is a window around the
 * first case-insensitive match: up to 50 characters before it and up to 100
 * after it, with "..." on each side where the window stops short of the
 * message's ends. Lowercasing is taken to be ASCII-only, so lowercase and
 * original positions coincide.
 */
module SearchDialog {
  import opened Wrappers
  import opened JsString

  const DefaultMaxLength: nat := 150
  const Before: nat := 50
  const After: nat := 100

  /** ASCII `toLowerCase` of one character. */
  function LowerChar(c: char): char {
    if 'A' <= c <= 'Z' then (c as int + 32) as char else c
  }

  /** ASCII `toLowerCase`. */
  function Lower(s: string): (r: string)
    ensures |r| == |s| && forall i :: 0 <= i < |s| ==> r[i] == LowerChar(s[i])
  {
    seq(|s|, i requires 0 <= i < |s| => LowerChar(s[i]))
  }

  /** `q` occurs in `s` at `k`. */
  predicate OccursAt(s: string, q: string, k: nat) {
    k + |q| <= |s| && s[k..k + |q|] == q
  }

  /** `s.indexOf(q, from)`, with `None` for -1. */
  function IndexOfFrom(s: string, q: string, from: nat): Option<nat>
    decreases |s| - from
  {
    if from + |q| > |s| then None
    else if s[from..from + |q|] == q then Some(from)
    else IndexOfFrom(s, q, from + 1)
  }

  /** `s.indexOf(q)`, with `None` for -1. */
  function IndexOf(s: string, q: string): Option<nat> {
    IndexOfFrom(s, q, 0)
  }

  /** `indexOf` finds the first occurrence at or after `from`, and `None` means there is none. */
  lemma {:induction false} IndexOfFromSpec(s: string, q: string, from: nat)
    ensures var r := IndexOfFrom(s, q, from);
      (r.Some? ==> from <= r.value && OccursAt(s, q, r.value)
                   && forall k :: from <= k < r.value ==> !OccursAt(s, q, k))
      && (r.None? ==> forall k :: from <= k ==> !OccursAt(s, q, k))
    decreases |s| - from
  {
    if from + |q| <= |s| && s[from..from + |q|] != q {
      IndexOfFromSpec(s, q, from + 1);
    }
  }

  /** `truncateContent`. */
  function TruncateContent(content: string, query: string, maxLength: nat): string {
    Snippet(content, |query|, IndexOf(Lower(content), Lower(query)), maxLength)
  }

  /** The snippet for a query of length `queryLength` first found at `queryIndex`. */
  function Snippet(content: string, queryLength: nat, queryIndex: Option<nat>, maxLength: nat): string {
    if queryIndex.None? || |content| <= maxLength then Ellipsis(content, maxLength)
    else
      var start := if queryIndex.value >= Before then queryIndex.value - Before else 0;
      var end := if |content| <= queryIndex.value + queryLength + After then |content|
                 else queryIndex.value + queryLength + After;
      var prefix := if start > 0 then "..." else "";
      var suffix := if end < |content| then "..." else "";
      prefix + Slice(content, start, end) + suffix
  }

  /** A message no longer than `maxLength` is shown whole, whether or not it matches. */
  lemma ShortShownWhole(content: string, query: string, maxLength: nat)
    requires |content| <= maxLength
    ensures TruncateContent(content, query, maxLength) == content
  {
    EllipsisSpec(content, maxLength);
  }

  /** A long message without a match shows its first `maxLength` characters and "...". */
  lemma NoMatchShowsHead(content: string, query: string, maxLength: nat)
    requires |content| > maxLength
    requires forall k :: !OccursAt(Lower(content), Lower(query), k)
    ensures TruncateContent(content, query, maxLength) == content[..maxLength] + "..."
  {
    IndexOfFromSpec(Lower(content), Lower(query), 0);
    EllipsisSpec(content, maxLength);
  }

  /**
   * A long message with a match shows a window holding the first match
   * whole, at most 50 characters before it and 100 after it, marked with
   * "..." on each side exactly where text was left out; the snippet is at
   * most the query's length plus 156 characters.
   */
  lemma WindowAroundMatch(content: string, query: string, maxLength: nat, k: nat)
    requires |content| > maxLength && OccursAt(Lower(content), Lower(query), k)
    ensures exists q: nat, start: nat, end: nat ::
      q <= k && OccursAt(Lower(content), Lower(query), q)
      && start <= q && q + |query| <= end <= |content| && q - start <= Before && end - (q + |query|) <= After
      && TruncateContent(content, query, maxLength)
         == (if start > 0 then "..." else "") + content[start..end] + (if end < |content| then "..." else "")
    ensures |TruncateContent(content, query, maxLength)| <= |query| + Before + After + 6
  {
    var lc, lq := Lower(content), Lower(query);
    IndexOfFromSpec(lc, lq, 0);
    var q := IndexOf(lc, lq).value;
    assert q <= k && OccursAt(lc, lq, q);
    SnippetWindow(content, |query|, q, maxLength);
  }

  /** The window case of `Snippet`, with its bounds named. */
  lemma SnippetWindow(content: string, queryLength: nat, q: nat, maxLength: nat)
    requires |content| > maxLength && q + queryLength <= |content|
    ensures var start: nat := if q >= Before then q - Before else 0;
      var end: nat := if |content| <= q + queryLength + After then |content| else q + queryLength + After;
      start <= q && q + queryLength <= end <= |content| && q - start <= Before && end - (q + queryLength) <= After
      && Snippet(content, queryLength, Some(q), maxLength)
         == (if start > 0 then "..." else "") + content[start..end] + (if end < |content| then "..." else "")
      && |Snippet(content, queryLength, Some(q), maxLength)| <= queryLength + Before + After + 6
  {
  }

  /** The window shows the match's own characters, which lowercase to the lowercased query. */
  lemma MatchShownInWindow(content: string, query: string, q: nat)
    requires OccursAt(Lower(content), Lower(query), q)
    ensures Lower(content[q..q + |query|]) == Lower(query)
  {
    var m := content[q..q + |query|];
    forall i | 0 <= i < |query| ensures Lower(m)[i] == Lower(query)[i] {
      assert m[i] == content[q + i];
      assert Lower(content)[q..q + |query|][i] == Lower(content)[q + i];
    }
  }

  /** The matching is case-insensitive: changing the case of the query does not change the snippet. */
  lemma CaseInsensitive(content: string, query: string, query': string, maxLength: nat)
    requires Lower(query) == Lower(query')
    ensures TruncateContent(content, query, maxLength) == TruncateContent(content, query', maxLength)
  {
  }
}
