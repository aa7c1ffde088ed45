/**
 * The JavaScript string built-ins the client's parsers lean on, stated over
 * `seq<char>`: `trim` and the `\s` class, `split` on one character, `join`,
 * `startsWith`/`endsWith`, `slice` with its clamping, `indexOf` on one
 * character, and the decimal printing and `parseInt` of non-negative integers.
 */
module JsString {

  /** The characters `String.prototype.trim` removes and the regex class `\s` matches. */
  predicate IsSpace(c: char) {
    c == '\t' || c == '\n' || c == '\U{B}' || c == '\U{C}' || c == '\r' || c == ' '
    || c == '\U{A0}' || c == '\U{1680}' || ('\U{2000}' <= c <= '\U{200A}')
    || c == '\U{2028}' || c == '\U{2029}' || c == '\U{202F}' || c == '\U{205F}'
    || c == '\U{3000}' || c == '\U{FEFF}'
  }

  /** A string that `trim` empties: only whitespace, or nothing at all. */
  predicate IsBlank(s: string) {
    forall i :: 0 <= i < |s| ==> IsSpace(s[i])
  }

  predicate IsDigit(c: char) {
    '0' <= c <= '9'
  }

  predicate AllDigits(s: string) {
    forall i :: 0 <= i < |s| ==> IsDigit(s[i])
  }

  predicate StartsWith(s: string, p: string) {
    |p| <= |s| && s[..|p|] == p
  }

  predicate EndsWith(s: string, p: string) {
    |p| <= |s| && s[|s| - |p|..] == p
  }

  /** Number of leading whitespace characters. */
  function SpacePrefix(s: string): (k: nat)
    ensures k <= |s|
  {
    if s == [] || !IsSpace(s[0]) then 0 else 1 + SpacePrefix(s[1..])
  }

  /** The leading run is all whitespace, and the character after it is not. */
  lemma {:induction false} SpacePrefixSpec(s: string)
    ensures forall i :: 0 <= i < SpacePrefix(s) ==> IsSpace(s[i])
    ensures SpacePrefix(s) < |s| ==> !IsSpace(s[SpacePrefix(s)])
  {
    if s != [] && IsSpace(s[0]) {
      SpacePrefixSpec(s[1..]);
    }
  }

  /** Whitespace followed by a non-space: the leading run is exactly the whitespace. */
  lemma {:induction false} SpacePrefixBlank(w: string, b: string)
    requires IsBlank(w) && (b == [] || !IsSpace(b[0]))
    ensures SpacePrefix(w + b) == |w|
    decreases |w|
  {
    if w != [] {
      assert (w + b)[1..] == w[1..] + b;
      SpacePrefixBlank(w[1..], b);
    } else {
      assert w + b == b;
    }
  }

  /** Number of trailing whitespace characters. */
  function SpaceSuffix(s: string): (k: nat)
    ensures k <= |s|
  {
    if s == [] || !IsSpace(s[|s| - 1]) then 0 else 1 + SpaceSuffix(s[..|s| - 1])
  }

  /** The trailing run is all whitespace, and the character before it is not. */
  lemma {:induction false} SpaceSuffixSpec(s: string)
    ensures forall i :: |s| - SpaceSuffix(s) <= i < |s| ==> IsSpace(s[i])
    ensures SpaceSuffix(s) < |s| ==> !IsSpace(s[|s| - 1 - SpaceSuffix(s)])
  {
    if s != [] && IsSpace(s[|s| - 1]) {
      SpaceSuffixSpec(s[..|s| - 1]);
    }
  }

  /** `s.trim()`. */
  function Trim(s: string): (r: string)
    ensures |r| <= |s|
  {
    var t := s[SpacePrefix(s)..];
    t[..|t| - SpaceSuffix(t)]
  }

  /**
   * The trim is the part of the string between its leading and trailing
   * whitespace: it neither starts nor ends with whitespace, and it is empty
   * exactly when the string is blank.
   */
  lemma TrimSpec(s: string)
    ensures SpacePrefix(s) + |Trim(s)| <= |s|
    ensures Trim(s) == s[SpacePrefix(s)..SpacePrefix(s) + |Trim(s)|]
    ensures Trim(s) == [] || (!IsSpace(Trim(s)[0]) && !IsSpace(Trim(s)[|Trim(s)| - 1]))
    ensures Trim(s) == [] <==> IsBlank(s)
  {
    var n := SpacePrefix(s);
    var t := s[n..];
    SpacePrefixSpec(s);
    SpaceSuffixSpec(t);
    var r := Trim(s);
    if r != [] {
      assert r[0] == s[n];
    }
  }

  /** Trimming twice is trimming once. */
  lemma TrimIdempotent(s: string)
    ensures Trim(Trim(s)) == Trim(s)
  {
    TrimSpec(s);
    TrimNoSpaceEnds(Trim(s));
  }

  /** A string with no whitespace at either end is its own trim. */
  lemma TrimNoSpaceEnds(s: string)
    requires s != [] ==> !IsSpace(s[0]) && !IsSpace(s[|s| - 1])
    ensures Trim(s) == s
  {
    if s != [] {
      assert SpacePrefix(s) == 0;
      assert SpaceSuffix(s) == 0;
    }
  }

  /** `s.slice(a, b)` for non-negative `a` and `b`: both clamp to the length and a reversed range is empty. */
  function Slice(s: string, a: nat, b: nat): (r: string)
    ensures a <= b <= |s| ==> r == s[a..b]
    ensures b <= a || |s| <= a ==> r == []
    ensures |r| <= |s|
  {
    var lo := if a < |s| then a else |s|;
    var hi := if b < |s| then b else |s|;
    if lo < hi then s[lo..hi] else []
  }

  /** `s.slice(0, n) + (s.length > n ? "..." : "")`: the first `n` characters, marked when something was cut. */
  function Ellipsis(s: string, n: nat): string {
    Slice(s, 0, n) + (if |s| > n then "..." else "")
  }

  /** A string that fits is kept whole; a longer one keeps exactly its first `n` characters and gains "...". */
  lemma EllipsisSpec(s: string, n: nat)
    ensures |s| <= n ==> Ellipsis(s, n) == s
    ensures |s| > n ==> Ellipsis(s, n) == s[..n] + "..." && |Ellipsis(s, n)| == n + 3
    ensures |Ellipsis(s, n)| <= n + 3
  {
  }

  /** `s.slice(a)` for non-negative `a`. */
  function SliceFrom(s: string, a: nat): (r: string)
    ensures a <= |s| ==> r == s[a..]
    ensures |s| <= a ==> r == []
  {
    if a < |s| then s[a..] else []
  }

  /** Position of the first `c` in `s`, or `|s|` when there is none. */
  function Find(s: string, c: char): (k: nat)
    ensures k <= |s|
  {
    if s == [] then 0 else if s[0] == c then 0 else 1 + Find(s[1..], c)
  }

  /** `Find` stops at the first occurrence, and only there. */
  lemma {:induction false} FindSpec(s: string, c: char)
    ensures forall i :: 0 <= i < Find(s, c) ==> s[i] != c
    ensures Find(s, c) < |s| ==> s[Find(s, c)] == c
  {
    if s != [] && s[0] != c {
      FindSpec(s[1..], c);
    }
  }

  /** `s.includes(c)` for a one-character argument. */
  predicate Includes(s: string, c: char) {
    Find(s, c) < |s|
  }

  /** `includes` holds exactly when the character occurs somewhere in the string. */
  lemma IncludesIff(s: string, c: char)
    ensures Includes(s, c) <==> c in s
  {
    FindSpec(s, c);
    if c in s {
      var k :| 0 <= k < |s| && s[k] == c;
      assert Find(s, c) <= k;
    }
  }

  /** `s.split(sep)` for a one-character separator: the pieces between separators, at least one. */
  function Split(s: string, sep: char): (parts: seq<string>)
    ensures |parts| >= 1
    decreases |s|
  {
    var k := Find(s, sep);
    if k == |s| then [s] else [s[..k]] + Split(s[k + 1..], sep)
  }

  /** No piece of a split holds the separator. */
  lemma {:induction false} SplitNoSeparator(s: string, sep: char)
    ensures forall k :: 0 <= k < |Split(s, sep)| ==> !Includes(Split(s, sep)[k], sep)
    decreases |s|
  {
    var k := Find(s, sep);
    FindPrefixExcludes(s, sep);
    if k < |s| {
      SplitNoSeparator(s[k + 1..], sep);
    }
  }

  /** A slice of a string without `c` has no `c` either. */
  lemma ExcludesSlice(s: string, c: char, a: nat, b: nat)
    requires a <= b <= |s| && !Includes(s, c)
    ensures !Includes(s[a..b], c)
  {
    var t := s[a..b];
    FindSpec(s, c);
    FindSpec(t, c);
    assert forall i :: 0 <= i < |t| ==> t[i] == s[a + i];
  }

  /** Trimming a string without `c` leaves a string without `c`. */
  lemma TrimExcludes(s: string, c: char)
    requires !Includes(s, c)
    ensures !Includes(Trim(s), c)
  {
    TrimSpec(s);
    ExcludesSlice(s, c, SpacePrefix(s), SpacePrefix(s) + |Trim(s)|);
  }

  /** `parts.join(sep)`. */
  function Join(parts: seq<string>, sep: string): string
  {
    if parts == [] then []
    else if |parts| == 1 then parts[0]
    else parts[0] + sep + Join(parts[1..], sep)
  }

  /** Joining the pieces of a split with the separator gives back the string. */
  lemma {:induction false} JoinSplit(s: string, sep: char)
    ensures Join(Split(s, sep), [sep]) == s
    decreases |s|
  {
    var k := Find(s, sep);
    if k < |s| {
      FindSpec(s, sep);
      var rest := s[k + 1..];
      var ps := Split(rest, sep);
      JoinSplit(rest, sep);
      var parts := [s[..k]] + ps;
      assert Split(s, sep) == parts;
      assert parts[1..] == ps;
      assert Join(parts, [sep]) == s[..k] + [sep] + rest;
      assert s == s[..k] + [sep] + rest;
    }
  }

  /** Splitting a join of separator-free pieces gives back the pieces. */
  lemma {:induction false} SplitJoin(parts: seq<string>, sep: char)
    requires |parts| >= 1
    requires forall k :: 0 <= k < |parts| ==> !Includes(parts[k], sep)
    ensures Split(Join(parts, [sep]), sep) == parts
  {
    var s := Join(parts, [sep]);
    if |parts| > 1 {
      var tail := Join(parts[1..], [sep]);
      assert s == parts[0] + [sep] + tail;
      FindAfterPrefix(parts[0], tail, sep);
      assert s[..|parts[0]|] == parts[0];
      assert s[|parts[0]| + 1..] == tail;
      SplitJoin(parts[1..], sep);
      assert parts == [parts[0]] + parts[1..];
    }
  }

  /** The first `sep` after a prefix without one is the one right after the prefix. */
  lemma {:induction false} FindAfterPrefix(p: string, tail: string, sep: char)
    requires !Includes(p, sep)
    ensures Find(p + [sep] + tail, sep) == |p|
    decreases |p|
  {
    if p != [] {
      assert (p + [sep] + tail)[1..] == p[1..] + [sep] + tail;
      FindAfterPrefix(p[1..], tail, sep);
    }
  }

  /** The text before the first `c` holds no `c`. */
  lemma FindPrefixExcludes(s: string, c: char)
    ensures !Includes(s[..Find(s, c)], c)
  {
    var k := Find(s, c);
    FindSpec(s, c);
    FindSpec(s[..k], c);
    assert forall i :: 0 <= i < k ==> s[..k][i] == s[i];
  }


  /** Decimal value of a digit string, as `parseInt` reads it. */
  function ParseDecimal(ds: string): nat
  {
    if ds == [] then 0
    else 10 * ParseDecimal(ds[..|ds| - 1]) + DigitValue(ds[|ds| - 1])
  }

  /** Value of a decimal digit; the parsers only read runs of digits, so other characters never count. */
  function DigitValue(c: char): nat {
    if IsDigit(c) then c as int - '0' as int else 0
  }

  function DigitChar(d: nat): (c: char)
    requires d < 10
    ensures IsDigit(c) && c as int - '0' as int == d
  {
    ('0' as int + d) as char
  }

  /** The decimal text of `n`, as a template literal prints a non-negative integer. */
  function ToDecimal(n: nat): (ds: string)
    ensures 1 <= |ds| && AllDigits(ds)
    ensures |ds| > 1 ==> ds[0] != '0'
  {
    if n < 10 then [DigitChar(n)] else ToDecimal(n / 10) + [DigitChar(n % 10)]
  }

  /** Reading back what was printed gives the number. */
  lemma {:induction false} ParseToDecimal(n: nat)
    ensures ParseDecimal(ToDecimal(n)) == n
  {
    if n >= 10 {
      ParseToDecimal(n / 10);
      var ds := ToDecimal(n);
      assert ds[..|ds| - 1] == ToDecimal(n / 10);
    }
  }

  function Pow10(k: nat): (p: nat)
    ensures p >= 1
  {
    if k == 0 then 1 else 10 * Pow10(k - 1)
  }

  /** A digit string of length k is below 10^k, and at least 10^(k-1) when it has no leading zero. */
  lemma {:induction false} ParseDecimalRange(ds: string)
    requires AllDigits(ds) && ds != []
    ensures ParseDecimal(ds) < Pow10(|ds|)
    ensures ds[0] != '0' ==> ParseDecimal(ds) >= Pow10(|ds| - 1)
  {
    var init := ds[..|ds| - 1];
    if init != [] {
      ParseDecimalRange(init);
      assert init[0] == ds[0];
    }
  }

  /** Printing what was read gives back the digits, provided they have no leading zero. */
  lemma {:induction false} ToDecimalParse(ds: string)
    requires AllDigits(ds) && ds != []
    requires |ds| > 1 ==> ds[0] != '0'
    ensures ToDecimal(ParseDecimal(ds)) == ds
  {
    var n := ParseDecimal(ds);
    var init := ds[..|ds| - 1];
    var d := ds[|ds| - 1] as int - '0' as int;
    if |ds| == 1 {
      assert n == d;
      assert [DigitChar(n)] == ds;
    } else {
      assert init[0] == ds[0];
      ParseDecimalRange(init);
      assert n >= 10;
      assert n / 10 == ParseDecimal(init) && n % 10 == d;
      ToDecimalParse(init);
      assert ds == init + [ds[|ds| - 1]];
    }
  }
}
