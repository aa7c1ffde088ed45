/**
 * Grouping a list by a key into a JavaScript object of arrays, as both chat
 * sidebars do: one pass over the list, each element pushed onto the array
 * under its key, the array created the first time the key is seen. The
 * object's keys then come out in order of first appearance.
 */
module Grouping {

  /** The elements with key `k`, in input order. */
  function Members<T>(xs: seq<T>, key: T -> string, k: string): (r: seq<T>)
    ensures |r| <= |xs|
  {
    if xs == [] then []
    else
      var last := xs[|xs| - 1];
      Members(xs[..|xs| - 1], key, k) + (if key(last) == k then [last] else [])
  }

  /** The keys in order of first appearance: `Object.keys` of the filled object. */
  function KeysOf<T>(xs: seq<T>, key: T -> string): seq<string> {
    if xs == [] then []
    else
      var keys := KeysOf(xs[..|xs| - 1], key);
      var k := key(xs[|xs| - 1]);
      if k in keys then keys else keys + [k]
  }

  /** The filled object: each key to its members. */
  function GroupMap<T>(xs: seq<T>, key: T -> string): map<string, seq<T>> {
    map k | k in KeysOf(xs, key) :: Members(xs, key, k)
  }

  /** A key that does not occur has no members. */
  lemma {:induction false} MembersOutside<T>(xs: seq<T>, key: T -> string, k: string)
    requires k !in KeysOf(xs, key)
    ensures Members(xs, key, k) == []
  {
    if xs != [] {
      MembersOutside(xs[..|xs| - 1], key, k);
    }
  }

  /**
   * One element's step of the pass: its key is added to the keys if new, and
   * the element goes at the end of its key's array, created empty if new.
   */
  lemma GroupStep<T>(prefix: seq<T>, x: T, key: T -> string)
    ensures var k := key(x);
      var groups := GroupMap(prefix, key);
      (k in groups <==> k in KeysOf(prefix, key))
      && KeysOf(prefix + [x], key) == (if k in KeysOf(prefix, key) then KeysOf(prefix, key) else KeysOf(prefix, key) + [k])
      && GroupMap(prefix + [x], key) == groups[k := (if k in groups then groups[k] else []) + [x]]
  {
    var s := prefix + [x];
    assert s[..|s| - 1] == prefix;
    var k := key(x);
    var groups := GroupMap(prefix, key);
    if k !in KeysOf(prefix, key) {
      MembersOutside(prefix, key, k);
    }
    var updated := groups[k := (if k in groups then groups[k] else []) + [x]];
    forall j | j in GroupMap(s, key) ensures j in updated && GroupMap(s, key)[j] == updated[j] {
    }
    forall j | j in updated ensures j in GroupMap(s, key) {
    }
  }

  /** A group holds exactly the elements with its key. */
  lemma {:induction false} MembersSpec<T>(xs: seq<T>, key: T -> string, k: string)
    ensures forall x :: x in Members(xs, key, k) <==> x in xs && key(x) == k
  {
    if xs != [] {
      MembersSpec(xs[..|xs| - 1], key, k);
      assert xs == xs[..|xs| - 1] + [xs[|xs| - 1]];
    }
  }

  /** Grouping a concatenation concatenates the groups: input order is kept inside each group. */
  lemma {:induction false} MembersAppend<T>(a: seq<T>, b: seq<T>, key: T -> string, k: string)
    ensures Members(a + b, key, k) == Members(a, key, k) + Members(b, key, k)
    decreases |b|
  {
    if b == [] {
      assert a + b == a;
    } else {
      var init := b[..|b| - 1];
      var last := b[|b| - 1];
      var tail := if key(last) == k then [last] else [];
      assert (a + b)[..|a + b| - 1] == a + init;
      assert (a + b)[|a + b| - 1] == last;
      MembersAppend(a, init, key, k);
      assert Members(a + b, key, k) == Members(a, key, k) + Members(init, key, k) + tail;
    }
  }

  /** The keys are those that occur, each once. */
  lemma {:induction false} KeysOfSpec<T>(xs: seq<T>, key: T -> string)
    ensures forall k :: k in KeysOf(xs, key) <==> exists x :: x in xs && key(x) == k
    ensures forall i, j :: 0 <= i < j < |KeysOf(xs, key)| ==> KeysOf(xs, key)[i] != KeysOf(xs, key)[j]
  {
    if xs != [] {
      var init := xs[..|xs| - 1];
      KeysOfSpec(init, key);
      assert xs == init + [xs[|xs| - 1]];
    }
  }

  /** Every element is in the group of its key and in no other; each group is non-empty. */
  lemma Partition<T>(xs: seq<T>, key: T -> string)
    ensures forall k :: k in GroupMap(xs, key) ==> GroupMap(xs, key)[k] != []
    ensures forall x, k :: x in xs && k in GroupMap(xs, key) ==> (x in GroupMap(xs, key)[k] <==> key(x) == k)
    ensures forall x :: x in xs ==> key(x) in GroupMap(xs, key)
  {
    KeysOfSpec(xs, key);
    forall k | k in GroupMap(xs, key) ensures GroupMap(xs, key)[k] != [] {
      var x :| x in xs && key(x) == k;
      MembersSpec(xs, key, k);
    }
    forall x, k | x in xs && k in GroupMap(xs, key) ensures x in GroupMap(xs, key)[k] <==> key(x) == k {
      MembersSpec(xs, key, k);
    }
  }
}
