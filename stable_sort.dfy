/**
 * A stable sort by a rank, as `Array.prototype.sort` performs it with a
 * comparator that subtracts ranks. Stability fixes the result: the elements
 * come in rank order, and those of equal rank keep their input order, so
 * every stable sort with that comparator gives the list this insertion sort
 * gives.
 */
module StableSort {

  /** Puts `x` after every element ranked no later. */
  function InsertBy<T>(x: T, s: seq<T>, rank: T -> nat): (r: seq<T>)
    ensures |r| == |s| + 1
  {
    if s == [] then [x]
    else if rank(s[0]) <= rank(x) then [s[0]] + InsertBy(x, s[1..], rank)
    else [x] + s
  }

  /** Insertion sort, inserting the elements in input order. */
  function SortBy<T>(s: seq<T>, rank: T -> nat): (r: seq<T>)
    ensures |r| == |s|
  {
    if s == [] then [] else InsertBy(s[|s| - 1], SortBy(s[..|s| - 1], rank), rank)
  }

  /** The elements of rank `n`, in order. */
  function OfRank<T>(s: seq<T>, rank: T -> nat, n: nat): seq<T> {
    if s == [] then [] else (if rank(s[0]) == n then [s[0]] else []) + OfRank(s[1..], rank, n)
  }

  predicate SortedBy<T>(s: seq<T>, rank: T -> nat) {
    forall i, j :: 0 <= i < j < |s| ==> rank(s[i]) <= rank(s[j])
  }

  /** Inserting keeps the elements. */
  lemma {:induction false} InsertByPermutes<T>(x: T, s: seq<T>, rank: T -> nat)
    ensures multiset(InsertBy(x, s, rank)) == multiset(s) + multiset{x}
  {
    if s != [] && rank(s[0]) <= rank(x) {
      InsertByPermutes(x, s[1..], rank);
      assert s == [s[0]] + s[1..];
    }
  }

  /** Sorting keeps the elements. */
  lemma {:induction false} SortByPermutes<T>(s: seq<T>, rank: T -> nat)
    ensures multiset(SortBy(s, rank)) == multiset(s)
  {
    if s != [] {
      var init := s[..|s| - 1];
      SortByPermutes(init, rank);
      InsertByPermutes(s[|s| - 1], SortBy(init, rank), rank);
      assert s == init + [s[|s| - 1]];
    }
  }

  /** Taking one rank of a concatenation. */
  lemma {:induction false} OfRankAppend<T>(a: seq<T>, b: seq<T>, rank: T -> nat, n: nat)
    ensures OfRank(a + b, rank, n) == OfRank(a, rank, n) + OfRank(b, rank, n)
  {
    if a == [] {
      assert a + b == b;
    } else {
      var head := if rank(a[0]) == n then [a[0]] else [];
      var ab := a + b;
      assert ab[0] == a[0] && ab[1..] == a[1..] + b;
      OfRankAppend(a[1..], b, rank, n);
      calc {
        OfRank(ab, rank, n);
        head + OfRank(a[1..] + b, rank, n);
        head + (OfRank(a[1..], rank, n) + OfRank(b, rank, n));
        { ConcatAssoc(head, OfRank(a[1..], rank, n), OfRank(b, rank, n)); }
        head + OfRank(a[1..], rank, n) + OfRank(b, rank, n);
      }
    }
  }

  lemma ConcatAssoc<T>(a: seq<T>, b: seq<T>, c: seq<T>)
    ensures a + (b + c) == a + b + c
  {
  }

  /** A list whose elements all rank above `n` has none of rank `n`. */
  lemma {:induction false} OfRankNone<T>(s: seq<T>, rank: T -> nat, n: nat)
    requires forall i :: 0 <= i < |s| ==> rank(s[i]) > n
    ensures OfRank(s, rank, n) == []
  {
    if s != [] {
      OfRankNone(s[1..], rank, n);
    }
  }

  /** Inserting keeps a lower bound on the ranks. */
  lemma {:induction false} InsertByBound<T>(x: T, s: seq<T>, rank: T -> nat, b: nat)
    requires rank(x) >= b && forall i :: 0 <= i < |s| ==> rank(s[i]) >= b
    ensures forall i :: 0 <= i < |InsertBy(x, s, rank)| ==> rank(InsertBy(x, s, rank)[i]) >= b
  {
    if s != [] && rank(s[0]) <= rank(x) {
      InsertByBound(x, s[1..], rank, b);
      var r := InsertBy(x, s[1..], rank);
      assert forall i :: 1 <= i < |r| + 1 ==> ([s[0]] + r)[i] == r[i - 1];
    }
  }

  /** Inserting into a sorted list keeps it sorted. */
  lemma {:induction false} InsertBySorted<T>(x: T, s: seq<T>, rank: T -> nat)
    requires SortedBy(s, rank)
    ensures SortedBy(InsertBy(x, s, rank), rank)
  {
    if s != [] && rank(s[0]) <= rank(x) {
      var r := InsertBy(x, s[1..], rank);
      InsertBySorted(x, s[1..], rank);
      InsertByBound(x, s[1..], rank, rank(s[0]));
      assert forall i :: 1 <= i < |r| + 1 ==> ([s[0]] + r)[i] == r[i - 1];
    }
  }

  /** Inserting into a sorted list puts `x` after every element of its rank. */
  lemma {:induction false} InsertByOfRank<T>(x: T, s: seq<T>, rank: T -> nat, n: nat)
    requires SortedBy(s, rank)
    ensures OfRank(InsertBy(x, s, rank), rank, n) == OfRank(s, rank, n) + OfRank([x], rank, n)
  {
    if s == [] {
      assert OfRank([x], rank, n) == OfRank([x], rank, n) + [];
    } else if rank(s[0]) <= rank(x) {
      InsertByOfRank(x, s[1..], rank, n);
      InsertPastHead(x, s, rank, n);
    } else {
      InsertAtFront(x, s, rank, n);
    }
  }

  /** The step of `InsertByOfRank` where `x` goes past the head. */
  lemma InsertPastHead<T>(x: T, s: seq<T>, rank: T -> nat, n: nat)
    requires s != [] && rank(s[0]) <= rank(x)
    requires OfRank(InsertBy(x, s[1..], rank), rank, n) == OfRank(s[1..], rank, n) + OfRank([x], rank, n)
    ensures OfRank(InsertBy(x, s, rank), rank, n) == OfRank(s, rank, n) + OfRank([x], rank, n)
  {
    var r := InsertBy(x, s[1..], rank);
    var head := OfRank([s[0]], rank, n);
    assert InsertBy(x, s, rank) == [s[0]] + r;
    assert s == [s[0]] + s[1..];
    OfRankAppend([s[0]], r, rank, n);
    OfRankAppend([s[0]], s[1..], rank, n);
    ConcatAssoc(head, OfRank(s[1..], rank, n), OfRank([x], rank, n));
  }

  /** The step of `InsertByOfRank` where `x` goes in front of a sorted list that ranks above it. */
  lemma InsertAtFront<T>(x: T, s: seq<T>, rank: T -> nat, n: nat)
    requires SortedBy(s, rank) && s != [] && rank(s[0]) > rank(x)
    ensures OfRank(InsertBy(x, s, rank), rank, n) == OfRank(s, rank, n) + OfRank([x], rank, n)
  {
    assert InsertBy(x, s, rank) == [x] + s;
    OfRankAppend([x], s, rank, n);
    if n == rank(x) {
      OfRankNone(s, rank, n);
    } else {
      assert OfRank([x], rank, n) == [];
    }
  }

  /**
   * The sort puts the elements in rank order, and keeps the order of the
   * elements of each rank: it is stable.
   */
  lemma {:induction false} SortBySpec<T>(s: seq<T>, rank: T -> nat)
    ensures SortedBy(SortBy(s, rank), rank)
    ensures forall n: nat :: OfRank(SortBy(s, rank), rank, n) == OfRank(s, rank, n)
  {
    if s != [] {
      var init := s[..|s| - 1];
      var x := s[|s| - 1];
      SortBySpec(init, rank);
      InsertBySorted(x, SortBy(init, rank), rank);
      forall n: nat ensures OfRank(SortBy(s, rank), rank, n) == OfRank(s, rank, n) {
        InsertByOfRank(x, SortBy(init, rank), rank, n);
        OfRankAppend(init, [x], rank, n);
        assert s == init + [x];
      }
    }
  }
}
