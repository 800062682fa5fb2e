/**
 * Dates are `YYYY-MM-DD` strings.  For such strings the order of the instants they
 * name is the lexicographic order of the text, so the model orders dates by
 * comparing characters, and sorts records by a date key with a stable insertion sort
 * (JavaScript's `Array.prototype.sort` is stable).
 */
module DateOrder {
  /** Lexicographic `a <= b` on strings. */
  predicate StrLe(a: string, b: string) {
    a == [] || (b != [] && (a[0] < b[0] || (a[0] == b[0] && StrLe(a[1..], b[1..]))))
  }

  lemma {:induction false} StrLeReflexive(a: string)
    ensures StrLe(a, a)
  {
    if a != [] {
      StrLeReflexive(a[1..]);
    }
  }

  lemma {:induction false} StrLeTotal(a: string, b: string)
    ensures StrLe(a, b) || StrLe(b, a)
  {
    if a != [] && b != [] && a[0] == b[0] {
      StrLeTotal(a[1..], b[1..]);
    }
  }

  lemma {:induction false} StrLeTransitive(a: string, b: string, c: string)
    requires StrLe(a, b) && StrLe(b, c)
    ensures StrLe(a, c)
  {
    if a != [] && b != [] && c != [] && a[0] == b[0] && b[0] == c[0] {
      StrLeTransitive(a[1..], b[1..], c[1..]);
    }
  }

  lemma {:induction false} StrLeAntisymmetric(a: string, b: string)
    requires StrLe(a, b) && StrLe(b, a)
    ensures a == b
  {
    if a != [] && b != [] {
      StrLeAntisymmetric(a[1..], b[1..]);
      assert a == [a[0]] + a[1..] && b == [b[0]] + b[1..];
    }
  }

  /** `a` may come before `b`: oldest first, or newest first when `newestFirst`. */
  predicate InOrder(a: string, b: string, newestFirst: bool) {
    if newestFirst then StrLe(b, a) else StrLe(a, b)
  }

  lemma InOrderTotal(a: string, b: string, newestFirst: bool)
    ensures InOrder(a, b, newestFirst) || InOrder(b, a, newestFirst)
  {
    StrLeTotal(a, b);
  }

  lemma InOrderTransitive(a: string, b: string, c: string, newestFirst: bool)
    requires InOrder(a, b, newestFirst) && InOrder(b, c, newestFirst)
    ensures InOrder(a, c, newestFirst)
  {
    if newestFirst {
      StrLeTransitive(c, b, a);
    } else {
      StrLeTransitive(a, b, c);
    }
  }

  predicate SortedBy<T>(s: seq<T>, key: T -> string, newestFirst: bool) {
    forall i, j :: 0 <= i < j < |s| ==> InOrder(key(s[i]), key(s[j]), newestFirst)
  }

  /** `s` with `x` placed after every element whose key may precede it, counting from the end. */
  function Insert<T>(s: seq<T>, x: T, key: T -> string, newestFirst: bool): (r: seq<T>)
    ensures multiset(r) == multiset(s) + multiset{x}
    ensures |r| == |s| + 1
  {
    if s == [] || InOrder(key(s[|s| - 1]), key(x), newestFirst) then s + [x]
    else
      assert s == s[..|s| - 1] + [s[|s| - 1]];
      Insert(s[..|s| - 1], x, key, newestFirst) + [s[|s| - 1]]
  }

  /** Inserting into a sorted sequence keeps it sorted. */
  lemma {:induction false} InsertSorted<T>(s: seq<T>, x: T, key: T -> string, newestFirst: bool)
    requires SortedBy(s, key, newestFirst)
    ensures SortedBy(Insert(s, x, key, newestFirst), key, newestFirst)
  {
    var r := Insert(s, x, key, newestFirst);
    if s == [] {
    } else if InOrder(key(s[|s| - 1]), key(x), newestFirst) {
      forall i, j | 0 <= i < j < |r|
        ensures InOrder(key(r[i]), key(r[j]), newestFirst)
      {
        if j == |s| && i < |s| - 1 {
          InOrderTransitive(key(s[i]), key(s[|s| - 1]), key(x), newestFirst);
        }
      }
    } else {
      var init, last := s[..|s| - 1], s[|s| - 1];
      InsertSorted(init, x, key, newestFirst);
      var q := Insert(init, x, key, newestFirst);
      assert r == q + [last];
      InOrderTotal(key(last), key(x), newestFirst);
      forall k | 0 <= k < |q|
        ensures InOrder(key(q[k]), key(last), newestFirst)
      {
        assert q[k] in multiset(q);
        if q[k] != x {
          assert q[k] in multiset(init);
          var m :| 0 <= m < |init| && init[m] == q[k];
          assert s[m] == q[k];
        }
      }
    }
  }

  /** Stable insertion sort by a date key. */
  function SortBy<T>(s: seq<T>, key: T -> string, newestFirst: bool): (r: seq<T>)
    ensures multiset(r) == multiset(s)
    ensures |r| == |s|
  {
    if s == [] then []
    else
      assert s == s[..|s| - 1] + [s[|s| - 1]];
      Insert(SortBy(s[..|s| - 1], key, newestFirst), s[|s| - 1], key, newestFirst)
  }

  /** The sort orders its result and keeps every element with its multiplicity. */
  lemma {:induction false} SortBySorted<T>(s: seq<T>, key: T -> string, newestFirst: bool)
    ensures SortedBy(SortBy(s, key, newestFirst), key, newestFirst)
    ensures multiset(SortBy(s, key, newestFirst)) == multiset(s)
  {
    if s != [] {
      SortBySorted(s[..|s| - 1], key, newestFirst);
      InsertSorted(SortBy(s[..|s| - 1], key, newestFirst), s[|s| - 1], key, newestFirst);
    }
  }

  /** No two elements share a key. */
  predicate DistinctKeys<T>(s: seq<T>, key: T -> string) {
    forall i, j :: 0 <= i < j < |s| ==> key(s[i]) != key(s[j])
  }

  lemma {:induction false} DistinctKeysAtMostOnce<T>(s: seq<T>, key: T -> string, x: T)
    requires DistinctKeys(s, key)
    ensures multiset(s)[x] <= 1
  {
    if s != [] {
      var rest := s[1..];
      assert s == [s[0]] + rest;
      DistinctKeysAtMostOnce(rest, key, x);
    }
  }

  /** Reordering a sequence cannot create two elements with the same key. */
  lemma PermutationKeepsDistinctKeys<T>(a: seq<T>, b: seq<T>, key: T -> string)
    requires multiset(a) == multiset(b) && DistinctKeys(a, key)
    ensures DistinctKeys(b, key)
  {
    forall i, j | 0 <= i < j < |b|
      ensures key(b[i]) != key(b[j])
    {
      if b[i] == b[j] {
        assert b == b[..j] + [b[j]] + b[j + 1..];
        assert b[i] in b[..j];
        assert multiset(b)[b[i]] >= 2;
        DistinctKeysAtMostOnce(a, key, b[i]);
      } else {
        assert b[i] in multiset(a) && b[j] in multiset(a);
        var p :| 0 <= p < |a| && a[p] == b[i];
        var q :| 0 <= q < |a| && a[q] == b[j];
        assert p != q;
        assert key(a[p]) != key(a[q]);
      }
    }
  }
}
