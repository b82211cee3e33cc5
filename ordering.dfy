/** The default order of `Array.prototype.sort` and of the document store on
    strings: lexicographic by character, a proper prefix first. Characters
    compare by their Unicode scalar value. */
module Ordering {

  /** `a` sorts strictly before `b`. */
  predicate Below(a: string, b: string) {
    |b| > 0 && (|a| == 0 || a[0] < b[0] || (a[0] == b[0] && Below(a[1..], b[1..])))
  }

  predicate AtMost(a: string, b: string) {
    a == b || Below(a, b)
  }

  lemma {:induction false} BelowIrreflexive(a: string)
    ensures !Below(a, a)
  {
    if |a| > 0 {
      BelowIrreflexive(a[1..]);
    }
  }

  lemma {:induction false} BelowTransitive(a: string, b: string, c: string)
    requires Below(a, b) && Below(b, c)
    ensures Below(a, c)
  {
    if |a| > 0 && a[0] == b[0] && b[0] == c[0] {
      BelowTransitive(a[1..], b[1..], c[1..]);
    }
  }

  /** Any two strings are equal or ordered one way. */
  lemma {:induction false} BelowTotal(a: string, b: string)
    ensures a == b || Below(a, b) || Below(b, a)
  {
    if |a| > 0 && |b| > 0 && a[0] == b[0] {
      BelowTotal(a[1..], b[1..]);
      if a[1..] == b[1..] {
        assert a == [a[0]] + a[1..] && b == [b[0]] + b[1..];
      }
    }
  }

  lemma BelowAsymmetric(a: string, b: string)
    requires Below(a, b)
    ensures !Below(b, a)
  {
    if Below(b, a) {
      BelowTransitive(a, b, a);
      BelowIrreflexive(a);
    }
  }

  /** Neighbours in order: what a sort leaves behind. */
  predicate Sorted(s: seq<string>) {
    forall k :: 0 < k < |s| ==> AtMost(s[k - 1], s[k])
  }

  /** Every element strictly before every later one: sorted and without
      duplicates. */
  predicate StrictlyAscending(s: seq<string>) {
    forall i, j :: 0 <= i < j < |s| ==> Below(s[i], s[j])
  }

  /** No value occurs twice. */
  predicate Distinct(s: seq<string>) {
    forall i, j :: 0 <= i < j < |s| ==> s[i] != s[j]
  }

  /** Distinctness read off the multiset, so that it carries over to any
      permutation. */
  lemma DistinctByCount(s: seq<string>)
    requires forall x :: multiset(s)[x] <= 1
    ensures Distinct(s)
  {
    forall i, j | 0 <= i < j < |s| ensures s[i] != s[j] {
      assert s == s[..i] + [s[i]] + s[i + 1..j] + [s[j]] + s[j + 1..];
      assert multiset(s) == multiset(s[..i]) + multiset{s[i]} + multiset(s[i + 1..j])
                            + multiset{s[j]} + multiset(s[j + 1..]);
      assert multiset(s)[s[i]] >= 1 + multiset{s[j]}[s[i]];
    }
  }

  /** A sorted sequence whose elements are distinct is strictly ascending. */
  lemma {:induction false} SortedDistinctAscending(s: seq<string>)
    requires Sorted(s) && Distinct(s)
    ensures StrictlyAscending(s)
  {
    if |s| > 1 {
      var t := s[1..];
      assert Sorted(t) && Distinct(t);
      SortedDistinctAscending(t);
      assert AtMost(s[0], s[1]) && s[0] != s[1];
      forall j | 1 <= j < |s| ensures Below(s[0], s[j]) {
        if j > 1 {
          assert Below(t[0], t[j - 1]);
          BelowTransitive(s[0], s[1], s[j]);
        }
      }
    }
  }

  /** Two strictly ascending sequences with the same elements are equal: the
      sorted list of a set is unique. */
  lemma {:induction false} AscendingUnique(s: seq<string>, t: seq<string>)
    requires StrictlyAscending(s) && StrictlyAscending(t)
    requires forall x :: x in s <==> x in t
    ensures s == t
  {
    if |s| > 0 {
      assert s[0] in s;
    }
    if |t| > 0 {
      assert t[0] in t;
    }
    if |s| > 0 && |t| > 0 {
      assert s[0] in s && t[0] in t;
      assert s[0] == t[0] by {
        if s[0] != t[0] {
          var i :| 0 <= i < |s| && s[i] == t[0];
          var j :| 0 <= j < |t| && t[j] == s[0];
          assert Below(s[0], t[0]) && Below(t[0], s[0]);
          BelowAsymmetric(s[0], t[0]);
        }
      }
      BelowIrreflexive(s[0]);
      forall x ensures x in s[1..] <==> x in t[1..] {
        if x in s[1..] {
          var i :| 1 <= i < |s| && s[i] == x;
          assert x in s && x != t[0];
          var j :| 0 <= j < |t| && t[j] == x;
          assert j > 0;
          assert x == t[1..][j - 1];
        }
        if x in t[1..] {
          var j :| 1 <= j < |t| && t[j] == x;
          assert x in t && x != s[0];
          var i :| 0 <= i < |s| && s[i] == x;
          assert i > 0;
          assert x == s[1..][i - 1];
        }
      }
      AscendingUnique(s[1..], t[1..]);
      assert s == [s[0]] + s[1..] && t == [t[0]] + t[1..];
    }
  }

  /** Exchanges two neighbouring elements. */
  method SwapDown(a: array<string>, j: int)
    requires 0 < j < a.Length
    modifies a
    ensures a[j - 1] == old(a[j]) && a[j] == old(a[j - 1])
    ensures forall k :: 0 <= k < a.Length && k != j - 1 && k != j ==> a[k] == old(a[k])
    ensures multiset(a[..]) == old(multiset(a[..]))
  {
    a[j - 1], a[j] := a[j], a[j - 1];
  }

  /** One step of insertion sort: moves `a[i]` left past every larger
      neighbour, so that the sorted prefix `a[..i]` grows to `a[..i + 1]`. */
  method InsertAt(a: array<string>, i: int)
    requires 0 <= i < a.Length
    requires forall k :: 0 < k < i ==> AtMost(a[k - 1], a[k])
    modifies a
    ensures forall k :: 0 < k <= i ==> AtMost(a[k - 1], a[k])
    ensures forall k :: i < k < a.Length ==> a[k] == old(a[k])
    ensures multiset(a[..]) == old(multiset(a[..]))
  {
    var j := i;
    while j > 0 && Below(a[j], a[j - 1])
      invariant 0 <= j <= i
      invariant forall k :: 0 < k <= i && k != j && k != j + 1 ==> AtMost(a[k - 1], a[k])
      invariant 0 < j < i ==> AtMost(a[j - 1], a[j + 1])
      invariant j < i ==> Below(a[j], a[j + 1])
      invariant forall k :: i < k < a.Length ==> a[k] == old(a[k])
      invariant multiset(a[..]) == old(multiset(a[..]))
    {
      SwapDown(a, j);
      j := j - 1;
    }
    if j > 0 {
      BelowTotal(a[j - 1], a[j]);
    }
  }

  /** `a.sort()` on an array of strings: insertion sort in place, leaving a
      sorted permutation of the original contents. */
  method SortInPlace(a: array<string>)
    modifies a
    ensures Sorted(a[..])
    ensures multiset(a[..]) == old(multiset(a[..]))
  {
    var i := 0;
    while i < a.Length
      invariant 0 <= i <= a.Length
      invariant forall k :: 0 < k < i ==> AtMost(a[k - 1], a[k])
      invariant multiset(a[..]) == old(multiset(a[..]))
    {
      InsertAt(a, i);
      i := i + 1;
    }
  }
}
