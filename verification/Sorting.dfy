/** Sorting by a total preorder, the order of identifiers, and the first rows of a sorted list. */
module Sorting {
  import opened Basics

  ghost predicate TotalPreorder<T(!new)>(le: (T, T) -> bool) {
    && (forall x, y :: le(x, y) || le(y, x))
    && (forall x, y, z :: le(x, y) && le(y, z) ==> le(x, z))
  }

  predicate Sorted<T>(s: seq<T>, le: (T, T) -> bool) {
    forall i, j | 0 <= i < j < |s| :: le(s[i], s[j])
  }

  /** After all that are not larger, so that sorting is stable. */
  function Insert<T>(x: T, s: seq<T>, le: (T, T) -> bool): seq<T> {
    if s == [] || le(s[|s| - 1], x) then s + [x]
    else Insert(x, s[..|s| - 1], le) + [s[|s| - 1]]
  }

  function Sort<T>(s: seq<T>, le: (T, T) -> bool): seq<T> {
    if s == [] then [] else Insert(s[|s| - 1], Sort(s[..|s| - 1], le), le)
  }

  lemma {:induction false} InsertRows<T>(x: T, s: seq<T>, le: (T, T) -> bool)
    ensures multiset(Insert(x, s, le)) == multiset(s) + multiset{x}
  {
    if !(s == [] || le(s[|s| - 1], x)) {
      InsertRows(x, s[..|s| - 1], le);
      assert s == s[..|s| - 1] + [s[|s| - 1]];
    }
  }

  lemma {:induction false} InsertSorted<T(!new)>(x: T, s: seq<T>, le: (T, T) -> bool)
    requires TotalPreorder(le) && Sorted(s, le)
    ensures Sorted(Insert(x, s, le), le)
  {
    if s != [] {
      var n := |s| - 1;
      if le(s[n], x) {
        forall i | 0 <= i < |s| ensures le(s[i], x) {
          assert i < n ==> le(s[i], s[n]);
        }
      } else {
        InsertSorted(x, s[..n], le);
        var rest := Insert(x, s[..n], le);
        forall i | 0 <= i < |rest| ensures le(rest[i], s[n]) {
          InsertedOne(x, s[..n], le, i);
        }
      }
    }
  }

  lemma {:induction false} InsertedOne<T>(x: T, s: seq<T>, le: (T, T) -> bool, i: nat)
    requires i < |Insert(x, s, le)|
    ensures Insert(x, s, le)[i] == x || Insert(x, s, le)[i] in s
  {
    if s != [] && !le(s[|s| - 1], x) && i < |Insert(x, s[..|s| - 1], le)| {
      InsertedOne(x, s[..|s| - 1], le, i);
    }
  }

  /** Sorting keeps the rows and orders them. */
  lemma {:induction false} SortSorts<T(!new)>(s: seq<T>, le: (T, T) -> bool)
    requires TotalPreorder(le)
    ensures multiset(Sort(s, le)) == multiset(s) && Sorted(Sort(s, le), le)
  {
    if s != [] {
      var n := |s| - 1;
      SortSorts(s[..n], le);
      assert s == s[..n] + [s[n]];
      InsertRows(s[n], Sort(s[..n], le), le);
      InsertSorted(s[n], Sort(s[..n], le), le);
    }
  }

  function Take<T>(s: seq<T>, n: nat): seq<T> {
    if n < |s| then s[..n] else s
  }

  lemma SameRows<T>(s: seq<T>, t: seq<T>)
    requires multiset(s) == multiset(t)
    ensures |s| == |t| && forall x :: x in s <==> x in t
  {
    assert |multiset(s)| == |s| && |multiset(t)| == |t|;
    forall x ensures x in s <==> x in t {
      assert x in s <==> x in multiset(s);
      assert x in t <==> x in multiset(t);
    }
  }

  // ---------------------------------------------------------------- identifiers

  lemma StringTotal(a: string, b: string)
    ensures StringLess(a, b) || StringLess(b, a) || a == b
    ensures !(StringLess(a, b) && StringLess(b, a))
    ensures !StringLess(a, a)
  {
    if a != [] && b != [] {
      StringTotal(a[1..], b[1..]);
      assert a == [a[0]] + a[1..] && b == [b[0]] + b[1..];
    }
    if a != [] {
      Irreflexive(a[1..]);
    }
  }

  lemma {:induction false} Irreflexive(a: string)
    ensures !StringLess(a, a)
  {
    if a != [] {
      Irreflexive(a[1..]);
    }
  }

  lemma {:induction false} StringTransitive(a: string, b: string, c: string)
    requires StringLess(a, b) && StringLess(b, c)
    ensures StringLess(a, c)
  {
    if a != [] && a[0] == b[0] && b[0] == c[0] {
      StringTransitive(a[1..], b[1..], c[1..]);
    }
  }

  /** The texts agree up to `k` and no further. */
  predicate DiffersAt(a: string, b: string, k: nat) {
    && k <= |a| && k <= |b| && a[..k] == b[..k] && !(k == |a| && k == |b|)
    && (k < |a| && k < |b| ==> a[k] != b[k])
  }

  /** Identifiers are in the order of the first character they differ in, the shorter of two first. */
  lemma {:induction false} LexicographicIff(a: string, b: string)
    ensures StringLess(a, b) <==> exists k: nat :: DiffersAt(a, b, k) && (k == |a| || (k < |b| && a[k] < b[k]))
  {
    if a == [] || b == [] || a[0] != b[0] {
      if a != b {
        assert DiffersAt(a, b, 0);
      }
    } else {
      LexicographicIff(a[1..], b[1..]);
      if k: nat :| DiffersAt(a[1..], b[1..], k) && (k == |a[1..]| || (k < |b[1..]| && a[1..][k] < b[1..][k])) {
        assert a[..k + 1] == [a[0]] + a[1..][..k] && b[..k + 1] == [b[0]] + b[1..][..k];
        assert DiffersAt(a, b, k + 1);
      }
      if k: nat :| DiffersAt(a, b, k) && (k == |a| || (k < |b| && a[k] < b[k])) {
        assert a[..k][1..] == a[1..][..k - 1] && b[..k][1..] == b[1..][..k - 1];
        assert DiffersAt(a[1..], b[1..], k - 1);
      }
    }
  }
}
