/** Scans and sums over table rows, in the order the rows are stored. */
module Sequences {
  import opened Basics

  /** The first row that satisfies `p`. */
  function Find<T>(s: seq<T>, p: T -> bool): (r: Option<nat>)
    ensures r.Some? ==> r.value < |s| && p(s[r.value]) && forall i | 0 <= i < r.value :: !p(s[i])
    ensures r.None? ==> forall i | 0 <= i < |s| :: !p(s[i])
  {
    FindFrom(s, p, 0)
  }

  function FindFrom<T>(s: seq<T>, p: T -> bool, from: nat): (r: Option<nat>)
    requires from <= |s|
    ensures r.Some? ==> from <= r.value < |s| && p(s[r.value]) && forall i | from <= i < r.value :: !p(s[i])
    ensures r.None? ==> forall i | from <= i < |s| :: !p(s[i])
    decreases |s| - from
  {
    if from == |s| then None
    else if p(s[from]) then Some(from)
    else FindFrom(s, p, from + 1)
  }

  function Filter<T(!new)>(s: seq<T>, p: T -> bool): (r: seq<T>)
    ensures forall x :: x in r <==> x in s && p(x)
  {
    if s == [] then []
    else
      var rest := Filter(s[..|s| - 1], p);
      var last := s[|s| - 1];
      assert s == s[..|s| - 1] + [last];
      if p(last) then rest + [last] else rest
  }

  /** Total weight of the rows. */
  function Sum<T>(s: seq<T>, weight: T -> int): int {
    if s == [] then 0 else Sum(s[..|s| - 1], weight) + weight(s[|s| - 1])
  }

  lemma {:induction false} SumAppend<T>(s: seq<T>, t: seq<T>, weight: T -> int)
    ensures Sum(s + t, weight) == Sum(s, weight) + Sum(t, weight)
  {
    if t == [] {
      assert s + t == s;
    } else {
      SumAppend(s, t[..|t| - 1], weight);
      assert (s + t)[..|s + t| - 1] == s + t[..|t| - 1];
    }
  }

  /** Rows that weigh no more one by one weigh no more together. */
  lemma {:induction false} SumBound<T, U>(s: seq<T>, f: T -> int, t: seq<U>, g: U -> int)
    requires |s| == |t|
    requires forall i | 0 <= i < |s| :: f(s[i]) <= g(t[i])
    ensures Sum(s, f) <= Sum(t, g)
  {
    if s != [] {
      SumBound(s[..|s| - 1], f, t[..|t| - 1], g);
    }
  }

  lemma SumEqual<T, U>(s: seq<T>, f: T -> int, t: seq<U>, g: U -> int)
    requires |s| == |t|
    requires forall i | 0 <= i < |s| :: f(s[i]) == g(t[i])
    ensures Sum(s, f) == Sum(t, g)
  {
    SumBound(s, f, t, g);
    SumBound(t, g, s, f);
  }

  /** Only the row at `i` changed. */
  lemma {:induction false} SumUpdate<T>(s: seq<T>, i: nat, x: T, weight: T -> int)
    requires i < |s|
    ensures Sum(s[i := x], weight) == Sum(s, weight) - weight(s[i]) + weight(x)
  {
    if i == |s| - 1 {
      assert s[i := x][..i] == s[..i];
    } else {
      SumUpdate(s[..|s| - 1], i, x, weight);
      assert s[i := x][..|s| - 1] == s[..|s| - 1][i := x];
    }
  }

  lemma SumOne<T>(x: T, weight: T -> int)
    ensures Sum([x], weight) == weight(x)
  {
    assert [x][..0] == [];
  }

  // ---------------------------------------------------------------- picking rows

  /** The positions, in order, of exactly the rows that satisfy `p`. */
  predicate Picks<T>(s: seq<T>, p: T -> bool, which: seq<nat>) {
    && (forall k | 0 <= k < |which| :: which[k] < |s| && p(s[which[k]]))
    && (forall j, k | 0 <= j < k < |which| :: which[j] < which[k])
    && (forall i {:trigger i in which} | 0 <= i < |s| && p(s[i]) :: i in which)
  }

  /** One more row. */
  lemma PickMore<T>(s: seq<T>, x: T, p: T -> bool, which: seq<nat>)
    requires Picks(s, p, which)
    ensures Picks(s + [x], p, if p(x) then which + [|s|] else which)
  {
    var more := if p(x) then which + [|s|] else which;
    forall i | 0 <= i < |s + [x]| && p((s + [x])[i]) ensures i in more {
      if i < |s| {
        assert i in which;
      } else {
        assert more[|which|] == i;
      }
    }
  }

  /** There is only one way to pick. */
  lemma {:induction false} PicksAgree<T>(s: seq<T>, p: T -> bool, a: seq<nat>, b: seq<nat>, k: nat)
    requires Picks(s, p, a) && Picks(s, p, b) && k < |a|
    ensures k < |b| && a[k] == b[k]
  {
    forall j | 0 <= j < k ensures j < |b| && a[j] == b[j] {
      PicksAgree(s, p, a, b, j);
    }
    assert a[k] in b;
    var j :| 0 <= j < |b| && b[j] == a[k];
    assert b[k] in a;
    var i :| 0 <= i < |a| && a[i] == b[k];
  }
}
