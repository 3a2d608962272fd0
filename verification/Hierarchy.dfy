/** Parent references between template entries: when every chain of parents ends, and the two
    layered loops that create parents before their dependents. */
module Hierarchy {
  import opened Basics

  datatype Node = Node(key: Id, parent: Option<Id>)

  predicate Distinct(nodes: seq<Node>) {
    forall i, j | 0 <= i < j < |nodes| :: nodes[i].key != nodes[j].key
  }

  predicate IsKey(nodes: seq<Node>, key: Id) {
    exists i | 0 <= i < |nodes| :: nodes[i].key == key
  }

  predicate Resolved(nodes: seq<Node>, i: nat)
    requires i < |nodes|
  {
    nodes[i].parent.Some? ==> IsKey(nodes, nodes[i].parent.value)
  }

  /** No dangling parent. */
  predicate Closed(nodes: seq<Node>) {
    forall i {:trigger Resolved(nodes, i)} | 0 <= i < |nodes| :: Resolved(nodes, i)
  }

  /** The entries by key. */
  function Table(nodes: seq<Node>): (m: map<Id, Option<Id>>)
    requires Distinct(nodes)
    ensures forall key {:trigger IsKey(nodes, key)} | key in m :: IsKey(nodes, key)
  {
    map i | 0 <= i < |nodes| :: nodes[i].key := nodes[i].parent
  }

  // ---------------------------------------------------------------- chains of parents

  /** The entry `d` steps above `key`. */
  function Climb(m: map<Id, Option<Id>>, key: Id, d: nat): Option<Id> {
    if d == 0 then Some(key)
    else
      var below := Climb(m, key, d - 1);
      if below.Some? && below.value in m then m[below.value] else None
  }

  ghost predicate Rooted(m: map<Id, Option<Id>>, key: Id) {
    exists d: nat :: Climb(m, key, d).None?
  }

  /** Every chain of parents ends. */
  ghost predicate Acyclic(m: map<Id, Option<Id>>) {
    forall key {:trigger Rooted(m, key)} | key in m :: Rooted(m, key)
  }

  lemma {:induction false} ClimbShift(m: map<Id, Option<Id>>, key: Id, d: nat)
    requires key in m && m[key].Some?
    ensures Climb(m, key, d + 1) == Climb(m, m[key].value, d)
  {
    if d == 0 {
      assert Climb(m, key, 0) == Some(key);
    } else {
      ClimbShift(m, key, d - 1);
    }
  }

  lemma {:induction false} ClimbStops(m: map<Id, Option<Id>>, key: Id, d: nat, e: nat)
    requires d <= e && Climb(m, key, d).None?
    ensures Climb(m, key, e).None?
  {
    if d < e {
      ClimbStops(m, key, d, e - 1);
    }
  }

  /** A chain that comes back to where it was never ends. */
  lemma {:induction false} RevisitNeverEnds(m: map<Id, Option<Id>>, key: Id, i: nat, j: nat, d: nat)
    requires i < j && Climb(m, key, i) == Climb(m, key, j) && Climb(m, key, i).Some?
    ensures Climb(m, key, d).Some?
  {
    if d <= j {
      if Climb(m, key, d).None? {
        ClimbStops(m, key, d, j);
      }
    } else {
      RevisitNeverEnds(m, key, i, j, d - (j - i));
      SamePace(m, key, i, j, d - j);
    }
  }

  lemma {:induction false} SamePace(m: map<Id, Option<Id>>, key: Id, i: nat, j: nat, d: nat)
    requires i <= j && Climb(m, key, i) == Climb(m, key, j)
    ensures Climb(m, key, i + d) == Climb(m, key, j + d)
  {
    if d > 0 {
      SamePace(m, key, i, j, d - 1);
    }
  }

  predicate Revisits(m: map<Id, Option<Id>>, key: Id, i: nat, j: nat) {
    i < j && Climb(m, key, i).Some? && Climb(m, key, i) == Climb(m, key, j)
  }

  /** The validator's walk with a set of seen keys. It finds a cycle exactly when the chain does not
      end. */
  method WalkUp(m: map<Id, Option<Id>>, start: Id) returns (cycle: bool)
    ensures cycle <==> !Rooted(m, start)
    ensures cycle ==> exists i: nat, j: nat :: Revisits(m, start, i, j)
  {
    var seen: set<Id>, cursor := {}, Some(start);
    ghost var d: nat := 0;
    while cursor.Some?
      invariant cursor == Climb(m, start, d)
      invariant forall key | key in seen :: exists i: nat | i < d :: Climb(m, start, i) == Some(key)
      invariant cursor.Some? ==> seen <= m.Keys
      decreases if cursor.Some? then |m.Keys - seen| + 1 else 0
    {
      if cursor.value in seen {
        ghost var i: nat :| i < d && Climb(m, start, i) == cursor;
        forall e: nat ensures Climb(m, start, e).Some? {
          RevisitNeverEnds(m, start, i, d, e);
        }
        assert Revisits(m, start, i, d);
        return true;
      }
      ghost var left := m.Keys - seen;
      seen := seen + {cursor.value};
      if cursor.value in m {
        assert m.Keys - seen == left - {cursor.value};
        cursor := m[cursor.value];
      } else {
        cursor := None;
      }
      d := d + 1;
    }
    return false;
  }

  /** The validator's checks of one hierarchy. */
  method CheckHierarchy(nodes: seq<Node>) returns (ok: bool)
    requires Distinct(nodes)
    ensures ok <==> Closed(nodes) && Acyclic(Table(nodes))
  {
    var m := Table(nodes);
    for i := 0 to |nodes|
      invariant forall k {:trigger Resolved(nodes, k)} | 0 <= k < i :: Resolved(nodes, k)
      invariant forall k {:trigger Rooted(m, nodes[k].key)} | 0 <= k < i :: Rooted(m, nodes[k].key)
    {
      if nodes[i].parent.Some? && nodes[i].parent.value !in m {
        assert !Resolved(nodes, i);
        return false;
      }
      var cycle := WalkUp(m, nodes[i].key);
      if cycle {
        return false;
      }
    }
    assert Acyclic(m) by {
      forall key | key in m ensures Rooted(m, key) {
        assert IsKey(nodes, key);
        var i :| 0 <= i < |nodes| && nodes[i].key == key;
        assert Rooted(m, nodes[i].key);
      }
    }
    return true;
  }

  // ---------------------------------------------------------------- creation order

  /** An index is created or pending, none twice, and no child before its parent. */
  predicate Progress(nodes: seq<Node>, order: seq<nat>, pending: set<nat>) {
    && (forall i | 0 <= i < |nodes| :: i in order <==> i !in pending)
    && (forall k | 0 <= k < |order| :: order[k] < |nodes|)
    && (forall i | i in pending :: i < |nodes|)
    && (forall j, k | 0 <= j < k < |order| :: order[j] != order[k])
    && (forall k {:trigger Placed(nodes, order, k)} | 0 <= k < |order| :: Placed(nodes, order, k))
  }

  /** What is created at `k` has its parent created before. */
  predicate Placed(nodes: seq<Node>, order: seq<nat>, k: nat) {
    k < |order| && order[k] < |nodes| && nodes[order[k]].parent.Some? ==>
      CreatedBefore(nodes, order, k, nodes[order[k]].parent.value)
  }

  predicate CreatedBefore(nodes: seq<Node>, order: seq<nat>, k: nat, key: Id) {
    exists j | 0 <= j < k && j < |order| :: order[j] < |nodes| && nodes[order[j]].key == key
  }

  /** Every entry is created exactly once, and after its parent. */
  predicate ParentsFirst(nodes: seq<Node>, order: seq<nat>) {
    Progress(nodes, order, {})
  }

  lemma CreateNext(nodes: seq<Node>, order: seq<nat>, pending: set<nat>, i: nat)
    requires Progress(nodes, order, pending) && i in pending
    requires nodes[i].parent.Some? ==> CreatedBefore(nodes, order, |order|, nodes[i].parent.value)
    ensures Progress(nodes, order + [i], pending - {i})
  {
    var more := order + [i];
    forall k | 0 <= k < |more| ensures Placed(nodes, more, k) {
      assert k < |order| ==> Placed(nodes, order, k);
      if nodes[more[k]].parent.Some? {
        var key := nodes[more[k]].parent.value;
        var j :| 0 <= j < k && j < |order| && order[j] < |nodes| && nodes[order[j]].key == key;
        assert more[j] == order[j];
      }
    }
    assert forall x :: x in more <==> x in order || x == i;
  }

  /** Where the parent of the `k`-th creation was created. */
  lemma ParentCreated(nodes: seq<Node>, order: seq<nat>, k: nat) returns (j: nat)
    requires ParentsFirst(nodes, order) && k < |order| && nodes[order[k]].parent.Some?
    ensures j < k && order[j] < |nodes| && nodes[order[j]].key == nodes[order[k]].parent.value
  {
    assert Placed(nodes, order, k);
    j :| 0 <= j < k && j < |order| && order[j] < |nodes| && nodes[order[j]].key == nodes[order[k]].parent.value;
  }

  function Elements(s: seq<nat>): (r: set<nat>)
    ensures forall x :: x in r <==> x in s
  {
    if s == [] then {}
    else
      assert s == s[..|s| - 1] + [s[|s| - 1]];
      Elements(s[..|s| - 1]) + {s[|s| - 1]}
  }

  lemma {:induction false} DistinctCount(s: seq<nat>)
    requires forall j, k | 0 <= j < k < |s| :: s[j] != s[k]
    ensures |Elements(s)| == |s|
  {
    if s != [] {
      DistinctCount(s[..|s| - 1]);
    }
  }

  lemma {:induction false} BelowCount(n: nat)
    ensures |Below(n)| == n
  {
    if n > 0 {
      BelowCount(n - 1);
    }
  }

  /** As many creations as entries. */
  lemma OrderIsLong(nodes: seq<Node>, order: seq<nat>)
    requires ParentsFirst(nodes, order)
    ensures |order| == |nodes|
  {
    assert Elements(order) == Below(|nodes|);
    DistinctCount(order);
    BelowCount(|nodes|);
  }

  /** Parents created first means that every chain ends. */
  lemma {:induction false} OrderedIsRooted(nodes: seq<Node>, order: seq<nat>, k: nat)
    requires Distinct(nodes) && ParentsFirst(nodes, order) && k < |order|
    ensures Rooted(Table(nodes), nodes[order[k]].key)
  {
    var m, node := Table(nodes), nodes[order[k]];
    assert Climb(m, node.key, 0) == Some(node.key);
    if node.parent.None? {
      assert Climb(m, node.key, 1).None?;
    } else {
      var j := ParentCreated(nodes, order, k);
      OrderedIsRooted(nodes, order, j);
      var d: nat :| Climb(m, node.parent.value, d).None?;
      ClimbShift(m, node.key, d);
    }
  }

  lemma OrderedIsAcyclic(nodes: seq<Node>, order: seq<nat>)
    requires Distinct(nodes) && ParentsFirst(nodes, order)
    ensures Acyclic(Table(nodes))
  {
    forall key | key in Table(nodes) ensures Rooted(Table(nodes), key) {
      assert IsKey(nodes, key);
      var i :| 0 <= i < |nodes| && nodes[i].key == key;
      assert i in order;
      var k :| 0 <= k < |order| && order[k] == i;
      OrderedIsRooted(nodes, order, k);
    }
  }

  predicate HasKey(nodes: seq<Node>, pending: set<nat>, key: Id) {
    exists p | p in pending :: p < |nodes| && nodes[p].key == key
  }

  /** Entry `i` waits for a pending one. */
  predicate Waits(nodes: seq<Node>, pending: set<nat>, i: nat) {
    i < |nodes| && nodes[i].parent.Some? && HasKey(nodes, pending, nodes[i].parent.value)
  }

  /** A round that creates nothing: all that is pending waits for something pending. */
  predicate Stuck(nodes: seq<Node>, pending: set<nat>) {
    pending != {} && forall i {:trigger Waits(nodes, pending, i)} | i in pending :: Waits(nodes, pending, i)
  }

  lemma {:induction false} StuckNeverEnds(nodes: seq<Node>, pending: set<nat>, i: nat, d: nat) returns (p: nat)
    requires Distinct(nodes) && Stuck(nodes, pending) && i in pending && i < |nodes|
    ensures p in pending && p < |nodes| && Climb(Table(nodes), nodes[i].key, d) == Some(nodes[p].key)
  {
    p := i;
    if d > 0 {
      var q := StuckNeverEnds(nodes, pending, i, d - 1);
      assert Waits(nodes, pending, q);
      p :| p in pending && p < |nodes| && nodes[p].key == nodes[q].parent.value;
      assert Table(nodes)[nodes[q].key] == Some(nodes[p].key);
    }
  }

  lemma StuckIsCyclic(nodes: seq<Node>, pending: set<nat>)
    requires Distinct(nodes) && Stuck(nodes, pending)
    ensures !Acyclic(Table(nodes))
  {
    var i :| i in pending;
    assert Waits(nodes, pending, i);
    forall d: nat ensures Climb(Table(nodes), nodes[i].key, d).Some? {
      var p := StuckNeverEnds(nodes, pending, i, d);
    }
    assert nodes[i].key in Table(nodes) && !Rooted(Table(nodes), nodes[i].key);
  }

  function Below(n: nat): (r: set<nat>)
    ensures forall i: nat :: i in r <==> i < n
  {
    if n == 0 then {} else Below(n - 1) + {n - 1}
  }

  /** The role loop: an entry is ready when its manager has been created. */
  method OrderRoles(nodes: seq<Node>) returns (r: Option<seq<nat>>)
    requires Distinct(nodes) && Closed(nodes)
    ensures r.Some? <==> Acyclic(Table(nodes))
    ensures r.Some? ==> ParentsFirst(nodes, r.value)
  {
    var pending: set<nat> := Below(|nodes|);
    var order: seq<nat> := [];
    while pending != {}
      invariant Progress(nodes, order, pending)
      decreases |pending|
    {
      var created, before := set i | i in order && i < |nodes| :: nodes[i].key, pending;
      for i: nat := 0 to |nodes|
        invariant Progress(nodes, order, pending) && pending <= before
        invariant forall key {:trigger CreatedBefore(nodes, order, |order|, key)} | key in created ::
          CreatedBefore(nodes, order, |order|, key)
        invariant forall j | j in before && j < i && j in pending :: nodes[j].parent.Some? && nodes[j].parent.value !in created
      {
        if i in pending && (nodes[i].parent.None? || nodes[i].parent.value in created) {
          assert nodes[i].parent.Some? ==> CreatedBefore(nodes, order, |order|, nodes[i].parent.value);
          CreateNext(nodes, order, pending, i);
          CreatedStays(nodes, order, i);
          order, pending := order + [i], pending - {i};
        }
      }
      if pending == before {
        assert Stuck(nodes, pending) by {
          forall i | i in pending ensures Waits(nodes, pending, i) {
            assert Resolved(nodes, i);
            var p :| 0 <= p < |nodes| && nodes[p].key == nodes[i].parent.value;
            assert p !in order;
          }
        }
        StuckIsCyclic(nodes, pending);
        return None;
      }
      Fewer(pending, before);
    }
    OrderedIsAcyclic(nodes, order);
    return Some(order);
  }

  lemma Fewer(less: set<nat>, more: set<nat>)
    requires less < more
    ensures |less| < |more|
  {
    var rest := more - less;
    assert more == less + rest;
    assert rest != {};
  }

  lemma CreatedStays(nodes: seq<Node>, order: seq<nat>, i: nat)
    ensures forall key {:trigger CreatedBefore(nodes, order + [i], |order| + 1, key)} |
      CreatedBefore(nodes, order, |order|, key) :: CreatedBefore(nodes, order + [i], |order| + 1, key)
  {
    forall key | CreatedBefore(nodes, order, |order|, key) ensures CreatedBefore(nodes, order + [i], |order| + 1, key) {
      var j :| 0 <= j < |order| && order[j] < |nodes| && nodes[order[j]].key == key;
      assert (order + [i])[j] == order[j];
    }
  }

  method PendingKeys(nodes: seq<Node>, pending: set<nat>) returns (keys: set<Id>)
    requires forall i | i in pending :: i < |nodes|
    ensures forall i | i in pending :: nodes[i].key in keys
    ensures forall key {:trigger HasKey(nodes, pending, key)} | key in keys :: HasKey(nodes, pending, key)
  {
    keys := set i | i in pending :: nodes[i].key;
  }

  /** Every key is created or waiting. */
  ghost predicate AllButCreated(nodes: seq<Node>, order: seq<nat>, waiting: set<Id>) {
    forall key {:trigger CreatedBefore(nodes, order, |order|, key)} | IsKey(nodes, key) && key !in waiting ::
      CreatedBefore(nodes, order, |order|, key)
  }

  lemma NotWaitingIsCreated(nodes: seq<Node>, order: seq<nat>, pending: set<nat>, waiting: set<Id>)
    requires Progress(nodes, order, pending) && forall i | i in pending :: nodes[i].key in waiting
    ensures AllButCreated(nodes, order, waiting)
  {
    forall key | IsKey(nodes, key) && key !in waiting ensures CreatedBefore(nodes, order, |order|, key) {
      var i :| 0 <= i < |nodes| && nodes[i].key == key;
      assert i in order;
      var k :| 0 <= k < |order| && order[k] == i;
    }
  }

  /** The goal loop: an entry is ready when its parent is no longer pending. */
  method OrderGoals(nodes: seq<Node>) returns (r: Option<seq<nat>>)
    requires Distinct(nodes) && Closed(nodes)
    ensures r.Some? <==> Acyclic(Table(nodes))
    ensures r.Some? ==> ParentsFirst(nodes, r.value)
  {
    var pending: set<nat> := Below(|nodes|);
    var order: seq<nat> := [];
    while pending != {}
      invariant Progress(nodes, order, pending)
      decreases |pending|
    {
      var before := pending;
      var waiting := PendingKeys(nodes, pending);
      NotWaitingIsCreated(nodes, order, pending, waiting);
      for i: nat := 0 to |nodes|
        invariant Progress(nodes, order, pending) && pending <= before
        invariant AllButCreated(nodes, order, waiting)
        invariant forall j | j in before && j < i && j in pending :: nodes[j].parent.Some? && nodes[j].parent.value in waiting
      {
        if i in pending && (nodes[i].parent.None? || nodes[i].parent.value !in waiting) {
          assert Resolved(nodes, i);
          assert nodes[i].parent.Some? ==> CreatedBefore(nodes, order, |order|, nodes[i].parent.value);
          CreateNext(nodes, order, pending, i);
          CreatedStays(nodes, order, i);
          order, pending := order + [i], pending - {i};
        }
      }
      if pending == before {
        forall i | i in pending ensures Waits(nodes, pending, i) {
          assert HasKey(nodes, pending, nodes[i].parent.value);
        }
        StuckIsCyclic(nodes, pending);
        return None;
      }
      Fewer(pending, before);
    }
    OrderedIsAcyclic(nodes, order);
    return Some(order);
  }
}
