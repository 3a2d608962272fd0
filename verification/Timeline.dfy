/** The activity timeline: a merge of sources that were each cut to the limit. */
module Timeline {
  import opened Basics
  import opened Sorting

  datatype Kind = AuditItem | RunItem | ApprovalItem | UsageItem | DecisionItem | ArtifactItem
  datatype Item = Item(kind: Kind, at: Time, id: Id)

  /** Newest first. */
  predicate Newer(a: Item, b: Item) {
    a.at >= b.at
  }

  /** The merge: the newest items of everything fetched, in a stable sort. */
  function Newest(items: seq<Item>, limit: nat): seq<Item> {
    Take(Sort(items, Newer), limit)
  }

  datatype Sources = Sources(
    audits: seq<Item>, runs: seq<Item>, approvals: seq<Item>, usage: seq<Item>, decisions: seq<Item>, artifacts: seq<Item>)

  // ---------------------------------------------------------------- what "newest" means

  /** `r` is a valid first page of `all`: as many items as fit, newest first, and nothing left out is
      newer than anything in it. Ties may fall either way. */
  predicate IsNewest(all: multiset<Item>, limit: nat, r: seq<Item>) {
    && multiset(r) <= all && |r| == Min(limit, |all|) && Sorted(r, Newer)
    && forall x, y | x in all - multiset(r) && y in r :: x.at <= y.at
  }

  /** Everything the sources hold. */
  function All(s: Sources): multiset<Item> {
    multiset(s.audits) + multiset(s.runs) + multiset(s.approvals) + multiset(s.usage) + multiset(s.decisions) + multiset(s.artifacts)
  }

  lemma NewerIsTotal()
    ensures TotalPreorder(Newer)
  {
  }

  lemma FirstAreNewest(sorted: seq<Item>, n: nat)
    requires Sorted(sorted, Newer) && n <= |sorted|
    ensures forall x, y | x in multiset(sorted) - multiset(sorted[..n]) && y in sorted[..n] :: x.at <= y.at
  {
    var r, rest := sorted[..n], sorted[n..];
    assert sorted == r + rest;
    assert multiset(sorted) - multiset(r) == multiset(rest);
    forall x: Item, y: Item | x in multiset(rest) && y in r ensures x.at <= y.at {
      var i :| 0 <= i < |rest| && rest[i] == x;
      var j :| 0 <= j < |r| && r[j] == y;
      assert Newer(sorted[j], sorted[n + i]);
    }
  }

  lemma NewestIsNewest(items: seq<Item>, limit: nat)
    ensures IsNewest(multiset(items), limit, Newest(items, limit))
  {
    NewerIsTotal();
    SortSorts(items, Newer);
    var sorted := Sort(items, Newer);
    var n := Min(limit, |sorted|);
    assert Newest(items, limit) == sorted[..n];
    assert |multiset(items)| == |sorted|;
    assert sorted == sorted[..n] + sorted[n..];
    FirstAreNewest(sorted, n);
  }

  /** `build_timeline`: collects the items source by source, sorts them and cuts the list. The caller gets
      a newest page of everything the sources hold. */
  method BuildTimeline(s: Sources, limit: nat) returns (timeline: seq<Item>)
    ensures IsNewest(All(s), limit, timeline)
  {
    var items := s.audits;
    items := items + s.runs;
    items := items + s.approvals;
    items := items + s.usage;
    items := items + s.decisions;
    items := items + s.artifacts;
    timeline := Newest(items, limit);
    NewestIsNewest(items, limit);
  }

  /** A part as large as the whole is the whole. */
  lemma FullPart(part: multiset<Item>, whole: multiset<Item>)
    requires part <= whole && |part| >= |whole|
    ensures part == whole
  {
    assert whole == part + (whole - part);
    assert |whole - part| == 0;
  }

  /** If `y` of `r` does not come from the cut source, some item of the cut source is not in `r`. */
  lemma SomeLeftOut(cut: seq<Item>, r: seq<Item>, y: Item)
    requires |r| <= |cut| && y in r && y !in cut
    ensures exists t :: t in cut && multiset(r)[t] < multiset(cut)[t]
  {
    assert y in multiset(r) && y !in multiset(cut);
    if multiset(cut) <= multiset(r) {
      assert |multiset(cut)| == |cut| && |multiset(r)| == |r|;
      FullPart(multiset(cut), multiset(r));
      assert false;
    } else {
      var t :| multiset(cut)[t] > multiset(r)[t];
      assert t in multiset(cut) && t in cut;
    }
  }

  /** An item cut from its source is no newer than anything on the page. */
  lemma CutIsOlder(source: multiset<Item>, cut: seq<Item>, others: multiset<Item>, limit: nat, r: seq<Item>, x: Item, y: Item)
    requires IsNewest(source, limit, cut) && IsNewest(multiset(cut) + others, limit, r)
    requires x in source - multiset(cut) && y in r
    ensures x.at <= y.at
  {
    if y !in cut {
      assert source == multiset(cut) + (source - multiset(cut));
      assert |source| > |cut|;
      SomeLeftOut(cut, r, y);
      var t :| t in cut && multiset(r)[t] < multiset(cut)[t];
      assert t in multiset(cut) + others - multiset(r);
      assert x.at <= t.at <= y.at;
    }
  }

  /** Cutting one source to the limit beforehand does not change what a newest page is. */
  lemma CutFirst(source: multiset<Item>, cut: seq<Item>, others: multiset<Item>, limit: nat, r: seq<Item>)
    requires IsNewest(source, limit, cut) && IsNewest(multiset(cut) + others, limit, r)
    ensures IsNewest(source + others, limit, r)
  {
    var all, fetched := source + others, multiset(cut) + others;
    assert fetched <= all && multiset(r) <= all;
    assert |r| == Min(limit, |all|) by {
      assert |fetched| == |cut| + |others| && |all| == |source| + |others|;
    }
    forall x, y | x in all - multiset(r) && y in r ensures x.at <= y.at {
      if x !in fetched - multiset(r) {
        assert x in source - multiset(cut);
        CutIsOlder(source, cut, others, limit, r, x, y);
      }
    }
  }

  /** The timeline refines the full merge: a newest page of what was fetched, with audit, usage and
      artifact lists that were each cut to the limit newest first, ties in any order, is a newest page of
      the complete lists together with the fetched runs, approvals and decisions. */
  lemma TruncatedMergeIsNewest(full: Sources, cut: Sources, limit: nat, timeline: seq<Item>)
    requires IsNewest(multiset(full.audits), limit, cut.audits)
    requires IsNewest(multiset(full.usage), limit, cut.usage)
    requires IsNewest(multiset(full.artifacts), limit, cut.artifacts)
    requires cut == full.(audits := cut.audits, usage := cut.usage, artifacts := cut.artifacts)
    requires IsNewest(All(cut), limit, timeline)
    ensures IsNewest(All(full), limit, timeline)
  {
    var fixed := multiset(full.runs) + multiset(full.approvals) + multiset(full.decisions);
    assert All(cut) == multiset(cut.audits) + multiset(cut.usage) + multiset(cut.artifacts) + fixed;
    CutThree(multiset(full.audits), cut.audits, multiset(full.usage), cut.usage, multiset(full.artifacts), cut.artifacts,
             fixed, limit, timeline);
    assert All(full) == multiset(full.audits) + multiset(full.usage) + multiset(full.artifacts) + fixed;
  }

  lemma CutThree(A: multiset<Item>, a: seq<Item>, U: multiset<Item>, u: seq<Item>, F: multiset<Item>, f: seq<Item>,
                 fixed: multiset<Item>, limit: nat, r: seq<Item>)
    requires IsNewest(A, limit, a) && IsNewest(U, limit, u) && IsNewest(F, limit, f)
    requires IsNewest(multiset(a) + multiset(u) + multiset(f) + fixed, limit, r)
    ensures IsNewest(A + U + F + fixed, limit, r)
  {
    CutOne(A, a, multiset(u) + multiset(f) + fixed, multiset(a) + multiset(u) + multiset(f) + fixed,
           A + multiset(u) + multiset(f) + fixed, limit, r);
    CutOne(U, u, A + multiset(f) + fixed, A + multiset(u) + multiset(f) + fixed, A + U + multiset(f) + fixed, limit, r);
    CutOne(F, f, A + U + fixed, A + U + multiset(f) + fixed, A + U + F + fixed, limit, r);
  }

  /** The same with the two unions named. */
  lemma CutOne(source: multiset<Item>, cut: seq<Item>, others: multiset<Item>, fetched: multiset<Item>, all: multiset<Item>,
               limit: nat, r: seq<Item>)
    requires IsNewest(source, limit, cut) && IsNewest(fetched, limit, r)
    requires fetched == multiset(cut) + others && all == source + others
    ensures IsNewest(all, limit, r)
  {
    CutFirst(source, cut, others, limit, r);
  }

  // ---------------------------------------------------------------- listed by one time, shown by another

  /** A run is listed by its start and shown by its completion, an approval by its creation and
      resolution, a decision by its creation and last update. */
  datatype Dated = Dated(kind: Kind, id: Id, listed: Time, changed: Option<Time>) {
    function ShownAt(): Time {
      if changed.Some? then changed.value else listed
    }
  }

  function ShowAll(rows: seq<Dated>): (r: seq<Item>)
    ensures |r| == |rows| && forall i | 0 <= i < |rows| :: r[i] == Item(rows[i].kind, rows[i].ShownAt(), rows[i].id)
  {
    seq(|rows|, i requires 0 <= i < |rows| => Item(rows[i].kind, rows[i].ShownAt(), rows[i].id))
  }

  predicate ListedLater(a: Dated, b: Dated) {
    a.listed >= b.listed
  }

  /** A complete listing, newest first: nothing changed before it began. */
  predicate Listing(rows: seq<Dated>) {
    Sorted(rows, ListedLater) && forall i | 0 <= i < |rows| && rows[i].changed.Some? :: rows[i].changed.value >= rows[i].listed
  }

  /** Whatever was cut from the list and has completed did so no later than anything kept is shown at. */
  predicate NothingLateIsCut(rows: seq<Dated>, limit: nat) {
    forall k, d | 0 <= k < limit <= d < |rows| && rows[d].changed.Some? :: rows[d].changed.value <= rows[k].ShownAt()
  }

  /** No item that was cut is newer than one that was kept. */
  predicate CutIsHarmless(full: seq<Item>, n: nat)
    requires n <= |full|
  {
    forall i, j | 0 <= i < n <= j < |full| :: full[j].at <= full[i].at
  }

  lemma LateIff(rows: seq<Dated>, limit: nat)
    requires Listing(rows)
    ensures CutIsHarmless(ShowAll(rows), Min(limit, |rows|)) <==> NothingLateIsCut(rows, limit)
  {
    var full, n := ShowAll(rows), Min(limit, |rows|);
    if NothingLateIsCut(rows, limit) {
      forall i, j | 0 <= i < n <= j < |full| ensures full[j].at <= full[i].at {
        assert ListedLater(rows[i], rows[j]);
      }
    }
    if CutIsHarmless(full, n) {
      forall k, d | 0 <= k < limit <= d < |rows| && rows[d].changed.Some? ensures rows[d].changed.value <= rows[k].ShownAt() {
        assert full[d].at <= full[k].at;
      }
    }
  }

  /** A list that fits is its own newest page. */
  lemma FittingIsWhole(items: seq<Item>, limit: nat)
    requires |items| <= limit
    ensures multiset(Newest(items, limit)) == multiset(items)
  {
    NewestIsNewest(items, limit);
    assert |multiset(items)| == |items| && |multiset(Newest(items, limit))| == |Newest(items, limit)|;
    FullPart(multiset(Newest(items, limit)), multiset(items));
  }

  lemma PartIsNewest(all: multiset<Item>, cut: seq<Item>, dropped: seq<Item>, limit: nat)
    requires all == multiset(cut) + multiset(dropped) && |cut| == Min(limit, |cut| + |dropped|) && Sorted(cut, Newer)
    requires forall x, y | x in dropped && y in cut :: x.at <= y.at
    ensures IsNewest(all, limit, cut)
  {
    assert all - multiset(cut) == multiset(dropped);
    assert |all| == |cut| + |dropped|;
  }

  lemma DroppedAreOlder(full: seq<Item>, n: nat, x: Item, y: Item)
    requires n <= |full| && CutIsHarmless(full, n) && x in full[n..] && y in full[..n]
    ensures x.at <= y.at
  {
    var j :| 0 <= j < |full[n..]| && full[n..][j] == x;
    var i :| 0 <= i < n && full[..n][i] == y;
    assert full[n + j] == x && full[i] == y;
  }

  lemma KeptIsNewest(full: seq<Item>, n: nat, limit: nat)
    requires n == Min(limit, |full|) && CutIsHarmless(full, n)
    ensures IsNewest(multiset(full), limit, Newest(full[..n], limit))
  {
    var kept, dropped := full[..n], full[n..];
    var cut := Newest(kept, limit);
    assert full == kept + dropped;
    FittingIsWhole(kept, limit);
    NewestIsNewest(kept, limit);
    SameRows(cut, kept);
    forall x, y | x in dropped && y in cut ensures x.at <= y.at {
      DroppedAreOlder(full, n, x, y);
    }
    PartIsNewest(multiset(full), cut, dropped, limit);
  }

  lemma HarmlessCut(full: seq<Item>, n: nat, others: seq<Item>, limit: nat)
    requires n == Min(limit, |full|) && CutIsHarmless(full, n)
    ensures IsNewest(multiset(full + others), limit, Newest(full[..n] + others, limit))
  {
    var kept := full[..n];
    KeptIsNewest(full, n, limit);
    FittingIsWhole(kept, limit);
    NewestIsNewest(kept + others, limit);
    CutOne(multiset(full), Newest(kept, limit), multiset(others), multiset(kept + others), multiset(full + others), limit,
           Newest(kept + others, limit));
  }

  lemma HarmfulCut(full: seq<Item>, n: nat, limit: nat)
    requires n == Min(limit, |full|) && IsNewest(multiset(full), limit, Newest(full[..n], limit))
    ensures CutIsHarmless(full, n)
  {
    var kept, dropped := full[..n], full[n..];
    assert full == kept + dropped;
    FittingIsWhole(kept, limit);
    SameRows(Newest(kept, limit), kept);
    assert multiset(full) - multiset(kept) == multiset(dropped);
    forall i, j | 0 <= i < n <= j < |full| ensures full[j].at <= full[i].at {
      assert dropped[j - n] == full[j] && full[j] in multiset(dropped);
      assert kept[i] == full[i] && full[i] in kept;
    }
  }

  /** Runs, approvals and decisions are cut by the time they began but shown by the time they changed.
      Merged with whatever else, the timeline is a newest page if and only if nothing that was cut
      completed after something that was kept. */
  lemma ListCutIff(rows: seq<Dated>, limit: nat)
    requires Listing(rows)
    ensures (forall others: seq<Item> ::
               IsNewest(multiset(ShowAll(rows) + others), limit, Newest(ShowAll(Take(rows, limit)) + others, limit)))
       <==> NothingLateIsCut(rows, limit)
  {
    var full, kept, n := ShowAll(rows), ShowAll(Take(rows, limit)), Min(limit, |rows|);
    assert kept == full[..n];
    LateIff(rows, limit);
    if CutIsHarmless(full, n) {
      forall others: seq<Item> ensures IsNewest(multiset(full + others), limit, Newest(kept + others, limit)) {
        HarmlessCut(full, n, others, limit);
      }
    } else if forall others: seq<Item> :: IsNewest(multiset(full + others), limit, Newest(kept + others, limit)) {
      var none: seq<Item> := [];
      assert full + none == full && kept + none == kept;
      assert IsNewest(multiset(full + none), limit, Newest(kept + none, limit));
      HarmfulCut(full, n, limit);
    }
  }

  lemma SortOne<T>(a: T, le: (T, T) -> bool)
    ensures Sort([a], le) == [a]
  {
    assert [a][..0] == [];
    assert Sort<T>([], le) == [];
  }

  /** It need not be: of two runs, the one that finished last may be missing. */
  lemma LongRunIsMissed()
    ensures
      var long, short := Dated(RunItem, "long", 0, Some(9)), Dated(RunItem, "short", 1, Some(2));
      var rows := [short, long];
      && Listing(rows)
      && Newest(ShowAll(Take(rows, 1)), 1) == ShowAll([short])
      && !IsNewest(multiset(ShowAll(rows)), 1, ShowAll([short]))
  {
    var long, short := Dated(RunItem, "long", 0, Some(9)), Dated(RunItem, "short", 1, Some(2));
    var shown := Item(RunItem, 2, "short");
    assert Take([short, long], 1) == [short];
    assert ShowAll([short]) == [shown];
    SortOne(shown, Newer);
    assert ShowAll([short, long]) == [shown, Item(RunItem, 9, "long")];
    assert Item(RunItem, 9, "long") in multiset(ShowAll([short, long])) - multiset([shown]);
  }
}
