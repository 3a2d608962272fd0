/** Keyset pagination of the audit export, for one company. */
module AuditExport {
  import opened Basics
  import opened Sequences
  import opened Sorting
  import opened TransitionSystems

  datatype Row = Row(id: Id, created: Time)

  datatype Refusal = LimitOutOfRange | CursorInvalid | CursorOutsideWindow

  /** Ascending by creation and then by identifier. */
  predicate Less(a: Row, b: Row) {
    a.created < b.created || (a.created == b.created && StringLess(a.id, b.id))
  }

  predicate AtMost(a: Row, b: Row) {
    a == b || Less(a, b)
  }

  datatype Window = Window(since: Time, until: Time) {
    predicate Holds(r: Row) {
      since <= r.created <= until
    }
  }

  /** The rows of the window after the cursor. */
  function Eligible(table: seq<Row>, w: Window, cursor: Option<Row>): seq<Row> {
    Filter(table, (r: Row) => w.Holds(r) && (cursor.Some? ==> Less(cursor.value, r)))
  }

  /** `list_page`; a blank cursor is no cursor. */
  function ListPage(table: seq<Row>, w: Window, after: Id, limit: int): Result<seq<Row>, Refusal> {
    if !(1 <= limit <= 500) then Err(LimitOutOfRange)
    else if after == "" then Ok(Take(Sort(Eligible(table, w, None), AtMost), limit))
    else
      var found := Find(table, (r: Row) => r.id == after);
      if found.None? then Err(CursorInvalid)
      else
        var cursor := table[found.value];
        if !w.Holds(cursor) then Err(CursorOutsideWindow)
        else Ok(Take(Sort(Eligible(table, w, Some(cursor)), AtMost), limit))
  }

  // ---------------------------------------------------------------- the order

  lemma LessTotal(a: Row, b: Row)
    ensures Less(a, b) || Less(b, a) || a == b
    ensures !(Less(a, b) && Less(b, a)) && !Less(a, a)
  {
    StringTotal(a.id, b.id);
    StringTotal(a.id, a.id);
  }

  lemma LessTransitive(a: Row, b: Row, c: Row)
    requires AtMost(a, b) && AtMost(b, c)
    ensures AtMost(a, c) && (Less(a, b) || Less(b, c) ==> Less(a, c))
  {
    if Less(a, b) && Less(b, c) && a.created == c.created {
      StringTransitive(a.id, b.id, c.id);
    }
  }

  lemma AtMostIsTotal()
    ensures TotalPreorder(AtMost)
  {
    forall x, y ensures AtMost(x, y) || AtMost(y, x) {
      LessTotal(x, y);
    }
    forall x, y, z | AtMost(x, y) && AtMost(y, z) ensures AtMost(x, z) {
      LessTransitive(x, y, z);
    }
  }

  // ---------------------------------------------------------------- one page

  /** Identifiers are unique and not blank. */
  predicate Proper(table: seq<Row>) {
    && (forall i, j | 0 <= i < j < |table| :: table[i].id != table[j].id)
    && (forall i | 0 <= i < |table| :: table[i].id != "")
  }

  predicate Increasing(rows: seq<Row>) {
    forall i, j | 0 <= i < j < |rows| :: Less(rows[i], rows[j])
  }

  predicate After(cursor: Option<Row>, r: Row) {
    cursor.Some? ==> Less(cursor.value, r)
  }

  /** What a page holds: the next rows of the window, in order, up to the limit and no gap. */
  predicate IsPage(table: seq<Row>, w: Window, cursor: Option<Row>, limit: int, page: seq<Row>) {
    && Increasing(page) && |page| <= limit
    && (forall r | r in page :: r in table && w.since <= r.created <= w.until && After(cursor, r))
    && (forall r | r in table && w.since <= r.created <= w.until && After(cursor, r) && r !in page ::
          |page| == limit && forall p | p in page :: Less(p, r))
  }

  /** The order of the rows: by creation, then by the first character in which the identifiers differ. */
  lemma OrderIs(a: Row, b: Row)
    ensures Less(a, b) <==>
      || a.created < b.created
      || (a.created == b.created && exists k: nat :: DiffersAt(a.id, b.id, k) && (k == |a.id| || (k < |b.id| && a.id[k] < b.id[k])))
  {
    LexicographicIff(a.id, b.id);
  }

  lemma {:induction false} FilterDistinct(table: seq<Row>, p: Row -> bool)
    requires forall i, j | 0 <= i < j < |table| :: table[i] != table[j]
    ensures forall r :: multiset(Filter(table, p))[r] <= 1
  {
    if table != [] {
      var n := |table| - 1;
      FilterDistinct(table[..n], p);
      var rest := Filter(table[..n], p);
      assert table[n] !in rest;
      assert table[n] !in multiset(rest);
    }
  }

  lemma DifferentRows(rows: seq<Row>, i: nat, j: nat)
    requires i < j < |rows| && multiset(rows)[rows[i]] <= 1
    ensures rows[i] != rows[j]
  {
    var rest := rows[..i] + rows[i + 1..];
    assert rows == rows[..i] + [rows[i]] + rows[i + 1..];
    assert multiset(rows) == multiset(rest) + multiset{rows[i]};
    assert rest[j - 1] == rows[j] && rows[j] in multiset(rest);
  }

  lemma StrictlySorted(rows: seq<Row>)
    requires Sorted(rows, AtMost) && forall r :: multiset(rows)[r] <= 1
    ensures Increasing(rows)
  {
    forall i, j | 0 <= i < j < |rows| ensures Less(rows[i], rows[j]) {
      DifferentRows(rows, i, j);
    }
  }

  /** The eligible rows, sorted strictly. */
  lemma SortedEligible(table: seq<Row>, w: Window, cursor: Option<Row>)
    requires Proper(table)
    ensures
      var eligible := Eligible(table, w, cursor);
      var sorted := Sort(eligible, AtMost);
      Increasing(sorted) && forall r :: r in sorted <==> r in table && w.Holds(r) && After(cursor, r)
  {
    AtMostIsTotal();
    var eligible := Eligible(table, w, cursor);
    SortSorts(eligible, AtMost);
    FilterDistinct(table, (r: Row) => w.Holds(r) && (cursor.Some? ==> Less(cursor.value, r)));
    StrictlySorted(Sort(eligible, AtMost));
    SameRows(eligible, Sort(eligible, AtMost));
  }

  /** The first rows of an increasing list, and those after them. */
  lemma FirstRows(sorted: seq<Row>, limit: nat)
    requires Increasing(sorted)
    ensures
      var page := Take(sorted, limit);
      && Increasing(page) && |page| <= limit && (forall r | r in page :: r in sorted)
      && (forall r | r in sorted && r !in page :: |page| == limit && forall p | p in page :: Less(p, r))
  {
    var page := Take(sorted, limit);
    assert sorted == page + sorted[|page|..];
    forall r | r in sorted && r !in page ensures |page| == limit && forall p | p in page :: Less(p, r) {
      LaterRow(sorted, |page|, r);
    }
  }

  lemma LaterRow(sorted: seq<Row>, n: nat, r: Row)
    requires Increasing(sorted) && n <= |sorted| && r in sorted && r !in sorted[..n]
    ensures n < |sorted| && forall p | p in sorted[..n] :: Less(p, r)
  {
    assert sorted == sorted[..n] + sorted[n..];
    var k :| n <= k < |sorted| && sorted[k] == r;
    forall p | p in sorted[..n] ensures Less(p, r) {
      var j :| 0 <= j < n && sorted[..n][j] == p;
      assert Less(sorted[j], sorted[k]);
    }
  }

  lemma PageOf(table: seq<Row>, w: Window, cursor: Option<Row>, limit: nat)
    requires Proper(table)
    ensures IsPage(table, w, cursor, limit, Take(Sort(Eligible(table, w, cursor), AtMost), limit))
  {
    SortedEligible(table, w, cursor);
    FirstRows(Sort(Eligible(table, w, cursor), AtMost), limit);
  }

  /** The rows a valid request gets, and exactly when it is refused. */
  lemma PageIff(table: seq<Row>, w: Window, after: Id, limit: int)
    requires Proper(table)
    ensures
      var r := ListPage(table, w, after, limit);
      && (r.Ok? <==> 1 <= limit <= 500 && (after == "" || exists c | c in table :: c.id == after && w.since <= c.created <= w.until))
      && (r.Ok? && after == "" ==> IsPage(table, w, None, limit, r.value))
      && (r.Ok? && after != "" ==>
            forall c | c in table && c.id == after :: IsPage(table, w, Some(c), limit, r.value))
  {
    if 1 <= limit <= 500 {
      if after == "" {
        PageOf(table, w, None, limit);
      } else {
        var found := Find(table, (r: Row) => r.id == after);
        forall c | c in table && c.id == after ensures found.Some? && c == table[found.value] {
        }
        if found.Some? {
          PageOf(table, w, Some(table[found.value]), limit);
        }
      }
    }
  }

  // ---------------------------------------------------------------- a whole export

  /** An export in progress: the table when it began and now, what was returned, the last row of it,
      how many pages had rows, whether a page came short, and whether a request was refused. */
  datatype Session = Session(
    w: Window, limit: int, initial: seq<Row>, table: seq<Row>, out: seq<Row>, cursor: Option<Row>,
    pages: nat, finished: bool, refused: bool)

  datatype Step = Grow | Fetch

  /** Append a page. */
  function Advance(s: Session, page: seq<Row>): Session
    requires page != []
  {
    s.(out := s.out + page, cursor := Some(page[|page| - 1]), pages := s.pages + 1,
       finished := s.finished || |page| < s.limit)
  }

  /** Feed the last identifier back and append the page. */
  function FetchPage(s: Session): Session {
    var r := ListPage(s.table, s.w, if s.cursor.Some? then s.cursor.value.id else "", s.limit);
    if r.Err? then s.(refused := true)
    else if r.value == [] then s.(finished := true)
    else Advance(s, r.value)
  }

  /** Rows are only added between pages. */
  predicate Next(s: Session, step: Step, s': Session) {
    match step
    case Grow => s' == s.(table := s'.table) && Proper(s'.table) && forall r | r in s.table :: r in s'.table
    case Fetch => s' == FetchPage(s)
  }

  predicate Opens(s: Session) {
    && 1 <= s.limit <= 500 && Proper(s.table) && s.initial == s.table
    && s.out == [] && s.cursor.None? && s.pages == 0 && !s.finished && !s.refused
  }

  /** What was returned is strictly increasing, up to the cursor and from the window. */
  predicate InOrder(s: Session) {
    && Increasing(s.out) && s.pages <= |s.out|
    && (forall r | r in s.out :: r in s.table && s.w.Holds(r) && s.cursor.Some? && AtMost(r, s.cursor.value))
    && (s.cursor.Some? ==> s.cursor.value in s.out)
  }

  /** Nothing of the initial window is missing up to the cursor, or at all once a page came short. */
  predicate Complete(s: Session) {
    && (forall r | r in s.initial && s.w.Holds(r) && !After(s.cursor, r) && s.cursor.Some? :: r in s.out)
    && (s.finished ==> forall r | r in s.initial && s.w.Holds(r) :: r in s.out)
  }

  predicate Good(s: Session) {
    && 1 <= s.limit <= 500 && Proper(s.table) && !s.refused && (forall r | r in s.initial :: r in s.table)
    && InOrder(s) && Complete(s)
  }

  /** A cursor taken from a page is never refused, and the page after it is the next one. */
  lemma FetchIsPage(s: Session)
    requires Good(s)
    ensures
      var r := ListPage(s.table, s.w, if s.cursor.Some? then s.cursor.value.id else "", s.limit);
      r.Ok? && IsPage(s.table, s.w, s.cursor, s.limit, r.value)
  {
    PageIff(s.table, s.w, if s.cursor.Some? then s.cursor.value.id else "", s.limit);
    if s.cursor.Some? {
      assert s.cursor.value in s.table && s.cursor.value.id != "";
    }
  }

  lemma AppendPage(out: seq<Row>, cursor: Option<Row>, page: seq<Row>)
    requires Increasing(out) && Increasing(page)
    requires forall r | r in out :: cursor.Some? && AtMost(r, cursor.value)
    requires forall r | r in page :: After(cursor, r)
    ensures Increasing(out + page)
    ensures page != [] ==> forall r | r in out + page :: AtMost(r, page[|page| - 1])
  {
    var all := out + page;
    forall i, j | 0 <= i < j < |all| ensures Less(all[i], all[j]) {
      if i < |out| && |out| <= j {
        assert all[i] in out && all[j] in page;
        LessTransitive(all[i], cursor.value, all[j]);
      }
    }
    if page != [] {
      forall r | r in all ensures AtMost(r, page[|page| - 1]) {
        var k :| 0 <= k < |all| && all[k] == r;
        assert k < |all| - 1 ==> Less(all[k], all[|all| - 1]);
      }
    }
  }

  lemma PageKeepsOrder(s: Session, page: seq<Row>)
    requires InOrder(s) && IsPage(s.table, s.w, s.cursor, s.limit, page) && page != []
    ensures InOrder(Advance(s, page))
  {
    AppendPage(s.out, s.cursor, page);
  }

  lemma PageKeepsComplete(s: Session, page: seq<Row>)
    requires Complete(s) && IsPage(s.table, s.w, s.cursor, s.limit, page) && page != []
    requires forall r | r in s.initial :: r in s.table
    ensures Complete(Advance(s, page))
  {
    var last := page[|page| - 1];
    assert last in page;
    forall r | r in s.initial && s.w.Holds(r) && (|page| < s.limit || !Less(last, r)) ensures r in s.out + page {
    }
  }

  lemma ShortPageCompletes(s: Session)
    requires Complete(s) && IsPage(s.table, s.w, s.cursor, s.limit, []) && s.limit >= 1
    requires forall r | r in s.initial :: r in s.table
    ensures Complete(s.(finished := true))
  {
  }

  lemma FetchKeepsGood(s: Session)
    requires Good(s)
    ensures Good(FetchPage(s))
  {
    FetchIsPage(s);
    var page := ListPage(s.table, s.w, if s.cursor.Some? then s.cursor.value.id else "", s.limit).value;
    if page == [] {
      ShortPageCompletes(s);
    } else {
      PageKeepsOrder(s, page);
      PageKeepsComplete(s, page);
    }
  }

  lemma ReachableGood(states: seq<Session>, steps: seq<Step>, n: nat)
    requires IsRun(Opens, Next, states, steps) && n < |states|
    ensures Good(states[n])
  {
    forall s, step, s' | Good(s) && Next(s, step, s') ensures Good(s') {
      if step.Fetch? {
        FetchKeepsGood(s);
      }
    }
    Invariant(Opens, Next, Good, states, steps, n);
  }

  /** For every window and limit, whatever is inserted between pages: no request is refused; what is
      returned is strictly increasing, so nothing comes twice, and lies in the window; and once a
      page comes short, every row of the window that was there at the start has been returned. */
  lemma ExportComplete(states: seq<Session>, steps: seq<Step>, n: nat)
    requires IsRun(Opens, Next, states, steps) && n < |states|
    ensures !states[n].refused && Increasing(states[n].out)
    ensures forall r | r in states[n].out :: r in states[n].table && states[n].w.Holds(r)
    ensures states[n].finished ==> forall r | r in states[n].initial && states[n].w.Holds(r) :: r in states[n].out
  {
    ReachableGood(states, steps, n);
  }

  /** There are never more pages with rows than rows, so an export of a finite ledger finishes. */
  lemma ExportTerminates(states: seq<Session>, steps: seq<Step>, n: nat)
    requires IsRun(Opens, Next, states, steps) && n < |states|
    ensures states[n].pages <= |states[n].table|
  {
    ReachableGood(states, steps, n);
    DistinctFit(states[n].out, states[n].table);
  }

  lemma DistinctFit(rows: seq<Row>, table: seq<Row>)
    requires Increasing(rows) && forall r | r in rows :: r in table
    ensures |rows| <= |table|
  {
    forall i, j | 0 <= i < j < |rows| ensures rows[i] != rows[j] {
      LessTotal(rows[i], rows[j]);
    }
    forall r ensures multiset(rows)[r] <= multiset(table)[r] {
      if r in multiset(rows) {
        CountOne(rows, r);
        assert r in rows && r in table && r in multiset(table);
      }
    }
    assert multiset(rows) <= multiset(table);
    assert |multiset(rows)| <= |multiset(table)| by {
      assert multiset(table) == multiset(rows) + (multiset(table) - multiset(rows));
    }
  }

  lemma {:induction false} CountOne(rows: seq<Row>, r: Row)
    requires forall i, j | 0 <= i < j < |rows| :: rows[i] != rows[j]
    ensures multiset(rows)[r] <= 1
  {
    if rows != [] {
      var n := |rows| - 1;
      CountOne(rows[..n], r);
      assert rows == rows[..n] + [rows[n]];
      assert rows[n] !in rows[..n] && rows[n] !in multiset(rows[..n]);
    }
  }
}
