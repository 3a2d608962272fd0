/** Deciding approval requests: an unlocked read followed by a locked re-check. */
module ApprovalGate {
  import opened Basics
  import opened Sequences
  import opened TransitionSystems

  datatype Status = Pending | Approved | Rejected | Expired | Cancelled

  datatype Row = Row(status: Status, resolvedBy: Option<Id>, expires: Option<Time>)

  /** The audited status change. */
  datatype Change = Change(approval: Id, verdict: Status, actor: Id)

  datatype Refusal = NotFound | ApprovalExpired | InvalidTransition | AlreadyResolved

  datatype Desk = Desk(rows: map<Id, Row>, audit: seq<Change>)

  /** What the gate decides on the row it read without a lock. A row that already has the wanted
      status passes here; the locked re-check refuses it. */
  function Consider(seen: Option<Row>, verdict: Status, now: Time): Option<Refusal> {
    if seen.None? then Some(NotFound)
    else if verdict == Approved && seen.value.expires.Some? && seen.value.expires.value <= now then Some(ApprovalExpired)
    else if seen.value.status != verdict && seen.value.status != Pending then Some(InvalidTransition)
    else None
  }

  /** The events drained from the copy: a change only if the copy was pending. */
  function Drained(seen: Row, c: Change): seq<Change> {
    if seen.status == c.verdict then [] else [c]
  }

  /** `resolve_approval` under the row lock, then the audit of the drained events. */
  function Resolve(d: Desk, seen: Row, c: Change): Result<Desk, Refusal> {
    if c.approval !in d.rows then Err(NotFound)
    else if d.rows[c.approval].status != Pending then Err(AlreadyResolved)
    else Ok(Desk(d.rows[c.approval := d.rows[c.approval].(status := c.verdict, resolvedBy := Some(c.actor))],
                 d.audit + Drained(seen, c)))
  }

  /** The gate lets a decision pass exactly if the request is pending or already decided that way, and, to
      approve, unexpired. */
  lemma ConsiderIff(seen: Option<Row>, verdict: Status, now: Time)
    ensures Consider(seen, verdict, now).None? <==>
      && seen.Some? && (seen.value.status == Pending || seen.value.status == verdict)
      && (verdict == Approved ==> seen.value.expires.None? || now < seen.value.expires.value)
    ensures seen.None? ==> Consider(seen, verdict, now) == Some(NotFound)
  {
  }

  /** Under the lock only a pending request is decided; its status and resolver change, and the change is
      audited unless the copy had it already. */
  lemma ResolveIff(d: Desk, seen: Row, c: Change)
    ensures
      var r := Resolve(d, seen, c);
      && (r.Ok? <==> c.approval in d.rows && d.rows[c.approval].status == Pending)
      && (r.Ok? ==>
            r.value == Desk(d.rows[c.approval := Row(c.verdict, Some(c.actor), d.rows[c.approval].expires)],
                            if seen.status != c.verdict then d.audit + [c] else d.audit))
  {
  }

  class Gate {
    var rows: map<Id, Row>
    var audit: seq<Change>

    constructor (initial: map<Id, Row>)
      ensures rows == initial && audit == []
    {
      rows, audit := initial, [];
    }

    /** Approve or reject without interference. */
    method Decide(c: Change, now: Time) returns (refused: Option<Refusal>)
      requires c.verdict == Approved || c.verdict == Rejected
      modifies this
      ensures refused.None? <==>
        c.approval in old(rows) && old(rows)[c.approval].status == Pending
        && (c.verdict == Approved && old(rows)[c.approval].expires.Some? ==> old(rows)[c.approval].expires.value > now)
      ensures refused.None? ==>
        && audit == old(audit) + [c]
        && rows == old(rows)[c.approval := old(rows)[c.approval].(status := c.verdict, resolvedBy := Some(c.actor))]
      ensures refused.Some? ==> rows == old(rows) && audit == old(audit)
    {
      var seen := if c.approval in rows then Some(rows[c.approval]) else None;
      refused := Consider(seen, c.verdict, now);
      if refused.Some? {
        return;
      }
      if rows[c.approval].status != Pending {
        return Some(AlreadyResolved);
      }
      rows := rows[c.approval := rows[c.approval].(status := c.verdict, resolvedBy := Some(c.actor))];
      audit := audit + Drained(seen.value, c);
    }
  }

  // ---------------------------------------------------------------- deciders at once

  /** A decision under way: the row as it was read. */
  datatype Pend = Pend(change: Change, seen: Row)

  datatype State = State(desk: Desk, pends: set<Pend>)

  datatype Step =
    | Request(id: Id, expires: Option<Time>)
    | Look(change: Change, now: Time)
    | Settle(pend: Pend)
    | Lapse(id: Id, verdict: Status)

  predicate Next(s: State, step: Step, s': State) {
    match step
    case Request(id, expires) =>
      id !in s.desk.rows && s' == s.(desk := s.desk.(rows := s.desk.rows[id := Row(Pending, None, expires)]))
    case Look(c, now) =>
      && (c.verdict == Approved || c.verdict == Rejected)
      && c.approval in s.desk.rows && Consider(Some(s.desk.rows[c.approval]), c.verdict, now).None?
      && s' == s.(pends := s.pends + {Pend(c, s.desk.rows[c.approval])})
    case Settle(p) =>
      && p in s.pends
      && var r := Resolve(s.desk, p.seen, p.change); s' == if r.Ok? then s.(desk := r.value) else s
    case Lapse(id, verdict) =>
      && id in s.desk.rows && s.desk.rows[id].status == Pending && (verdict == Expired || verdict == Cancelled)
      && s' == s.(desk := s.desk.(rows := s.desk.rows[id := s.desk.rows[id].(status := verdict)]))
  }

  predicate Opens(s: State) {
    s == State(Desk(map[], []), {})
  }

  predicate Decided(r: Row) {
    r.status == Approved || r.status == Rejected
  }

  function ChangeWeight(id: Id): Change -> int {
    (c: Change) => if c.approval == id then 1 else 0
  }

  function Changes(d: Desk, id: Id): int {
    Sum(d.audit, ChangeWeight(id))
  }

  /** Each request has been audited once if it was decided and never otherwise, and the audit tells
      who decided it and how. */
  ghost predicate Audited(d: Desk) {
    && (forall id: Id :: Changes(d, id) == if id in d.rows && Decided(d.rows[id]) then 1 else 0)
    && (forall i | 0 <= i < |d.audit| ::
          var c := d.audit[i];
          c.approval in d.rows && d.rows[c.approval].status == c.verdict && d.rows[c.approval].resolvedBy == Some(c.actor))
  }

  /** A copy that is not pending tells that the row is no longer pending either. */
  predicate Stale(s: State) {
    forall p | p in s.pends ::
      && (p.change.verdict == Approved || p.change.verdict == Rejected)
      && p.change.approval in s.desk.rows
      && (p.seen.status == p.change.verdict || p.seen.status == Pending)
      && (p.seen.status != Pending ==> s.desk.rows[p.change.approval].status != Pending)
  }

  ghost predicate Inv(s: State) {
    Audited(s.desk) && Stale(s)
  }

  lemma SettleKeeps(s: State, p: Pend)
    requires Inv(s) && p in s.pends && Resolve(s.desk, p.seen, p.change).Ok?
    ensures Inv(s.(desk := Resolve(s.desk, p.seen, p.change).value))
  {
    var c, d' := p.change, Resolve(s.desk, p.seen, p.change).value;
    assert d'.audit == s.desk.audit + [c];
    forall id: Id ensures Changes(d', id) == if id in d'.rows && Decided(d'.rows[id]) then 1 else 0 {
      SumAppend(s.desk.audit, [c], ChangeWeight(id));
      SumOne(c, ChangeWeight(id));
      assert Changes(s.desk, id) == if id in s.desk.rows && Decided(s.desk.rows[id]) then 1 else 0;
    }
    forall i | 0 <= i < |s.desk.audit| ensures s.desk.audit[i].approval != c.approval {
      if s.desk.audit[i].approval == c.approval {
        SomeChange(s.desk.audit, i, c.approval);
      }
    }
  }

  lemma {:induction false} SomeChange(audit: seq<Change>, i: nat, id: Id)
    requires i < |audit| && audit[i].approval == id
    ensures Sum(audit, ChangeWeight(id)) >= 1
  {
    assert audit == audit[..i] + [audit[i]] + audit[i + 1..];
    SumAppend(audit[..i] + [audit[i]], audit[i + 1..], ChangeWeight(id));
    SumAppend(audit[..i], [audit[i]], ChangeWeight(id));
    SumOne(audit[i], ChangeWeight(id));
    NotNegative(audit[..i], id);
    NotNegative(audit[i + 1..], id);
  }

  lemma {:induction false} NotNegative(audit: seq<Change>, id: Id)
    ensures Sum(audit, ChangeWeight(id)) >= 0
  {
    if audit != [] {
      NotNegative(audit[..|audit| - 1], id);
    }
  }

  lemma RowsKeepAudited(d: Desk, d': Desk, id: Id, row: Row)
    requires Audited(d) && d' == d.(rows := d.rows[id := row]) && !Decided(row)
    requires id in d.rows ==> !Decided(d.rows[id])
    ensures Audited(d')
  {
    forall k: Id ensures Changes(d', k) == if k in d'.rows && Decided(d'.rows[k]) then 1 else 0 {
      assert Changes(d, k) == if k in d.rows && Decided(d.rows[k]) then 1 else 0;
    }
    assert Changes(d, id) == 0;
    forall i | 0 <= i < |d.audit| ensures d.audit[i].approval != id {
      if d.audit[i].approval == id {
        SomeChange(d.audit, i, id);
      }
    }
  }

  lemma StepKeeps(s: State, step: Step, s': State)
    requires Inv(s) && Next(s, step, s')
    ensures Inv(s')
  {
    match step
    case Request(id, expires) => RowsKeepAudited(s.desk, s'.desk, id, Row(Pending, None, expires));
    case Look(c, now) =>
    case Settle(p) =>
      if Resolve(s.desk, p.seen, p.change).Ok? {
        SettleKeeps(s, p);
      }
    case Lapse(id, verdict) => RowsKeepAudited(s.desk, s'.desk, id, s'.desk.rows[id]);
  }

  lemma ReachableInv(states: seq<State>, steps: seq<Step>, n: nat)
    requires IsRun(Opens, Next, states, steps) && n < |states|
    ensures Inv(states[n])
  {
    forall s, step, s' | Inv(s) && Next(s, step, s') ensures Inv(s') {
      StepKeeps(s, step, s');
    }
    Invariant(Opens, Next, (s: State) => Inv(s), states, steps, n);
  }

  /** Under any interleaving of approvals and rejections: a request is audited exactly once if it was
      decided and not at all otherwise, and the audit names the deciding actor and verdict. */
  lemma OnlyWinnerAudited(states: seq<State>, steps: seq<Step>, n: nat, id: Id)
    requires IsRun(Opens, Next, states, steps) && n < |states|
    ensures
      var d := states[n].desk;
      && Changes(d, id) == (if id in d.rows && Decided(d.rows[id]) then 1 else 0)
      && forall i | 0 <= i < |d.audit| && d.audit[i].approval == id ::
           id in d.rows && d.audit[i] == Change(id, d.rows[id].status, d.audit[i].actor) && d.rows[id].resolvedBy == Some(d.audit[i].actor)
  {
    ReachableInv(states, steps, n);
  }

  /** Once a request is no longer pending, its row never changes again. */
  predicate WriteOnce(s: State, s': State) {
    forall id | id in s.desk.rows ::
      id in s'.desk.rows && (s.desk.rows[id].status != Pending ==> s'.desk.rows[id] == s.desk.rows[id])
  }

  lemma ResolutionIsFinal(states: seq<State>, steps: seq<Step>, m: nat, n: nat)
    requires IsRun(Opens, Next, states, steps) && m <= n < |states|
    ensures WriteOnce(states[m], states[n])
  {
    forall s, step, s' | Inv(s) && Next(s, step, s') ensures Inv(s') && WriteOnce(s, s') {
      StepKeeps(s, step, s');
    }
    Ordered(Opens, Next, (s: State) => Inv(s), WriteOnce, states, steps, m, n);
  }

  /** A decision under way to approve was taken on an unexpired request. */
  predicate InTime(s: State, p: Pend, now: Time) {
    p.change.verdict == Approved ==> p.seen.expires.None? || now < p.seen.expires.value
  }

  /** No request is approved on a look that came after its expiry. */
  lemma ApprovedOnlyInTime(s: State, c: Change, now: Time, s': State)
    requires Next(s, Look(c, now), s')
    ensures s'.pends == s.pends + {Pend(c, s.desk.rows[c.approval])} && InTime(s', Pend(c, s.desk.rows[c.approval]), now)
    ensures s.desk.rows[c.approval].status == Pending || s.desk.rows[c.approval].status == c.verdict
  {
    ConsiderIff(Some(s.desk.rows[c.approval]), c.verdict, now);
  }
}
