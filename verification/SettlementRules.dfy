/** What settling, marking uncertain, recovering and controlling an execution demand and write, field by
    field and without the functions that compute it. */
module SettlementRules {
  import opened Basics
  import opened Sequences
  import opened ExecutionPolicy
  import opened ExecutionLedger

  // ---------------------------------------------------------------- charges

  /** The reservations of an execution. */
  function Of(execution: Id): Reservation -> bool {
    (r: Reservation) => r.execution == execution
  }

  /** The usage row charges the execution at this cost to this budget. */
  predicate Billed(u: Usage, budget: Id, execution: Id, run: Id, cost: Money, failed: bool, estimated: bool, at: Time) {
    && u.budget == budget && u.cost == cost && u.createdAt == at && u.execution == Some(execution) && u.run == Some(run)
    && u.failed == failed && u.estimated == estimated
  }

  /** `rows` charge the picked reservations one by one: each its own budget, all the same cost. */
  predicate Bills(reservations: seq<Reservation>, which: seq<nat>, rows: seq<Usage>, execution: Id, run: Id, cost: Money,
                  failed: bool, estimated: bool, at: Time)
  {
    && Picks(reservations, Of(execution), which) && |rows| == |which|
    && (forall k | 0 <= k < |rows| ::
          Billed(rows[k], reservations[which[k]].budget, execution, run, cost, failed, estimated, at))
  }

  /** The usage table after an execution was charged: what was there, and one row for each of its
      reservations. */
  ghost predicate Charges(l: Ledger, usage: seq<Usage>, execution: Id, run: Id, cost: Money, failed: bool, estimated: bool) {
    && l.usage <= usage
    && exists which :: Bills(l.reservations, which, usage[|l.usage|..], execution, run, cost, failed, estimated, l.clock)
  }

  /** Each row that was added says so. */
  lemma ChargedRow(l: Ledger, usage: seq<Usage>, execution: Id, run: Id, cost: Money, failed: bool, estimated: bool, k: nat)
    requires Charges(l, usage, execution, run, cost, failed, estimated) && |l.usage| <= k < |usage|
    ensures usage[k].execution == Some(execution) && usage[k].run == Some(run)
    ensures usage[k].cost == cost && usage[k].failed == failed && usage[k].estimated == estimated && usage[k].createdAt == l.clock
  {
    var added := usage[|l.usage|..];
    assert usage[k] == added[k - |l.usage|];
  }

  lemma BillMore(reservations: seq<Reservation>, r: Reservation, which: seq<nat>, rows: seq<Usage>, c: Charge)
    requires Bills(reservations, which, rows, c.execution, c.run, c.cost, c.failed, c.estimated, c.at)
    ensures
      if r.execution == c.execution
      then Bills(reservations + [r], which + [|reservations|], rows + [ChargeRow(c, r.budget)], c.execution, c.run, c.cost,
                 c.failed, c.estimated, c.at)
      else Bills(reservations + [r], which, rows, c.execution, c.run, c.cost, c.failed, c.estimated, c.at)
  {
    PickMore(reservations, r, Of(c.execution), which);
    assert Of(c.execution)(r) <==> r.execution == c.execution;
  }

  lemma {:induction false} RowsBill(reservations: seq<Reservation>, c: Charge) returns (which: seq<nat>)
    ensures Bills(reservations, which, ChargeRows(reservations, c), c.execution, c.run, c.cost, c.failed, c.estimated, c.at)
  {
    which := [];
    if reservations != [] {
      var n := |reservations| - 1;
      which := RowsBill(reservations[..n], c);
      BillMore(reservations[..n], reservations[n], which, ChargeRows(reservations[..n], c), c);
      assert reservations == reservations[..n] + [reservations[n]];
      which := if reservations[n].execution == c.execution then which + [n] else which;
    }
  }

  /** The reservations of an execution are settled and nothing else about any of them changed. */
  predicate Settles(before: seq<Reservation>, after: seq<Reservation>, execution: Id) {
    && |after| == |before|
    && forall k | 0 <= k < |before| ::
         after[k] == if before[k].execution == execution then before[k].(settled := true) else before[k]
  }

  // ---------------------------------------------------------------- settle

  /** The lease a ticket names: the first with its execution. */
  predicate Names(l: Ledger, t: Ticket, i: nat) {
    && i < |l.leases| && l.leases[i].execution == t.execution
    && forall k | 0 <= k < i :: l.leases[k].execution != t.execution
  }

  /** The row of a run. */
  predicate RunAt(runs: seq<Run>, id: Id, company: Id, at: nat) {
    && at < |runs| && runs[at].id == id && runs[at].company == company
    && forall k | 0 <= k < at :: !(runs[k].id == id && runs[k].company == company)
  }

  lemma NamesFound(l: Ledger, t: Ticket)
    ensures forall i: nat :: Names(l, t, i) <==> FindLease(l.leases, t.execution) == Some(i)
  {
  }

  lemma RunAtFound(runs: seq<Run>, id: Id, company: Id)
    ensures forall at: nat :: RunAt(runs, id, company, at) <==> FindRun(runs, id, company) == Some(at)
  {
  }

  /** A ticket settles exactly when the lease it names is its owner's and running, none of the execution's
      reservations has been settled, and the run exists. */
  lemma SettlesIff(l: Ledger, t: Ticket, cost: Money, failed: bool, estimated: bool)
    ensures Settle(l, t, cost, failed, estimated).Ok? <==>
      exists i: nat, at: nat ::
        && Names(l, t, i) && RunAt(l.runs, t.run, l.leases[i].company, at)
        && l.leases[i].owner == t.owner && l.leases[i].state == Running
        && forall k | 0 <= k < |l.reservations| && l.reservations[k].execution == t.execution :: !l.reservations[k].settled
  {
    NamesFound(l, t);
    var found := FindLease(l.leases, t.execution);
    if found.Some? {
      RunAtFound(l.runs, t.run, l.leases[found.value].company);
      assert Names(l, t, found.value);
      var run := FindRun(l.runs, t.run, l.leases[found.value].company);
      if run.Some? {
        assert RunAt(l.runs, t.run, l.leases[found.value].company, run.value);
      }
    }
  }

  /** What a settlement writes: one usage row per reservation at the given cost, the reservations settled,
      the cost on the run, and the lease closed; nothing else. */
  lemma SettleWrites(l: Ledger, t: Ticket, cost: Money, failed: bool, estimated: bool) returns (i: nat, at: nat)
    requires Settle(l, t, cost, failed, estimated).Ok?
    ensures Names(l, t, i) && RunAt(l.runs, t.run, l.leases[i].company, at)
    ensures
      var l' := Settle(l, t, cost, failed, estimated).value;
      && Charges(l, l'.usage, t.execution, t.run, cost, failed, estimated)
      && Settles(l.reservations, l'.reservations, t.execution)
      && l' == l.(leases := l.leases[i := l.leases[i].(state := if failed then Failed else Succeeded)],
                  runs := l.runs[at := l.runs[at].(cost := cost, estimated := estimated)],
                  usage := l'.usage, reservations := l'.reservations)
  {
    i := FindLease(l.leases, t.execution).value;
    at := FindRun(l.runs, t.run, l.leases[i].company).value;
    NamesFound(l, t);
    RunAtFound(l.runs, t.run, l.leases[i].company);
    var l' := Settle(l, t, cost, failed, estimated).value;
    var c := Charge(t.execution, t.run, cost, failed, estimated, l.clock);
    var which := RowsBill(l.reservations, c);
    assert l'.usage[|l.usage|..] == ChargeRows(l.reservations, c);
  }

  // ---------------------------------------------------------------- uncertain effects and control

  /** Marking uncertain asks for the owner only, and makes the lease recoverable from now on. */
  lemma MarksIff(l: Ledger, t: Ticket)
    ensures MarkUncertain(l, t).Ok? <==> exists i: nat :: Names(l, t, i) && l.leases[i].owner == t.owner
    ensures forall i: nat | Names(l, t, i) && l.leases[i].owner == t.owner ::
      MarkUncertain(l, t).value == l.(leases := l.leases[i := l.leases[i].(state := RecoveryNeeded, expiresAt := l.clock)])
  {
    NamesFound(l, t);
    var found := FindLease(l.leases, t.execution);
    if found.Some? {
      assert Names(l, t, found.value);
    }
  }

  /** The lease and the run row that an operator addresses. */
  predicate Addressed(l: Ledger, run: Id, company: Id, i: nat) {
    && i < |l.leases| && l.leases[i].company == company && l.leases[i].run == run
    && forall k | 0 <= k < i :: !(l.leases[k].company == company && l.leases[k].run == run)
  }

  predicate FirstRun(l: Ledger, run: Id, at: nat) {
    at < |l.runs| && l.runs[at].id == run && forall k | 0 <= k < at :: l.runs[k].id != run
  }

  lemma AddressedFound(l: Ledger, run: Id, company: Id)
    ensures forall i: nat :: Addressed(l, run, company, i) <==> FindByRun(l.leases, company, run) == Some(i)
  {
  }

  /** Control is recorded exactly for a running lease whose run's agent exists and drives a process. */
  lemma ControlsIff(l: Ledger, run: Id, company: Id, action: Control, i: nat, at: nat)
    requires Addressed(l, run, company, i) && FirstRun(l, run, at)
    ensures
      var r := RequestControl(l, run, company, action);
      && (r.Ok? <==> (company, l.runs[at].agent) in l.agents && l.leases[i].state == Running
                     && l.agents[(company, l.runs[at].agent)].config.adapterType == "process")
      && (r.Ok? ==> r.value == l.(leases := l.leases[i := l.leases[i].(control := action)]))
  {
    AddressedFound(l, run, company);
  }

  /** Nobody addressed, nothing controlled. */
  lemma ControlsNobody(l: Ledger, run: Id, company: Id, action: Control)
    requires (forall i: nat :: !Addressed(l, run, company, i)) || (forall at: nat :: !FirstRun(l, run, at))
    ensures RequestControl(l, run, company, action) == Err(ExecutionNotFound)
  {
    AddressedFound(l, run, company);
    var at := Find(l.runs, (x: Run) => x.id == run);
    if at.Some? {
      assert FirstRun(l, run, at.value);
    }
    var found := FindByRun(l.leases, company, run);
    if found.Some? {
      assert Addressed(l, run, company, found.value);
    }
  }

  /** A runner reads the control of its own lease; one that has lost it reads terminate. */
  lemma ControlRead(l: Ledger, t: Ticket)
    ensures forall i: nat | Names(l, t, i) ::
      ControlAction(l, t) == if l.leases[i].owner == t.owner then l.leases[i].control else Terminate
    ensures (forall i: nat :: !Names(l, t, i)) ==> ControlAction(l, t) == Terminate
  {
    NamesFound(l, t);
    var found := FindLease(l.leases, t.execution);
    if found.Some? {
      assert Names(l, t, found.value);
    }
  }

  /** Only a pending approval is decided, and only its status changes. */
  lemma ResolvesIff(l: Ledger, i: nat, status: ApprovalStatus)
    ensures
      var r := Resolve(l, i, status);
      && (r.Some? <==> i < |l.approvals| && l.approvals[i].status == Pending)
      && (r.Some? ==> r.value == l.(approvals := l.approvals[i := l.approvals[i].(status := status)]))
  {
  }

  // ---------------------------------------------------------------- recover

  /** The largest amount an execution reserved, zero if none. */
  predicate Largest(reservations: seq<Reservation>, execution: Id, amount: Money) {
    && (forall k | 0 <= k < |reservations| && reservations[k].execution == execution :: reservations[k].amount <= amount)
    && (amount == 0 || exists k | 0 <= k < |reservations| :: reservations[k].execution == execution && reservations[k].amount == amount)
  }

  lemma {:induction false} CeilingIsLargest(reservations: seq<Reservation>, execution: Id)
    ensures Largest(reservations, execution, Ceiling(reservations, execution))
  {
    if reservations != [] {
      var n := |reservations| - 1;
      CeilingIsLargest(reservations[..n], execution);
      var rest := Ceiling(reservations[..n], execution);
      if rest != 0 {
        var k :| 0 <= k < n && reservations[..n][k].execution == execution && reservations[..n][k].amount == rest;
        assert reservations[k].execution == execution && reservations[k].amount == rest;
      }
    }
  }

  /** The work item of the lease's resource is failed; an agent's lease, or a missing item, has none. */
  predicate FailsWork(works: map<Id, WorkItem>, after: map<Id, WorkItem>, resource: Resource) {
    if resource.WorkResource? && resource.id in works then
      after == works[resource.id := works[resource.id].(status := WorkFailed)]
    else after == works
  }

  /** A run that was open is failed now; one that was not keeps its status. Both carry the charge. */
  predicate FailsRun(before: Run, after: Run, cost: Money, now: Time) {
    after == if before.status == RunRunning
             then before.(cost := cost, estimated := true, status := RunFailed, completedAt := Some(now))
             else before.(cost := cost, estimated := true)
  }

  predicate DistinctLeases(l: Ledger) {
    forall j, k | 0 <= j < k < |l.leases| :: l.leases[j].execution != l.leases[k].execution
  }

  /** The lease at `i` is failed, its reservations settled and charged `cost`, and so is its run. */
  ghost predicate ChargesAbandoned(l: Ledger, s: Ledger, i: nat, at: nat, cost: Money)
    requires i < |l.leases| && at < |l.runs|
  {
    && Charges(l, s.usage, l.leases[i].execution, l.leases[i].run, cost, true, true)
    && Settles(l.reservations, s.reservations, l.leases[i].execution)
    && s == l.(leases := l.leases[i := l.leases[i].(state := Failed)],
               runs := l.runs[at := l.runs[at].(cost := cost, estimated := true)],
               usage := s.usage, reservations := s.reservations)
  }

  /** Settling an abandoned lease, whatever its state, charges the largest amount it reserved. */
  lemma AbandonedWrites(l: Ledger, i: nat) returns (at: nat, cost: Money)
    requires DistinctLeases(l) && i < |l.leases| && SettleAbandoned(l, i).Ok?
    ensures RunAt(l.runs, l.leases[i].run, l.leases[i].company, at) && Largest(l.reservations, l.leases[i].execution, cost)
    ensures ChargesAbandoned(l, SettleAbandoned(l, i).value, i, at, cost)
  {
    var lease := l.leases[i];
    cost := Ceiling(l.reservations, lease.execution);
    CeilingIsLargest(l.reservations, lease.execution);
    var reopened := l.(leases := l.leases[i := lease.(state := Running)]);
    var j;
    j, at := SettleWrites(reopened, Ticket(lease.execution, lease.run, lease.owner, cost), cost, true, true);
    assert j == i by {
      assert reopened.leases[i].execution == lease.execution && reopened.leases[j].execution == l.leases[j].execution;
    }
    var s := SettleAbandoned(l, i).value;
    assert s.leases == l.leases[i := lease.(state := Failed)];
    var which :| Bills(reopened.reservations, which, s.usage[|l.usage|..], lease.execution, lease.run, cost, true, true, l.clock);
  }

  /** What a recovery writes: the lease failed, every reservation settled and charged the largest amount
      reserved, as a failed estimate, the run and the work item failed; nothing else. */
  ghost predicate Recovers(l: Ledger, l': Ledger, i: nat, at: nat, cost: Money)
    requires i < |l.leases| && at < |l.runs|
  {
    && Charges(l, l'.usage, l.leases[i].execution, l.leases[i].run, cost, true, true)
    && Settles(l.reservations, l'.reservations, l.leases[i].execution)
    && FailsWork(l.works, l'.works, l.leases[i].resource)
    && |l'.runs| == |l.runs| && FailsRun(l.runs[at], l'.runs[at], cost, l.clock)
    && l' == l.(leases := l.leases[i := l.leases[i].(state := Failed)], runs := l.runs[at := l'.runs[at]],
                works := l'.works, usage := l'.usage, reservations := l'.reservations)
  }

  lemma RecoverWrites(l: Ledger, run: Id, company: Id) returns (i: nat, at: nat, cost: Money)
    requires DistinctLeases(l) && Recover(l, run, company).Ok?
    ensures Addressed(l, run, company, i) && RunAt(l.runs, run, company, at)
    ensures (l.leases[i].state == Running || l.leases[i].state == RecoveryNeeded) && l.leases[i].expiresAt <= l.clock
    ensures Largest(l.reservations, l.leases[i].execution, cost)
    ensures Recovers(l, Recover(l, run, company).value, i, at, cost)
  {
    i := RecoverUnfolds(l, run, company);
    at, cost := AbandonedWrites(l, i);
    var s := SettleAbandoned(l, i).value;
    RunsKeepPlace(l, s, i, at, cost);
    CloseOutWrites(s, l.leases[i].resource, run, company, at);
    ComposeRecovery(l, s, Recover(l, run, company).value, i, at, cost);
  }

  lemma RecoverUnfolds(l: Ledger, run: Id, company: Id) returns (i: nat)
    requires Recover(l, run, company).Ok?
    ensures Addressed(l, run, company, i) && SettleAbandoned(l, i).Ok?
    ensures (l.leases[i].state == Running || l.leases[i].state == RecoveryNeeded) && l.leases[i].expiresAt <= l.clock
    ensures Recover(l, run, company) == CloseOut(SettleAbandoned(l, i).value, l.leases[i].resource, run, company)
  {
    AddressedFound(l, run, company);
    i := FindByRun(l.leases, company, run).value;
  }

  lemma RunsKeepPlace(l: Ledger, s: Ledger, i: nat, at: nat, cost: Money)
    requires i < |l.leases| && RunAt(l.runs, l.leases[i].run, l.leases[i].company, at) && ChargesAbandoned(l, s, i, at, cost)
    ensures RunAt(s.runs, l.leases[i].run, l.leases[i].company, at)
  {
  }

  /** What the rest of a recovery writes. */
  predicate ClosesOut(l: Ledger, l': Ledger, resource: Resource, at: nat)
    requires at < |l.runs|
  {
    && FailsWork(l.works, l'.works, resource)
    && l' == l.(works := l'.works, runs := l.runs[at :=
         if l.runs[at].status == RunRunning then l.runs[at].(status := RunFailed, completedAt := Some(l.clock)) else l.runs[at]])
  }

  lemma ComposeRecovery(l: Ledger, s: Ledger, l': Ledger, i: nat, at: nat, cost: Money)
    requires i < |l.leases| && at < |l.runs| && at < |s.runs|
    requires ChargesAbandoned(l, s, i, at, cost) && ClosesOut(s, l', l.leases[i].resource, at)
    ensures Recovers(l, l', i, at, cost)
  {
  }

  lemma CloseOutWrites(l: Ledger, resource: Resource, run: Id, company: Id, at: nat)
    requires CloseOut(l, resource, run, company).Ok? && RunAt(l.runs, run, company, at)
    ensures ClosesOut(l, CloseOut(l, resource, run, company).value, resource, at)
  {
    RunAtFound(l.runs, run, company);
  }
}
