/** Every step keeps the core of the ledger invariant, and every timely step keeps all of it. */
module LedgerSteps {
  import opened Basics
  import opened Sequences
  import opened ExecutionLedger
  import opened Budget
  import opened LedgerInvariant

  // ---------------------------------------------------------------- leases that only change state

  predicate Restates(l: Ledger, l': Ledger) {
    |l'.leases| == |l.leases| && forall i | 0 <= i < |l.leases| :: l.leases[i].SameIdentity(l'.leases[i])
  }

  predicate SameActivity(l: Ledger, l': Ledger) {
    |l'.leases| == |l.leases| && forall i | 0 <= i < |l.leases| :: l'.leases[i].Active() <==> l.leases[i].Active()
  }

  lemma FindLeaseRestated(l: Ledger, l': Ledger)
    requires Restates(l, l')
    ensures forall e: Id :: FindLease(l'.leases, e) == FindLease(l.leases, e)
  {
    forall e: Id ensures FindLease(l'.leases, e) == FindLease(l.leases, e) {
      var p := (x: Lease) => x.execution == e;
      assert FindLease(l.leases, e) == Find(l.leases, p) && FindLease(l'.leases, e) == Find(l'.leases, p);
    }
  }

  lemma RestateKeepsCore(l: Ledger, l': Ledger)
    requires Core(l) && Restates(l, l') && l' == l.(leases := l'.leases)
    ensures Core(l')
  {
    FindLeaseRestated(l, l');
  }

  lemma RestateKeepsGuarded(l: Ledger, l': Ledger)
    requires Guarded(l) && Restates(l, l') && SameActivity(l, l') && l' == l.(leases := l'.leases)
    ensures Guarded(l')
  {
  }

  // ---------------------------------------------------------------- a refused claim

  lemma AskKeepsApprovals(l: Ledger, l': Ledger, q: ClaimRequest, now: Time)
    requires SingleUse(l) && OnePending(l) && Asks(l, l', q, now) && now <= l.clock
    ensures SingleUse(l') && OnePending(l')
  {
  }

  lemma RefusalKeepsCore(l: Ledger, l': Ledger, q: ClaimRequest, now: Time)
    requires Core(l) && now <= l.clock
    requires (exists i :: Parks(l, l', i, now)) || Asks(l, l', q, now)
    ensures Core(l')
  {
    if i :| Parks(l, l', i, now) {
      RestateKeepsCore(l, l');
    } else {
      AskKeepsApprovals(l, l', q, now);
    }
  }

  // ---------------------------------------------------------------- a granted claim

  lemma FindLeaseAppended(leases: seq<Lease>, lease: Lease, e: Id)
    ensures FindLease(leases, e).Some? ==> FindLease(leases + [lease], e) == FindLease(leases, e)
    ensures FindLease(leases, e).None? ==>
      FindLease(leases + [lease], e) == if lease.execution == e then Some(|leases|) else None
  {
    var f, g := FindLease(leases, e), FindLease(leases + [lease], e);
    var p := (x: Lease) => x.execution == e;
    assert f == Find(leases, p) && g == Find(leases + [lease], p);
    if f.Some? {
      assert p((leases + [lease])[f.value]);
    }
    assert (leases + [lease])[|leases|] == lease;
  }

  lemma FindRunAppended(runs: seq<Run>, run: Run, id: Id, company: Id)
    ensures FindRun(runs, id, company).Some? ==> FindRun(runs + [run], id, company).Some?
    ensures run.id == id && run.company == company ==> FindRun(runs + [run], id, company).Some?
  {
    var f := FindRun(runs, id, company);
    if f.Some? {
      assert (runs + [run])[f.value] == runs[f.value];
    }
    assert (runs + [run])[|runs|] == run;
  }

  /** Fresh reservations of one execution: one per budget, each for the whole ceiling. */
  predicate FreshRows(rows: seq<Reservation>, policies: seq<Policy>, e: Id, ceiling: Money) {
    && (forall i | 0 <= i < |rows| ::
          rows[i].execution == e && rows[i].amount == ceiling && !rows[i].settled && Budgeted(policies, rows[i].budget))
    && (forall i, j | 0 <= i < j < |rows| :: rows[i].budget != rows[j].budget)
    && (rows == [] ==> ceiling == 0)
  }

  /** The rows a grant adds are fresh, and every policy they are drawn on has room for the ceiling. */
  lemma GrantRows(l: Ledger, q: ClaimRequest, ceiling: Money, now: Time)
    requires DistinctPolicies(l.policies) && Reservations(l, q, ceiling, now).Ok?
    ensures FreshRows(Reservations(l, q, ceiling, now).value, l.policies, q.Execution(), ceiling)
    ensures
      var rows := Reservations(l, q, ceiling, now).value;
      forall i, k | 0 <= i < |rows| && 0 <= k < |l.policies| && l.policies[k].id == rows[i].budget ::
        CheckPolicy(l, l.policies[k], q.config.model, ceiling, now).None?
  {
    var ps := Selected(l.policies, q);
    var rows := Reservations(l, q, ceiling, now).value;
    SelectedDistinct(l.policies, q);
    ReserveEachShape(l, ps, q, ceiling, now);
    forall i | 0 <= i < |ps| ensures ps[i] in l.policies {
      assert ps[i] in ps;
    }
    forall i, k | 0 <= i < |rows| && 0 <= k < |l.policies| && l.policies[k].id == rows[i].budget
      ensures CheckPolicy(l, l.policies[k], q.config.model, ceiling, now).None?
    {
      assert l.policies[k] == ps[i];
    }
  }

  lemma GrantKeepsLeaseKeys(l: Ledger, l': Ledger, g: Grant, run: Run)
    requires LeaseKeys(l) && FreshRun(l, g.q.run) && Grants(l, l', g)
    requires run.id == g.q.run && run.company == g.q.company
    ensures LeaseKeys(l'.(runs := l'.runs + [run]))
  {
    forall i | 0 <= i < |l'.leases|
      ensures FindRun(l.runs + [run], l'.leases[i].run, l'.leases[i].company).Some?
    {
      FindRunAppended(l.runs, run, l'.leases[i].run, l'.leases[i].company);
    }
  }

  lemma FreshRowsKeepKeys(before: seq<Reservation>, rows: seq<Reservation>, policies: seq<Policy>, e: Id, ceiling: Money)
    requires DistinctReservations(before) && FreshRows(rows, policies, e, ceiling)
    requires forall i | 0 <= i < |before| :: before[i].execution != e
    ensures DistinctReservations(before + rows)
  {
  }

  lemma GrantKeepsRowKeys(l: Ledger, l': Ledger, g: Grant)
    requires RowKeys(l) && Grants(l, l', g)
    ensures RowKeys(l')
  {
    GrantRows(l, g.q, g.ceiling, g.now);
    var rows := Reservations(l, g.q, g.ceiling, g.now).value;
    FreshRowsKeepKeys(l.reservations, rows, l.policies, g.q.Execution(), g.ceiling);
    forall e: Id | FindLease(l.leases, e).Some? || e == g.q.Execution()
      ensures FindLease(l'.leases, e).Some?
    {
      FindLeaseAppended(l.leases, g.NewLease(), e);
    }
  }

  lemma GrantKeepsUniform(l: Ledger, l': Ledger, g: Grant)
    requires RowKeys(l) && Uniform(l) && Grants(l, l', g)
    ensures Uniform(l')
  {
    GrantRows(l, g.q, g.ceiling, g.now);
  }

  lemma GrantKeepsGuarded(l: Ledger, l': Ledger, g: Grant)
    requires RowKeys(l) && Guarded(l) && Grants(l, l', g)
    ensures Guarded(l')
  {
    GrantRows(l, g.q, g.ceiling, g.now);
    assert forall i | 0 <= i < |l.reservations| :: l.reservations[i].execution != g.q.Execution();
  }

  lemma {:induction false} SumZero<T>(s: seq<T>, weight: T -> int)
    requires forall i | 0 <= i < |s| :: weight(s[i]) == 0
    ensures Sum(s, weight) == 0
  {
    if s != [] {
      SumZero(s[..|s| - 1], weight);
    }
  }

  lemma GrantKeepsBalance(l: Ledger, l': Ledger, g: Grant)
    requires RowKeys(l) && Balanced(l) && Grants(l, l', g)
    ensures Balanced(l')
  {
    GrantRows(l, g.q, g.ceiling, g.now);
    var rows := Reservations(l, g.q, g.ceiling, g.now).value;
    forall e: Id, b: Id
      ensures Sum(l'.usage, UsageCount(e, b)) == Sum(l'.reservations, SettledCount(e, b))
    {
      SumAppend(l.reservations, rows, SettledCount(e, b));
      SumZero(rows, SettledCount(e, b));
    }
  }

  lemma GrantKeepsApprovals(l: Ledger, l': Ledger, g: Grant)
    requires SingleUse(l) && OnePending(l) && Grants(l, l', g)
    ensures SingleUse(l') && OnePending(l')
  {
    forall e: Id
      ensures FindLease(l.leases, e).Some? ==> FindLease(l'.leases, e) == FindLease(l.leases, e)
      ensures FindLease(l'.leases, g.q.Execution()) == Some(|l.leases|)
    {
      FindLeaseAppended(l.leases, g.NewLease(), e);
      FindLeaseAppended(l.leases, g.NewLease(), g.q.Execution());
    }
  }

  lemma GrantKeepsCore(l: Ledger, l': Ledger, g: Grant, run: Run)
    requires Core(l) && FreshRun(l, g.q.run) && Grants(l, l', g)
    requires run.id == g.q.run && run.company == g.q.company
    ensures Core(l'.(runs := l'.runs + [run]))
  {
    GrantKeepsLeaseKeys(l, l', g, run);
    GrantKeepsRowKeys(l, l', g);
    GrantKeepsUniform(l, l', g);
    GrantKeepsBalance(l, l', g);
    GrantKeepsApprovals(l, l', g);
  }

  lemma StartKeepsCore(l: Ledger, q: ClaimRequest, now: Time, owner: Id)
    requires Core(l) && now <= l.clock && FreshRun(l, q.run)
    ensures Core(Start(l, q, now, owner).0)
  {
    ClaimShape(l, q, now, owner);
    var (l', outcome) := Claim(l, q, now, owner);
    if outcome.Granted? {
      var approved :| Grants(l, l', Grant(q, now, owner, outcome.ticket.ceiling, approved));
      var run := Run(q.run, q.company, q.agent, RunRunning, l.clock, None, 0, false);
      GrantKeepsCore(l, l', Grant(q, now, owner, outcome.ticket.ceiling, approved), run);
    } else if l' != l {
      RefusalKeepsCore(l, l', q, now);
    }
  }

  lemma StartKeepsGuarded(l: Ledger, q: ClaimRequest, now: Time, owner: Id)
    requires RowKeys(l) && Guarded(l)
    ensures Guarded(Start(l, q, now, owner).0)
  {
    ClaimShape(l, q, now, owner);
    var (l', outcome) := Claim(l, q, now, owner);
    if outcome.Granted? {
      var approved :| Grants(l, l', Grant(q, now, owner, outcome.ticket.ceiling, approved));
      GrantKeepsGuarded(l, l', Grant(q, now, owner, outcome.ticket.ceiling, approved));
    } else if i :| Parks(l, l', i, now) {
      RestateKeepsGuarded(l, l');
    }
  }

  // ---------------------------------------------------------------- settling

  lemma FindRunRestated(runs: seq<Run>, runs': seq<Run>)
    requires |runs'| == |runs|
    requires forall i | 0 <= i < |runs| :: runs'[i].id == runs[i].id && runs'[i].company == runs[i].company
    ensures forall id: Id, company: Id :: FindRun(runs', id, company) == FindRun(runs, id, company)
  {
    forall id: Id, company: Id ensures FindRun(runs', id, company) == FindRun(runs, id, company) {
      var p := (x: Run) => x.id == id && x.company == company;
      assert FindRun(runs, id, company) == Find(runs, p) && FindRun(runs', id, company) == Find(runs', p);
    }
  }

  lemma {:induction false} ChargeRowsOf(rows: seq<Reservation>, c: Charge)
    ensures forall i | 0 <= i < |ChargeRows(rows, c)| :: ChargeRows(rows, c)[i].execution == Some(c.execution)
  {
    if rows != [] {
      ChargeRowsOf(rows[..|rows| - 1], c);
    }
  }

  /** Each reservation that is settled is matched by one new charge. */
  lemma {:induction false} ChargesMatch(rows: seq<Reservation>, c: Charge, e: Id, b: Id)
    requires forall i | 0 <= i < |rows| && rows[i].execution == c.execution :: !rows[i].settled
    ensures Sum(ChargeRows(rows, c), UsageCount(e, b)) + Sum(rows, SettledCount(e, b))
         == Sum(SettleRows(rows, c.execution), SettledCount(e, b))
  {
    if rows != [] {
      var rest, r := rows[..|rows| - 1], rows[|rows| - 1];
      var settled := SettleRows(rows, c.execution);
      ChargesMatch(rest, c, e, b);
      assert settled[..|rows| - 1] == SettleRows(rest, c.execution);
      assert settled[|rows| - 1] == SettleRow(r, c.execution);
      if r.execution == c.execution {
        SumAppend(ChargeRows(rest, c), [ChargeRow(c, r.budget)], UsageCount(e, b));
        SumOne(ChargeRow(c, r.budget), UsageCount(e, b));
      }
    }
  }

  lemma SettleKeepsLeaseKeys(l: Ledger, t: Ticket, cost: Money, failed: bool, estimated: bool)
    requires LeaseKeys(l) && Settle(l, t, cost, failed, estimated).Ok?
    ensures LeaseKeys(Settle(l, t, cost, failed, estimated).value)
  {
    FindRunRestated(l.runs, Settle(l, t, cost, failed, estimated).value.runs);
  }

  lemma SettleKeepsUsageKeys(l: Ledger, l': Ledger, c: Charge)
    requires forall i | 0 <= i < |l.usage| && l.usage[i].execution.Some? :: FindLease(l.leases, l.usage[i].execution.value).Some?
    requires forall e | FindLease(l.leases, e).Some? :: FindLease(l'.leases, e).Some?
    requires FindLease(l.leases, c.execution).Some? && l'.usage == l.usage + ChargeRows(l.reservations, c)
    ensures forall i | 0 <= i < |l'.usage| && l'.usage[i].execution.Some? :: FindLease(l'.leases, l'.usage[i].execution.value).Some?
  {
    var charges := ChargeRows(l.reservations, c);
    ChargeRowsOf(l.reservations, c);
    forall i | 0 <= i < |l'.usage| && l'.usage[i].execution.Some?
      ensures FindLease(l'.leases, l'.usage[i].execution.value).Some?
    {
      assert l'.usage[i] == if i < |l.usage| then l.usage[i] else charges[i - |l.usage|];
    }
  }

  /** Settling reservations changes none of their keys. */
  lemma SettledRowsKeepKeys(l: Ledger, l': Ledger, execution: Id)
    requires RowKeys(l) && l'.reservations == SettleRows(l.reservations, execution) && l'.policies == l.policies
    requires forall e | FindLease(l.leases, e).Some? :: FindLease(l'.leases, e).Some?
    ensures forall i | 0 <= i < |l'.reservations| :: FindLease(l'.leases, l'.reservations[i].execution).Some?
    ensures forall i | 0 <= i < |l'.reservations| :: Budgeted(l'.policies, l'.reservations[i].budget)
    ensures DistinctReservations(l'.reservations) && DistinctPolicies(l'.policies)
  {
  }

  lemma SettleKeepsRowKeys(l: Ledger, t: Ticket, cost: Money, failed: bool, estimated: bool)
    requires RowKeys(l) && Settle(l, t, cost, failed, estimated).Ok?
    ensures RowKeys(Settle(l, t, cost, failed, estimated).value)
  {
    var l' := Settle(l, t, cost, failed, estimated).value;
    FindLeaseRestated(l, l');
    SettledRowsKeepKeys(l, l', t.execution);
    SettleKeepsUsageKeys(l, l', Charge(t.execution, t.run, cost, failed, estimated, l.clock));
  }

  lemma SettleKeepsUniform(l: Ledger, t: Ticket, cost: Money, failed: bool, estimated: bool)
    requires Uniform(l) && Settle(l, t, cost, failed, estimated).Ok?
    ensures Uniform(Settle(l, t, cost, failed, estimated).value)
  {
  }

  lemma SettleKeepsBalance(l: Ledger, t: Ticket, cost: Money, failed: bool, estimated: bool)
    requires Balanced(l) && Settle(l, t, cost, failed, estimated).Ok?
    ensures Balanced(Settle(l, t, cost, failed, estimated).value)
  {
    var l' := Settle(l, t, cost, failed, estimated).value;
    var c := Charge(t.execution, t.run, cost, failed, estimated, l.clock);
    forall e: Id, b: Id
      ensures Sum(l'.usage, UsageCount(e, b)) == Sum(l'.reservations, SettledCount(e, b))
    {
      SumAppend(l.usage, ChargeRows(l.reservations, c), UsageCount(e, b));
      ChargesMatch(l.reservations, c, e, b);
    }
  }

  lemma SettleKeepsApprovals(l: Ledger, t: Ticket, cost: Money, failed: bool, estimated: bool)
    requires SingleUse(l) && OnePending(l) && Settle(l, t, cost, failed, estimated).Ok?
    ensures
      var l' := Settle(l, t, cost, failed, estimated).value;
      SingleUse(l') && OnePending(l')
  {
    FindLeaseRestated(l, Settle(l, t, cost, failed, estimated).value);
  }

  lemma SettleKeepsCore(l: Ledger, t: Ticket, cost: Money, failed: bool, estimated: bool)
    requires Core(l) && Settle(l, t, cost, failed, estimated).Ok?
    ensures Core(Settle(l, t, cost, failed, estimated).value)
  {
    SettleKeepsLeaseKeys(l, t, cost, failed, estimated);
    SettleKeepsRowKeys(l, t, cost, failed, estimated);
    SettleKeepsUniform(l, t, cost, failed, estimated);
    SettleKeepsBalance(l, t, cost, failed, estimated);
    SettleKeepsApprovals(l, t, cost, failed, estimated);
  }

  lemma SettleKeepsGuarded(l: Ledger, t: Ticket, cost: Money, failed: bool, estimated: bool)
    requires LeaseKeys(l) && Guarded(l) && Settle(l, t, cost, failed, estimated).Ok?
    ensures Guarded(Settle(l, t, cost, failed, estimated).value)
  {
    var l' := Settle(l, t, cost, failed, estimated).value;
    var i := FindLease(l.leases, t.execution).value;
    assert forall k | 0 <= k < |l.leases| && k != i :: l'.leases[k] == l.leases[k] && l.leases[k].execution != t.execution;
  }

  /** Runs and work items matter to the invariant only through the identity of runs. */
  lemma FinishKeepsCore(l: Ledger, runs: seq<Run>, works: map<Id, WorkItem>)
    requires Core(l) && |runs| == |l.runs|
    requires forall i | 0 <= i < |runs| :: runs[i].id == l.runs[i].id && runs[i].company == l.runs[i].company
    ensures Core(l.(runs := runs, works := works))
  {
    FindRunRestated(l.runs, runs);
  }

  /** Finishing the run changes nothing else and keeps its identity. */
  lemma FinishShape(l: Ledger, t: Ticket, cost: Money, failed: bool, estimated: bool, status: RunStatus)
    requires Settle(l, t, cost, failed, estimated).Ok?
    ensures
      var s, done := Settle(l, t, cost, failed, estimated).value, SettleAndFinish(l, t, cost, failed, estimated, status).value;
      && done == s.(runs := done.runs, works := s.works) && |done.runs| == |s.runs|
      && forall i | 0 <= i < |s.runs| :: done.runs[i].id == s.runs[i].id && done.runs[i].company == s.runs[i].company
  {
  }

  lemma SettleAndFinishKeepsCore(l: Ledger, t: Ticket, cost: Money, failed: bool, estimated: bool, status: RunStatus)
    requires Core(l)
    ensures Core(AfterCommit(l, SettleAndFinish(l, t, cost, failed, estimated, status)))
  {
    if Settle(l, t, cost, failed, estimated).Ok? {
      SettleKeepsCore(l, t, cost, failed, estimated);
      var s := Settle(l, t, cost, failed, estimated).value;
      var done := SettleAndFinish(l, t, cost, failed, estimated, status).value;
      FinishShape(l, t, cost, failed, estimated, status);
      FinishKeepsCore(s, done.runs, s.works);
    }
  }

  lemma SettleAndFinishKeepsGuarded(l: Ledger, t: Ticket, cost: Money, failed: bool, estimated: bool, status: RunStatus)
    requires LeaseKeys(l) && Guarded(l)
    ensures Guarded(AfterCommit(l, SettleAndFinish(l, t, cost, failed, estimated, status)))
  {
    if Settle(l, t, cost, failed, estimated).Ok? {
      SettleKeepsGuarded(l, t, cost, failed, estimated);
    }
  }

  // ---------------------------------------------------------------- operator

  lemma SettleAbandonedKeepsCore(l: Ledger, i: nat)
    requires Core(l) && i < |l.leases| && SettleAbandoned(l, i).Ok?
    ensures Core(SettleAbandoned(l, i).value)
  {
    var lease := l.leases[i];
    var reopened := l.(leases := l.leases[i := lease.(state := Running)]);
    RestateKeepsCore(l, reopened);
    var ceiling := Ceiling(l.reservations, lease.execution);
    SettleKeepsCore(reopened, Ticket(lease.execution, lease.run, lease.owner, ceiling), ceiling, true, true);
  }

  lemma SettleAbandonedKeepsGuarded(l: Ledger, i: nat)
    requires LeaseKeys(l) && Guarded(l) && i < |l.leases| && l.leases[i].Active() && SettleAbandoned(l, i).Ok?
    ensures Guarded(SettleAbandoned(l, i).value)
  {
    var lease := l.leases[i];
    var reopened := l.(leases := l.leases[i := lease.(state := Running)]);
    RestateKeepsGuarded(l, reopened);
    var ceiling := Ceiling(l.reservations, lease.execution);
    SettleKeepsGuarded(reopened, Ticket(lease.execution, lease.run, lease.owner, ceiling), ceiling, true, true);
  }

  lemma CloseOutKeepsCore(l: Ledger, resource: Resource, run: Id, company: Id)
    requires Core(l) && CloseOut(l, resource, run, company).Ok?
    ensures Core(CloseOut(l, resource, run, company).value)
  {
    var l' := CloseOut(l, resource, run, company).value;
    FinishKeepsCore(l, l'.runs, l'.works);
  }

  lemma RecoverKeepsCore(l: Ledger, run: Id, company: Id)
    requires Core(l)
    ensures Core(AfterCommit(l, Recover(l, run, company)))
  {
    if Recover(l, run, company).Ok? {
      var i := FindByRun(l.leases, company, run).value;
      SettleAbandonedKeepsCore(l, i);
      CloseOutKeepsCore(SettleAbandoned(l, i).value, l.leases[i].resource, run, company);
    }
  }

  lemma RecoverKeepsGuarded(l: Ledger, run: Id, company: Id)
    requires LeaseKeys(l) && Guarded(l)
    ensures Guarded(AfterCommit(l, Recover(l, run, company)))
  {
    if Recover(l, run, company).Ok? {
      SettleAbandonedKeepsGuarded(l, FindByRun(l.leases, company, run).value);
    }
  }

  lemma UncertainKeepsCore(l: Ledger, t: Ticket)
    requires Core(l)
    ensures Core(AfterCommit(l, MarkUncertain(l, t)))
  {
    if MarkUncertain(l, t).Ok? {
      RestateKeepsCore(l, MarkUncertain(l, t).value);
    }
  }

  lemma UncertainKeepsGuarded(l: Ledger, t: Ticket)
    requires Guarded(l) && Timely(l, Uncertain(t))
    ensures Guarded(AfterCommit(l, MarkUncertain(l, t)))
  {
    if MarkUncertain(l, t).Ok? {
      RestateKeepsGuarded(l, MarkUncertain(l, t).value);
    }
  }

  lemma ControlKeepsInv(l: Ledger, run: Id, company: Id, action: Control)
    ensures Core(l) ==> Core(AfterCommit(l, RequestControl(l, run, company, action)))
    ensures Guarded(l) ==> Guarded(AfterCommit(l, RequestControl(l, run, company, action)))
  {
    var l' := AfterCommit(l, RequestControl(l, run, company, action));
    if Core(l) {
      RestateKeepsCore(l, l');
    }
    if Guarded(l) {
      RestateKeepsGuarded(l, l');
    }
  }

  lemma DecideKeepsApprovals(l: Ledger, i: nat, verdict: ApprovalStatus)
    requires SingleUse(l) && OnePending(l) && verdict != Pending && Resolve(l, i, verdict).Some?
    ensures SingleUse(Resolve(l, i, verdict).value) && OnePending(Resolve(l, i, verdict).value)
  {
  }

  lemma DecideKeepsCore(l: Ledger, i: nat, verdict: ApprovalStatus)
    requires Core(l) && verdict != Pending && Resolve(l, i, verdict).Some?
    ensures Core(Resolve(l, i, verdict).value)
  {
    DecideKeepsApprovals(l, i, verdict);
  }

  // ---------------------------------------------------------------- the environment

  lemma InterferenceKeepsBalance(l: Ledger, l': Ledger)
    requires Balanced(l) && Interferes(l, l')
    ensures Balanced(l')
  {
    var other := l'.usage[|l.usage|..];
    assert l'.usage == l.usage + other;
    forall e: Id, b: Id
      ensures Sum(l'.usage, UsageCount(e, b)) == Sum(l'.reservations, SettledCount(e, b))
    {
      SumAppend(l.usage, other, UsageCount(e, b));
      SumZero(other, UsageCount(e, b));
    }
  }

  lemma InterferenceKeepsApprovals(l: Ledger, l': Ledger)
    requires SingleUse(l) && OnePending(l) && Interferes(l, l')
    ensures SingleUse(l') && OnePending(l')
  {
  }

  lemma InterferenceKeepsCore(l: Ledger, l': Ledger)
    requires Core(l) && Interferes(l, l')
    ensures Core(l')
  {
    InterferenceKeepsBalance(l, l');
    InterferenceKeepsApprovals(l, l');
  }

  // ---------------------------------------------------------------- all steps

  lemma StepKeepsCore(l: Ledger, ev: Event, l': Ledger)
    requires Core(l) && Next(l, ev, l')
    ensures Core(l')
  {
    match ev
    case StartRun(q, now, owner) => StartKeepsCore(l, q, now, owner);
    case SettleRun(t, cost, failed, estimated, status) => SettleAndFinishKeepsCore(l, t, cost, failed, estimated, status);
    case Uncertain(t) => UncertainKeepsCore(l, t);
    case OperatorRecover(run, company) => RecoverKeepsCore(l, run, company);
    case OperatorControl(run, company, action) => ControlKeepsInv(l, run, company, action);
    case Decide(i, verdict) => if Resolve(l, i, verdict).Some? { DecideKeepsCore(l, i, verdict); }
    case Environment => InterferenceKeepsCore(l, l');
  }

  lemma StepKeepsGuarded(l: Ledger, ev: Event, l': Ledger)
    requires LeaseKeys(l) && RowKeys(l) && Guarded(l) && Next(l, ev, l') && Timely(l, ev)
    ensures Guarded(l')
  {
    match ev
    case StartRun(q, now, owner) => StartKeepsGuarded(l, q, now, owner);
    case SettleRun(t, cost, failed, estimated, status) => SettleAndFinishKeepsGuarded(l, t, cost, failed, estimated, status);
    case Uncertain(t) => UncertainKeepsGuarded(l, t);
    case OperatorRecover(run, company) => RecoverKeepsGuarded(l, run, company);
    case OperatorControl(run, company, action) => ControlKeepsInv(l, run, company, action);
    case Decide(i, verdict) =>
    case Environment =>
  }
}
