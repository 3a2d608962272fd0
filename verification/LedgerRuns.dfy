/** What holds over whole runs of the execution ledger. */
module LedgerRuns {
  import opened Basics
  import opened Calendar
  import opened Sequences
  import opened TransitionSystems
  import opened ExecutionLedger
  import opened Budget
  import opened LedgerInvariant
  import opened LedgerSteps

  // ---------------------------------------------------------------- one step and the budgets

  lemma {:induction false} NoReservation(rows: seq<Reservation>, budget: Id)
    requires forall i | 0 <= i < |rows| :: rows[i].budget != budget
    ensures Reserved(rows, budget) == 0
  {
    if rows != [] {
      NoReservation(rows[..|rows| - 1], budget);
    }
  }

  /** Nothing is committed to a policy that no execution has reserved against. */
  lemma NewPolicyIsFree(l: Ledger, p: Policy)
    requires forall i | 0 <= i < |l.reservations| :: l.reservations[i].budget != p.id
    ensures Committed(l, p) <= 0
  {
    NoReservation(l.reservations, p.id);
    SumZero(l.usage, CappedWeight(l.reservations, p.id, PeriodStart(p.period, l.clock)));
  }

  /** The charges so far do not notice the rows of a new execution. */
  lemma ChargedUnmoved(l: Ledger, l': Ledger, rows: seq<Reservation>, e: Id, p: Policy)
    requires l'.usage == l.usage && l'.clock == l.clock && l'.reservations == l.reservations + rows
    requires forall i | 0 <= i < |rows| :: rows[i].execution == e
    requires forall i | 0 <= i < |l.usage| :: l.usage[i].execution != Some(e)
    ensures Charged(l', p) == Charged(l, p)
  {
    var start := PeriodStart(p.period, l.clock);
    forall k | 0 <= k < |l.usage|
      ensures CappedWeight(l'.reservations, p.id, start)(l.usage[k]) == CappedWeight(l.reservations, p.id, start)(l.usage[k])
    {
      if l.usage[k].execution.Some? {
        AmountOfExtended(l.reservations, rows, l.usage[k].execution.value, p.id);
      }
    }
    SumEqual(l.usage, CappedWeight(l'.reservations, p.id, start), l.usage, CappedWeight(l.reservations, p.id, start));
  }

  lemma GrantWithinLimit(l: Ledger, l': Ledger, g: Grant, i: nat)
    requires RowKeys(l) && g.now <= l.clock && i < |l.policies| && Grants(l, l', g)
    ensures Committed(l', l.policies[i]) <= Max(Committed(l, l.policies[i]), l.policies[i].limit)
  {
    var p := l.policies[i];
    var rows := Reservations(l, g.q, g.ceiling, g.now).value;
    GrantRows(l, g.q, g.ceiling, g.now);
    SumAppend(l.reservations, rows, ReservedWeight(p.id));
    FreshReserved(rows, p.id, g.ceiling);
    ChargedUnmoved(l, l', rows, g.q.Execution(), p);
    ChargedWithinConsumed(l, p, g.now);
  }

  lemma SettleWithinCommitted(l: Ledger, t: Ticket, cost: Money, failed: bool, estimated: bool, p: Policy)
    requires DistinctReservations(l.reservations) && Settle(l, t, cost, failed, estimated).Ok?
    ensures Committed(Settle(l, t, cost, failed, estimated).value, p) <= Committed(l, p)
  {
    var l' := Settle(l, t, cost, failed, estimated).value;
    var c := Charge(t.execution, t.run, cost, failed, estimated, l.clock);
    var start := PeriodStart(p.period, l.clock);
    var charges := ChargeRows(l.reservations, c);
    forall u: Usage
      ensures CappedWeight(l'.reservations, p.id, start)(u) == CappedWeight(l.reservations, p.id, start)(u)
    {
      if u.execution.Some? {
        AmountOfSettled(l.reservations, t.execution, u.execution.value, p.id);
      }
    }
    SumEqual(l'.usage, CappedWeight(l'.reservations, p.id, start), l'.usage, CappedWeight(l.reservations, p.id, start));
    SumAppend(l.usage, charges, CappedWeight(l.reservations, p.id, start));
    assert l.reservations[..|l.reservations|] == l.reservations;
    SettleMovesMoney(l.reservations, |l.reservations|, c, p.id, start);
  }

  lemma InterferenceWithinCommitted(l: Ledger, l': Ledger, p: Policy)
    requires Interferes(l, l')
    ensures Committed(l', p) <= Committed(l, p)
  {
    var mid := l.(clock := l'.clock);
    ChargedFades(l, p, mid);
    var other := l'.usage[|l.usage|..];
    assert l'.usage == l.usage + other;
    var w := CappedWeight(l.reservations, p.id, PeriodStart(p.period, l'.clock));
    SumAppend(l.usage, other, w);
    SumZero(other, w);
  }

  lemma SettleAbandonedWithinCommitted(l: Ledger, i: nat, p: Policy)
    requires DistinctReservations(l.reservations) && i < |l.leases| && SettleAbandoned(l, i).Ok?
    ensures Committed(SettleAbandoned(l, i).value, p) <= Committed(l, p)
    ensures SettleAbandoned(l, i).value.policies == l.policies
  {
    var lease := l.leases[i];
    var reopened := l.(leases := l.leases[i := lease.(state := Running)]);
    var ceiling := Ceiling(l.reservations, lease.execution);
    SettleWithinCommitted(reopened, Ticket(lease.execution, lease.run, lease.owner, ceiling), ceiling, true, true, p);
    assert Committed(reopened, p) == Committed(l, p);
  }

  lemma RecoverWithinCommitted(l: Ledger, run: Id, company: Id, p: Policy)
    requires DistinctReservations(l.reservations)
    ensures Committed(AfterCommit(l, Recover(l, run, company)), p) <= Committed(l, p)
    ensures AfterCommit(l, Recover(l, run, company)).policies == l.policies
  {
    if Recover(l, run, company).Ok? {
      var i := FindByRun(l.leases, company, run).value;
      SettleAbandonedWithinCommitted(l, i, p);
      var s, r := SettleAbandoned(l, i).value, Recover(l, run, company).value;
      assert Committed(r, p) == Committed(s, p);
    }
  }

  lemma StartWithinLimit(l: Ledger, q: ClaimRequest, now: Time, owner: Id, i: nat)
    requires RowKeys(l) && now <= l.clock && i < |l.policies|
    ensures Start(l, q, now, owner).0.policies == l.policies
    ensures Committed(Start(l, q, now, owner).0, l.policies[i]) <= Max(Committed(l, l.policies[i]), l.policies[i].limit)
  {
    ClaimShape(l, q, now, owner);
    var (claimed, outcome) := Claim(l, q, now, owner);
    var p := l.policies[i];
    if outcome.Granted? {
      var approved :| Grants(l, claimed, Grant(q, now, owner, outcome.ticket.ceiling, approved));
      GrantWithinLimit(l, claimed, Grant(q, now, owner, outcome.ticket.ceiling, approved), i);
      assert Committed(Start(l, q, now, owner).0, p) == Committed(claimed, p);
    } else {
      assert Committed(claimed, p) == Committed(l, p);
    }
  }

  lemma SettleStepWithinLimit(l: Ledger, t: Ticket, cost: Money, failed: bool, estimated: bool, status: RunStatus, p: Policy)
    requires DistinctReservations(l.reservations)
    ensures AfterCommit(l, SettleAndFinish(l, t, cost, failed, estimated, status)).policies == l.policies
    ensures Committed(AfterCommit(l, SettleAndFinish(l, t, cost, failed, estimated, status)), p) <= Committed(l, p)
  {
    if Settle(l, t, cost, failed, estimated).Ok? {
      SettleWithinCommitted(l, t, cost, failed, estimated, p);
      var s, f := Settle(l, t, cost, failed, estimated).value, SettleAndFinish(l, t, cost, failed, estimated, status).value;
      assert Committed(f, p) == Committed(s, p);
    }
  }

  /** Steps that move no money. */
  lemma QuietStep(l: Ledger, ev: Event, l': Ledger, p: Policy)
    requires Next(l, ev, l') && (ev.Uncertain? || ev.OperatorControl? || ev.Decide?)
    ensures l'.policies == l.policies && Committed(l', p) == Committed(l, p)
  {
  }

  /** Whatever the step, a policy is afterwards committed to no more than it was, or to no more
      than its limit. */
  lemma StepWithinLimit(l: Ledger, ev: Event, l': Ledger, i: nat)
    requires RowKeys(l) && Next(l, ev, l') && i < |l.policies|
    ensures |l.policies| <= |l'.policies|
    ensures Committed(l', l'.policies[i]) <= Max(Committed(l, l.policies[i]), l.policies[i].limit)
  {
    var p := l.policies[i];
    match ev
    case StartRun(q, now, owner) => StartWithinLimit(l, q, now, owner, i);
    case SettleRun(t, cost, failed, estimated, status) =>
      SettleStepWithinLimit(l, t, cost, failed, estimated, status, p);
    case OperatorRecover(run, company) => RecoverWithinCommitted(l, run, company, p);
    case Environment => InterferenceWithinCommitted(l, l', p); assert Committed(l', l'.policies[i]) == Committed(l', p);
    case _ => QuietStep(l, ev, l', p);
  }

  lemma PoliciesUntouched(l: Ledger, ev: Event, l': Ledger)
    requires Next(l, ev, l') && !ev.Environment?
    ensures l'.policies == l.policies
  {
    if ev.StartRun? {
      ClaimShape(l, ev.request, ev.now, ev.owner);
    }
  }

  lemma AddedPolicyIsFree(l: Ledger, ev: Event, l': Ledger, i: nat)
    requires RowKeys(l) && Next(l, ev, l') && |l.policies| <= i < |l'.policies|
    ensures Committed(l', l'.policies[i]) <= 0
  {
    if ev.Environment? {
      forall k | 0 <= k < |l'.reservations| ensures l'.reservations[k].budget != l'.policies[i].id {
        assert Budgeted(l.policies, l.reservations[k].budget);
      }
      NewPolicyIsFree(l', l'.policies[i]);
    } else {
      PoliciesUntouched(l, ev, l');
    }
  }

  /** A step that respects the budgets. */
  predicate Spends(l: Ledger, l': Ledger) {
    && |l.policies| <= |l'.policies|
    && (forall i | 0 <= i < |l.policies| ::
          Committed(l', l'.policies[i]) <= Max(Committed(l, l.policies[i]), l.policies[i].limit))
    && (forall i | |l.policies| <= i < |l'.policies| :: Committed(l', l'.policies[i]) <= 0)
  }

  lemma StepSpends(l: Ledger, ev: Event, l': Ledger)
    requires RowKeys(l) && Next(l, ev, l')
    ensures Spends(l, l')
  {
    if !ev.Environment? {
      PoliciesUntouched(l, ev, l');
    }
    forall i | 0 <= i < |l.policies|
      ensures Committed(l', l'.policies[i]) <= Max(Committed(l, l.policies[i]), l.policies[i].limit)
    {
      StepWithinLimit(l, ev, l', i);
    }
    forall i | |l.policies| <= i < |l'.policies| ensures Committed(l', l'.policies[i]) <= 0 {
      AddedPolicyIsFree(l, ev, l', i);
    }
  }

  // ---------------------------------------------------------------- runs

  /** A ledger on which nothing has been dispatched yet. */
  predicate Initial(l: Ledger) {
    l.leases == [] && l.reservations == [] && l.usage == [] && l.approvals == [] && DistinctPolicies(l.policies)
  }

  /** A run: any interleaving of claims, settlements, uncertain outcomes, recoveries, operator
      actions and interference; a crash is a step that never comes. */
  ghost predicate Behavior(states: seq<Ledger>, events: seq<Event>) {
    IsRun(Initial, Next, states, events)
  }

  predicate TimelyNext(l: Ledger, ev: Event, l': Ledger) {
    Next(l, ev, l') && Timely(l, ev)
  }

  /** A run in which `mark_uncertain` never reaches a closed lease. */
  ghost predicate TimelyBehavior(states: seq<Ledger>, events: seq<Event>) {
    IsRun(Initial, TimelyNext, states, events)
  }

  lemma InitialInv(l: Ledger)
    requires Initial(l)
    ensures Inv(l)
  {
    assert forall e: Id, b: Id :: Sum(l.usage, UsageCount(e, b)) == 0 == Sum(l.reservations, SettledCount(e, b));
  }

  /** Every reachable ledger satisfies the core invariant. */
  lemma ReachableCore(states: seq<Ledger>, events: seq<Event>, n: nat)
    requires Behavior(states, events) && n < |states|
    ensures Core(states[n])
  {
    forall l | Initial(l) ensures Core(l) {
      InitialInv(l);
    }
    forall l, ev, l' | Core(l) && Next(l, ev, l') ensures Core(l') {
      StepKeepsCore(l, ev, l');
    }
    Invariant(Initial, Next, (l: Ledger) => Core(l), states, events, n);
  }

  /** In a timely run leases, reservations and charges stay coupled and no resource is leased twice. */
  lemma ReachableInv(states: seq<Ledger>, events: seq<Event>, n: nat)
    requires TimelyBehavior(states, events) && n < |states|
    ensures Inv(states[n])
  {
    forall l | Initial(l) ensures Inv(l) {
      InitialInv(l);
    }
    forall l, ev, l' | Inv(l) && TimelyNext(l, ev, l') ensures Inv(l') {
      StepKeepsCore(l, ev, l');
      StepKeepsGuarded(l, ev, l');
    }
    Invariant(Initial, TimelyNext, (l: Ledger) => Inv(l), states, events, n);
  }

  /** Highest limit a policy has had up to now. */
  function PeakLimit(states: seq<Ledger>, i: nat): Money {
    if states == [] then 0
    else
      var before := PeakLimit(states[..|states| - 1], i);
      var l := states[|states| - 1];
      if i < |l.policies| && before < l.policies[i].limit then l.policies[i].limit else before
  }

  lemma {:induction false} SpendingBelowPeak(states: seq<Ledger>, n: nat, i: nat)
    requires n < |states| && i < |states[n].policies|
    requires forall k | 0 <= k < |states[0].policies| :: Committed(states[0], states[0].policies[k]) <= 0
    requires forall k {:trigger states[k]} | 0 <= k < |states| - 1 :: Spends(states[k], states[k + 1])
    ensures Committed(states[n], states[n].policies[i]) <= PeakLimit(states[..n + 1], i)
  {
    assert states[..n + 1][..n] == states[..n];
    if n > 0 {
      assert Spends(states[n - 1], states[n - 1 + 1]);
      if i < |states[n - 1].policies| {
        SpendingBelowPeak(states, n - 1, i);
        assert states[..n][..n - 1] == states[..n - 1];
      }
    }
  }

  /** Budget safety over every run: with limits raised and lowered at will, a policy is never
      committed beyond the highest limit it has had. */
  lemma BudgetSafety(states: seq<Ledger>, events: seq<Event>, n: nat, i: nat)
    requires Behavior(states, events) && n < |states| && i < |states[n].policies|
    ensures Committed(states[n], states[n].policies[i]) <= PeakLimit(states[..n + 1], i)
  {
    forall k | 0 <= k < |states[0].policies| ensures Committed(states[0], states[0].policies[k]) <= 0 {
      NewPolicyIsFree(states[0], states[0].policies[k]);
    }
    forall k | 0 <= k < |states| - 1 ensures Spends(states[k], states[k + 1]) {
      ReachableCore(states, events, k);
      StepSpends(states[k], events[k], states[k + 1]);
    }
    SpendingBelowPeak(states, n, i);
  }

  /** The plain form: while a policy's limit has not been lowered, it is never committed beyond it. */
  lemma BudgetWithinLimit(states: seq<Ledger>, events: seq<Event>, n: nat, i: nat)
    requires Behavior(states, events) && n < |states| && i < |states[n].policies|
    requires forall k | 0 <= k <= n && i < |states[k].policies| :: states[k].policies[i].limit <= states[n].policies[i].limit
    ensures Committed(states[n], states[n].policies[i]) <= states[n].policies[i].limit
  {
    BudgetSafety(states, events, n, i);
    PeakBelow(states[..n + 1], i, states[n].policies[i].limit);
  }

  lemma {:induction false} PeakBelow(states: seq<Ledger>, i: nat, bound: Money)
    requires forall k | 0 <= k < |states| && i < |states[k].policies| :: states[k].policies[i].limit <= bound
    ensures PeakLimit(states, i) <= bound
  {
    if states != [] {
      PeakBelow(states[..|states| - 1], i, bound);
    }
  }

  // ---------------------------------------------------------------- overruns

  /** What executions report beyond their ceilings. */
  function OverrunWeight(rows: seq<Reservation>, budget: Id, start: Time): Usage -> int {
    (u: Usage) => ExecutionWeight(budget, start)(u) - CappedWeight(rows, budget, start)(u)
  }

  /** What executions are charged in all, overruns included. */
  function ExecutionWeight(budget: Id, start: Time): Usage -> int {
    (u: Usage) => if u.budget == budget && start <= u.createdAt && u.execution.Some? then u.cost else 0
  }

  lemma {:induction false} SumSplit(s: seq<Usage>, rows: seq<Reservation>, budget: Id, start: Time)
    ensures Sum(s, ExecutionWeight(budget, start)) == Sum(s, CappedWeight(rows, budget, start)) + Sum(s, OverrunWeight(rows, budget, start))
  {
    if s != [] {
      SumSplit(s[..|s| - 1], rows, budget, start);
    }
  }

  /** Spending of executions in a window exceeds a limit that was never lowered by no more than the overruns
      that executors reported in that window. */
  lemma SpendWithinLimitPlusOverruns(states: seq<Ledger>, events: seq<Event>, n: nat, i: nat)
    requires Behavior(states, events) && n < |states| && i < |states[n].policies|
    requires forall k | 0 <= k <= n && i < |states[k].policies| :: states[k].policies[i].limit <= states[n].policies[i].limit
    ensures
      var l, p := states[n], states[n].policies[i];
      var start := PeriodStart(p.period, l.clock);
      Sum(l.usage, ExecutionWeight(p.id, start)) + Reserved(l.reservations, p.id)
        <= p.limit + Sum(l.usage, OverrunWeight(l.reservations, p.id, start))
  {
    BudgetWithinLimit(states, events, n, i);
    var l, p := states[n], states[n].policies[i];
    SumSplit(l.usage, l.reservations, p.id, PeriodStart(p.period, l.clock));
  }
}
