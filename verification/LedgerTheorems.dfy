/** Consequences of the ledger invariant: single dispatch, exact charges, what a refusal leaves
    behind, when an operator can recover, and when `mark_uncertain` is harmless. */
module LedgerTheorems {
  import opened Basics
  import opened Sequences
  import opened TransitionSystems
  import opened ExecutionPolicy
  import opened ExecutionLedger
  import opened Budget
  import opened LedgerInvariant
  import opened LedgerSteps
  import opened LedgerRuns
  import opened SettlementRules
  import Rules = ClaimRules

  // ---------------------------------------------------------------- leases are for ever

  /** No lease is lost or gets another identity, and no execution changes its ceiling. */
  predicate Persists(l: Ledger, l': Ledger) {
    && |l.leases| <= |l'.leases|
    && (forall i | 0 <= i < |l.leases| ::
          && l.leases[i].SameIdentity(l'.leases[i])
          && Ceiling(l'.reservations, l.leases[i].execution) == Ceiling(l.reservations, l.leases[i].execution))
  }

  /** Closed leases are as they were. */
  predicate KeepsClosed(l: Ledger, l': Ledger) {
    |l.leases| <= |l'.leases| && forall i | 0 <= i < |l.leases| && !l.leases[i].Active() :: l'.leases[i] == l.leases[i]
  }

  lemma GrantPersists(l: Ledger, l': Ledger, g: Grant)
    requires DistinctPolicies(l.policies) && Grants(l, l', g)
    ensures Persists(l, l')
  {
    GrantRows(l, g.q, g.ceiling, g.now);
    var rows := Reservations(l, g.q, g.ceiling, g.now).value;
    forall i | 0 <= i < |l.leases|
      ensures Ceiling(l'.reservations, l.leases[i].execution) == Ceiling(l.reservations, l.leases[i].execution)
    {
      CeilingExtended(l.reservations, rows, l.leases[i].execution);
    }
  }

  lemma StartPersists(l: Ledger, q: ClaimRequest, now: Time, owner: Id)
    requires RowKeys(l)
    ensures Persists(l, Start(l, q, now, owner).0) && KeepsClosed(l, Start(l, q, now, owner).0)
  {
    ClaimShape(l, q, now, owner);
    var (claimed, outcome) := Claim(l, q, now, owner);
    if outcome.Granted? {
      var approved :| Grants(l, claimed, Grant(q, now, owner, outcome.ticket.ceiling, approved));
      GrantPersists(l, claimed, Grant(q, now, owner, outcome.ticket.ceiling, approved));
    }
  }

  lemma SettlePersists(l: Ledger, t: Ticket, cost: Money, failed: bool, estimated: bool)
    requires Settle(l, t, cost, failed, estimated).Ok?
    ensures Persists(l, Settle(l, t, cost, failed, estimated).value)
    ensures KeepsClosed(l, Settle(l, t, cost, failed, estimated).value)
  {
    forall e: Id ensures Ceiling(SettleRows(l.reservations, t.execution), e) == Ceiling(l.reservations, e) {
      CeilingSettled(l.reservations, t.execution, e);
    }
  }

  lemma SettleStepPersists(l: Ledger, t: Ticket, cost: Money, failed: bool, estimated: bool, status: RunStatus)
    ensures
      var l' := AfterCommit(l, SettleAndFinish(l, t, cost, failed, estimated, status));
      Persists(l, l') && KeepsClosed(l, l')
  {
    if Settle(l, t, cost, failed, estimated).Ok? {
      SettlePersists(l, t, cost, failed, estimated);
    }
  }

  lemma RecoverPersists(l: Ledger, run: Id, company: Id)
    ensures
      var l' := AfterCommit(l, Recover(l, run, company));
      Persists(l, l') && KeepsClosed(l, l')
  {
    if Recover(l, run, company).Ok? {
      var i := FindByRun(l.leases, company, run).value;
      var lease := l.leases[i];
      var reopened := l.(leases := l.leases[i := lease.(state := Running)]);
      var ceiling := Ceiling(l.reservations, lease.execution);
      SettlePersists(reopened, Ticket(lease.execution, lease.run, lease.owner, ceiling), ceiling, true, true);
    }
  }

  lemma UncertainPersists(l: Ledger, t: Ticket)
    requires LeaseKeys(l)
    ensures Persists(l, AfterCommit(l, MarkUncertain(l, t)))
    ensures Timely(l, Uncertain(t)) ==> KeepsClosed(l, AfterCommit(l, MarkUncertain(l, t)))
  {
  }

  lemma ControlPersists(l: Ledger, run: Id, company: Id, action: Control)
    ensures
      var l' := AfterCommit(l, RequestControl(l, run, company, action));
      Persists(l, l') && KeepsClosed(l, l')
  {
  }

  lemma StepPersists(l: Ledger, ev: Event, l': Ledger)
    requires Core(l) && Next(l, ev, l')
    ensures Persists(l, l')
    ensures Timely(l, ev) ==> KeepsClosed(l, l')
  {
    match ev
    case StartRun(q, now, owner) => StartPersists(l, q, now, owner);
    case SettleRun(t, cost, failed, estimated, status) => SettleStepPersists(l, t, cost, failed, estimated, status);
    case OperatorRecover(run, company) => RecoverPersists(l, run, company);
    case Uncertain(t) => UncertainPersists(l, t);
    case OperatorControl(run, company, action) => ControlPersists(l, run, company, action);
    case _ =>
  }

  lemma RunPersists(states: seq<Ledger>, events: seq<Event>, m: nat, n: nat)
    requires Behavior(states, events) && m <= n < |states|
    ensures Persists(states[m], states[n])
  {
    forall l | Initial(l) ensures Core(l) {
      InitialInv(l);
    }
    forall l, ev, l' | Core(l) && Next(l, ev, l') ensures Core(l') && Persists(l, l') {
      StepKeepsCore(l, ev, l');
      StepPersists(l, ev, l');
    }
    Ordered(Initial, Next, (l: Ledger) => Core(l), Persists, states, events, m, n);
  }

  /** Closed is absorbing over timely runs. */
  lemma ClosedForever(states: seq<Ledger>, events: seq<Event>, m: nat, n: nat)
    requires TimelyBehavior(states, events) && m <= n < |states|
    ensures KeepsClosed(states[m], states[n])
  {
    forall l | Initial(l) ensures Core(l) {
      InitialInv(l);
    }
    forall l, ev, l' | Core(l) && TimelyNext(l, ev, l') ensures Core(l') && KeepsClosed(l, l') {
      StepKeepsCore(l, ev, l');
      StepPersists(l, ev, l');
    }
    Ordered(Initial, TimelyNext, (l: Ledger) => Core(l), KeepsClosed, states, events, m, n);
  }

  // ---------------------------------------------------------------- one dispatch per key

  /** The ticket a step hands out for a dispatch, if any. */
  function Dispatches(l: Ledger, ev: Event): Option<Ticket> {
    if ev.StartRun? then
      var outcome := Claim(l, ev.request, ev.now, ev.owner).1;
      if outcome.Granted? then Some(outcome.ticket) else None
    else None
  }

  /** The lease at `i` is the one written for this request, at this ceiling. */
  predicate Holds(l: Ledger, i: nat, q: ClaimRequest, owner: Id, ceiling: Money) {
    && i < |l.leases|
    && var lease := l.leases[i];
    && lease.execution == q.Execution() && lease.run == q.run && lease.owner == owner && lease.intent == q.Bound()
    && Ceiling(l.reservations, q.Execution()) == ceiling
  }

  lemma DispatchWritesLease(l: Ledger, ev: Event, l': Ledger)
    requires RowKeys(l) && Next(l, ev, l') && Dispatches(l, ev).Some?
    ensures FindLease(l.leases, ev.request.Execution()).None?
    ensures Holds(l', |l.leases|, ev.request, ev.owner, Dispatches(l, ev).value.ceiling)
  {
    ClaimShape(l, ev.request, ev.now, ev.owner);
    GrantedCeiling(l, ev.request, ev.now, ev.owner);
  }

  lemma HoldsPersists(l: Ledger, l': Ledger, i: nat, q: ClaimRequest, owner: Id, ceiling: Money)
    requires Holds(l, i, q, owner, ceiling) && Persists(l, l')
    ensures Holds(l', i, q, owner, ceiling)
  {
  }

  /** A dispatch at `m` is remembered at every later `n`: same key, run, owner, intent and ceiling. */
  lemma DispatchRemembered(states: seq<Ledger>, events: seq<Event>, m: nat, n: nat)
    requires Behavior(states, events) && m < n < |states| && Dispatches(states[m], events[m]).Some?
    ensures Holds(states[n], |states[m].leases|, events[m].request, events[m].owner,
                  Dispatches(states[m], events[m]).value.ceiling)
  {
    var l, ev, l' := states[m], events[m], states[m + 1];
    var i, ceiling := |l.leases|, Dispatches(l, ev).value.ceiling;
    assert Holds(l', i, ev.request, ev.owner, ceiling) by {
      ReachableCore(states, events, m);
      assert Next(l, ev, l');
      DispatchWritesLease(l, ev, l');
    }
    RunPersists(states, events, m + 1, n);
    HoldsPersists(l', states[n], i, ev.request, ev.owner, ceiling);
  }

  /** Over any run, in any interleaving of retries, crashes and recoveries, a company and
      idempotency key is dispatched at most once. */
  lemma AtMostOneDispatch(states: seq<Ledger>, events: seq<Event>, m: nat, n: nat)
    requires Behavior(states, events) && m < n < |events|
    requires Dispatches(states[m], events[m]).Some? && Dispatches(states[n], events[n]).Some?
    ensures events[m].request.Execution() != events[n].request.Execution()
    ensures events[m].request.run != events[n].request.run
  {
    DispatchRemembered(states, events, m, n);
    ReachableCore(states, events, n);
    DispatchWritesLease(states[n], events[n], states[n + 1]);
    assert FreshRun(states[n], events[n].request.run);
  }

  lemma HoldsReplays(l: Ledger, i: nat, first: ClaimRequest, owner: Id, ceiling: Money, q: ClaimRequest, now: Time, token: Id)
    requires LeaseKeys(l) && Holds(l, i, first, owner, ceiling) && q.Execution() == first.Execution()
    ensures
      var outcome := Claim(l, q, now, token).1;
      || outcome.Denied?
      || (outcome.Replayed? && outcome.ticket.run == first.run && outcome.ticket.owner == owner && q.Bound() == first.Bound())
  {
    ClaimShape(l, q, now, token);
    assert FindLease(l.leases, q.Execution()) == Some(i);
  }

  /** After a dispatch, every later claim with the same company and key replays that very run
      or is refused; it replays only for the same intent. */
  lemma LaterClaimReplays(states: seq<Ledger>, events: seq<Event>, m: nat, n: nat, q: ClaimRequest, now: Time, token: Id)
    requires Behavior(states, events) && m < n < |states| && Dispatches(states[m], events[m]).Some?
    requires q.company == events[m].request.company && q.key == events[m].request.key
    ensures
      var outcome, first := Claim(states[n], q, now, token).1, events[m].request;
      || outcome.Denied?
      || (outcome.Replayed? && outcome.ticket.run == first.run && outcome.ticket.owner == events[m].owner
          && q.Bound() == first.Bound())
  {
    DispatchRemembered(states, events, m, n);
    ReachableCore(states, events, n);
    HoldsReplays(states[n], |states[m].leases|, events[m].request, events[m].owner,
                 Dispatches(states[m], events[m]).value.ceiling, q, now, token);
  }

  /** Should two companies meet on one lease key, the second is refused: it never gets the other's run. */
  lemma OtherCompanyIsRefused(states: seq<Ledger>, events: seq<Event>, m: nat, n: nat, q: ClaimRequest, now: Time, token: Id)
    requires Behavior(states, events) && m < n < |states| && Dispatches(states[m], events[m]).Some?
    requires q.Execution() == events[m].request.Execution() && q.company != events[m].request.company
    ensures Claim(states[n], q, now, token).1.Denied?
  {
    DispatchRemembered(states, events, m, n);
    ReachableCore(states, events, n);
    HoldsReplays(states[n], |states[m].leases|, events[m].request, events[m].owner,
                 Dispatches(states[m], events[m]).value.ceiling, q, now, token);
  }

  // ---------------------------------------------------------------- settling is total and exact

  lemma IssuedFound(l: Ledger, t: Ticket)
    requires LeaseKeys(l) && Issued(l, t)
    ensures
      var i := FindLease(l.leases, t.execution);
      i.Some? && l.leases[i.value].run == t.run && l.leases[i.value].owner == t.owner
  {
    var k :| 0 <= k < |l.leases| && l.leases[k].execution == t.execution && l.leases[k].run == t.run
             && l.leases[k].owner == t.owner;
    var i := FindLease(l.leases, t.execution).value;
    assert i == k;
  }

  /** A genuine ticket settles exactly while its lease is running; the denials for an already
      settled reservation and for a missing run are never given. */
  lemma SettleIff(l: Ledger, t: Ticket, cost: Money, failed: bool, estimated: bool)
    requires Inv(l) && Issued(l, t)
    ensures
      var i := FindLease(l.leases, t.execution);
      i.Some? && (Settle(l, t, cost, failed, estimated).Ok? <==> l.leases[i.value].state == Running)
    ensures Settle(l, t, cost, failed, estimated).Err? ==> Settle(l, t, cost, failed, estimated).error == OwnerLost
  {
    IssuedFound(l, t);
    var i := FindLease(l.leases, t.execution).value;
    forall r | r in l.reservations && r.execution == t.execution
      ensures r.settled <==> !l.leases[i].Active()
    {
      var k :| 0 <= k < |l.reservations| && l.reservations[k] == r;
    }
    assert FindRun(l.runs, l.leases[i].run, l.leases[i].company).Some?;
  }

  lemma {:induction false} CountAtMostOne(rows: seq<Reservation>, e: Id, b: Id)
    requires DistinctReservations(rows)
    ensures Sum(rows, SettledCount(e, b)) ==
      if exists i | 0 <= i < |rows| :: rows[i].execution == e && rows[i].budget == b && rows[i].settled then 1 else 0
  {
    if rows != [] {
      CountAtMostOne(rows[..|rows| - 1], e, b);
    }
  }

  /** Each reservation has exactly one charge once its lease is closed, and none before. */
  lemma ExactlyOneCharge(l: Ledger, i: nat, k: nat)
    requires Inv(l) && i < |l.leases| && k < |l.reservations|
    requires l.reservations[k].execution == l.leases[i].execution
    ensures Sum(l.usage, UsageCount(l.reservations[k].execution, l.reservations[k].budget))
         == if l.leases[i].Active() then 0 else 1
  {
    var r := l.reservations[k];
    CountAtMostOne(l.reservations, r.execution, r.budget);
    assert Sum(l.usage, UsageCount(r.execution, r.budget)) == Sum(l.reservations, SettledCount(r.execution, r.budget));
    if j :| 0 <= j < |l.reservations| && l.reservations[j].execution == r.execution && l.reservations[j].budget == r.budget {
      assert j == k;
    }
  }

  // ---------------------------------------------------------------- the ceiling survives

  lemma {:induction false} CeilingOfUniform(rows: seq<Reservation>, e: Id, ceiling: Money)
    requires forall i | 0 <= i < |rows| && rows[i].execution == e :: rows[i].amount == ceiling
    ensures Ceiling(rows, e) == if exists i | 0 <= i < |rows| :: rows[i].execution == e then ceiling else 0
  {
    if rows != [] {
      CeilingOfUniform(rows[..|rows| - 1], e, ceiling);
    }
  }

  /** What `recover` rebuilds as a maximum over reservations is the ceiling the claim authorised. */
  lemma GrantedCeiling(l: Ledger, q: ClaimRequest, now: Time, owner: Id)
    requires RowKeys(l) && Claim(l, q, now, owner).1.Granted?
    ensures Ceiling(Start(l, q, now, owner).0.reservations, q.Execution()) == Claim(l, q, now, owner).1.ticket.ceiling
  {
    ClaimShape(l, q, now, owner);
    var (l', outcome) := Claim(l, q, now, owner);
    var ceiling := outcome.ticket.ceiling;
    var approved :| Grants(l, l', Grant(q, now, owner, ceiling, approved));
    GrantRows(l, q, ceiling, now);
    var rows := Reservations(l, q, ceiling, now).value;
    assert forall i | 0 <= i < |l.reservations| :: l.reservations[i].execution != q.Execution();
    CeilingOfUniform(l'.reservations, q.Execution(), ceiling);
    if rows != [] {
      assert l'.reservations[|l.reservations|] == rows[0];
    }
  }

  lemma {:induction false} CeilingExtended(rows: seq<Reservation>, added: seq<Reservation>, e: Id)
    requires forall i | 0 <= i < |added| :: added[i].execution != e
    ensures Ceiling(rows + added, e) == Ceiling(rows, e)
  {
    if added == [] {
      assert rows + added == rows;
    } else {
      CeilingExtended(rows, added[..|added| - 1], e);
      assert (rows + added)[..|rows + added| - 1] == rows + added[..|added| - 1];
    }
  }

  lemma {:induction false} CeilingSettled(rows: seq<Reservation>, settling: Id, e: Id)
    ensures Ceiling(SettleRows(rows, settling), e) == Ceiling(rows, e)
  {
    if rows != [] {
      CeilingSettled(rows[..|rows| - 1], settling, e);
      assert SettleRows(rows, settling)[..|rows| - 1] == SettleRows(rows[..|rows| - 1], settling);
    }
  }

  lemma LargestIsOne(rows: seq<Reservation>, e: Id, a: Money, b: Money)
    requires Largest(rows, e, a) && Largest(rows, e, b)
    ensures a == b
  {
  }

  /** An execution keeps its authorised ceiling over the whole run, so a recovery at any later time charges
      each of its reservations exactly that, as a failed estimate, and writes it on the run. */
  lemma RecoveryChargesCeiling(states: seq<Ledger>, events: seq<Event>, m: nat, n: nat)
    requires Behavior(states, events) && m < n < |states| && Dispatches(states[m], events[m]).Some?
    requires Recover(states[n], events[m].request.run, events[m].request.company).Ok?
    ensures
      var q, ceiling, l := events[m].request, Dispatches(states[m], events[m]).value.ceiling, states[n];
      var l' := Recover(l, q.run, q.company).value;
      && Charges(l, l'.usage, q.company + ":" + q.key, q.run, ceiling, true, true)
      && exists at: nat | at < |l'.runs| :: l'.runs[at].id == q.run && l'.runs[at].cost == ceiling && l'.runs[at].estimated
  {
    var q, ceiling, l := events[m].request, Dispatches(states[m], events[m]).value.ceiling, states[n];
    DispatchRemembered(states, events, m, n);
    ReachableCore(states, events, n);
    var i, at, cost := RecoverWrites(l, q.run, q.company);
    assert i == |states[m].leases|;
    CeilingIsLargest(l.reservations, q.Execution());
    LargestIsOne(l.reservations, q.Execution(), cost, ceiling);
  }

  // ---------------------------------------------------------------- approvals are used once

  /** Approvals are never lost, what one was asked for never changes, and a decision or a consumption,
      once made, stands. */
  predicate KeepsApprovals(l: Ledger, l': Ledger) {
    && |l.approvals| <= |l'.approvals|
    && (forall i | 0 <= i < |l.approvals| ::
          var a, b := l.approvals[i], l'.approvals[i];
          && a.intent == b.intent
          && (a.status != Pending ==> a.status == b.status)
          && (a.consumedBy.Some? ==> a.consumedBy == b.consumedBy && a.run == b.run))
  }

  lemma StartKeepsApprovals(l: Ledger, q: ClaimRequest, now: Time, owner: Id)
    ensures KeepsApprovals(l, Start(l, q, now, owner).0)
  {
    ClaimShape(l, q, now, owner);
    var (claimed, outcome) := Claim(l, q, now, owner);
    if outcome.Granted? {
      var approved :| Grants(l, claimed, Grant(q, now, owner, outcome.ticket.ceiling, approved));
    }
  }

  lemma ClosingKeepsApprovals(l: Ledger, t: Ticket, cost: Money, failed: bool, estimated: bool, status: RunStatus)
    ensures AfterCommit(l, SettleAndFinish(l, t, cost, failed, estimated, status)).approvals == l.approvals
  {
  }

  lemma RecoveryKeepsApprovals(l: Ledger, run: Id, company: Id)
    ensures AfterCommit(l, Recover(l, run, company)).approvals == l.approvals
  {
  }

  lemma StepKeepsApprovals(l: Ledger, ev: Event, l': Ledger)
    requires Next(l, ev, l')
    ensures KeepsApprovals(l, l')
  {
    match ev
    case StartRun(q, now, owner) => StartKeepsApprovals(l, q, now, owner);
    case SettleRun(t, cost, failed, estimated, status) => ClosingKeepsApprovals(l, t, cost, failed, estimated, status);
    case OperatorRecover(run, company) => RecoveryKeepsApprovals(l, run, company);
    case _ =>
  }

  /** Over any run: a consumed approval was approved, for exactly the intent of the execution that
      consumed it, no execution consumes two, and no later step takes it back or gives it away. */
  lemma ApprovalsUsedOnce(states: seq<Ledger>, events: seq<Event>, m: nat, n: nat)
    requires Behavior(states, events) && m <= n < |states|
    ensures SingleUse(states[m]) && KeepsApprovals(states[m], states[n])
  {
    ReachableCore(states, events, m);
    forall l, ev, l' | Next(l, ev, l') ensures KeepsApprovals(l, l') {
      StepKeepsApprovals(l, ev, l');
    }
    Ordered(Initial, Next, (l: Ledger) => true, KeepsApprovals, states, events, m, n);
  }

  /** A request that demands an approval, by its agent or by its work item. */
  predicate DemandsApproval(l: Ledger, q: ClaimRequest) {
    q.config.approvalRequired || (q.workItem.Some? && q.workItem.value in l.works && l.works[q.workItem.value].approvalRequired)
  }

  /** The approval at `i` was granted for exactly this request and used by its execution. */
  predicate UsedFor(l: Ledger, i: nat, q: ClaimRequest) {
    && i < |l.approvals| && l.approvals[i].status == Approved && l.approvals[i].intent == Some(q.Bound())
    && l.approvals[i].consumedBy == Some(q.company + ":" + q.key)
  }

  /** A dispatch that demands an approval had a usable one and used it up; no other touches any. */
  lemma DispatchUsesApproval(l: Ledger, ev: Event, l': Ledger) returns (i: nat)
    requires Next(l, ev, l') && Dispatches(l, ev).Some?
    ensures !DemandsApproval(l, ev.request) ==> l'.approvals == l.approvals
    ensures DemandsApproval(l, ev.request) ==>
      && i < |l.approvals| && UsedFor(l', i, ev.request)
      && l.approvals[i].status == Approved && l.approvals[i].consumedBy.None? && l.approvals[i].intent == Some(ev.request.Bound())
      && l.approvals[i].expiresAt.Some? && ev.now < l.approvals[i].expiresAt.value
  {
    i := 0;
    var q, t := ev.request, Dispatches(l, ev).value;
    ClaimShape(l, q, ev.now, ev.owner);
    Rules.GrantedIff(l, q, t.ceiling, ev.now, ev.owner);
    Rules.GrantWrites(l, q, t.ceiling, ev.now, ev.owner);
    Rules.KeyFound(l, q);
    if DemandsApproval(l, q) {
      assert Rules.Flagged(l, q);
      i :| i < |l.approvals| && Rules.FirstUsable(l, q, ev.now, i)
           && l'.approvals == l.approvals[i := l.approvals[i].(consumedBy := Some(q.company + ":" + q.key), run := Some(q.run))];
    }
  }

  /** Over any run, a dispatch that demanded an approval is for ever backed by one that was granted for
      exactly its request and used by nobody else. */
  lemma DemandedApprovalIsUsed(states: seq<Ledger>, events: seq<Event>, m: nat, n: nat) returns (i: nat)
    requires Behavior(states, events) && m < n < |states| && Dispatches(states[m], events[m]).Some?
    requires DemandsApproval(states[m], events[m].request)
    ensures UsedFor(states[n], i, events[m].request)
    ensures forall j | 0 <= j < |states[n].approvals| && j != i :: states[n].approvals[j].consumedBy != states[n].approvals[i].consumedBy
  {
    assert Next(states[m], events[m], states[m + 1]);
    i := DispatchUsesApproval(states[m], events[m], states[m + 1]);
    ApprovalsUsedOnce(states, events, m + 1, n);
    ApprovalsUsedOnce(states, events, n, n);
  }

  /** An approval is asked for only where one is demanded. */
  lemma AskedOnlyIfDemanded(l: Ledger, q: ClaimRequest, now: Time, owner: Id)
    requires Claim(l, q, now, owner).1 == Denied(ApprovalRequired)
    ensures DemandsApproval(l, q)
    ensures forall i | 0 <= i < |l.approvals| && l.approvals[i].intent == Some(q.Bound()) && l.approvals[i].status == Approved
                        && l.approvals[i].company == q.company && l.approvals[i].agent == q.agent ::
      l.approvals[i].consumedBy.Some? || l.approvals[i].expiresAt.None? || l.approvals[i].expiresAt.value <= now
  {
    AskedAfterAdmission(l, q, now, owner);
    Rules.KeyFound(l, q);
    assert Rules.NoneUsable(l, q, now);
    forall i | 0 <= i < |l.approvals| ensures !Rules.Usable(l.approvals[i], q, now) {
    }
  }

  lemma AskedAfterAdmission(l: Ledger, q: ClaimRequest, now: Time, owner: Id)
    requires Claim(l, q, now, owner).1 == Denied(ApprovalRequired)
    ensures Rules.Flagged(l, q) && Rules.NoneUsable(l, q, now)
  {
    var role := l.agents[(q.company, q.agent)];
    var ceiling := AuthorizeAdapter(role).value;
    Rules.AuthorizedIff(role, ceiling);
    Rules.RefusedBeforeAdmission(l, q, ceiling, now, owner);
    Rules.KeyFound(l, q);
    Rules.WayFound(l, q);
    Rules.AdmissionInOrder(l, q, ceiling, now, owner);
  }

  // ---------------------------------------------------------------- control

  /** What an operator requests for a run is what its own runner reads next, and nobody else's lease
      is touched. */
  lemma RequestedControlIsRead(l: Ledger, t: Ticket, company: Id, action: Control)
    requires LeaseKeys(l) && Issued(l, t) && RequestControl(l, t.run, company, action).Ok?
    ensures
      var l' := RequestControl(l, t.run, company, action).value;
      && ControlAction(l', t) == action
      && forall u: Ticket | u.execution != t.execution :: ControlAction(l', u) == ControlAction(l, u)
  {
    IssuedFound(l, t);
    var l' := RequestControl(l, t.run, company, action).value;
    var i, j := FindLease(l.leases, t.execution).value, FindByRun(l.leases, company, t.run).value;
    assert i == j;
    FindLeaseRestated(l, l');
  }

  // ---------------------------------------------------------------- refusals and recoveries

  /** A refused claim dispatches nothing: no reservation, charge or run is written, no approval is
      consumed or decided, at most one is asked for, and the only change to a lease is that one
      whose time had run out is parked for recovery. */
  lemma RefusalDispatchesNothing(l: Ledger, q: ClaimRequest, now: Time, owner: Id)
    requires Claim(l, q, now, owner).1.Denied?
    ensures
      var l' := Start(l, q, now, owner).0;
      && l'.reservations == l.reservations && l'.usage == l.usage && l'.runs == l.runs && l'.policies == l.policies
      && l.approvals <= l'.approvals && |l'.approvals| <= |l.approvals| + 1
      && |l'.leases| == |l.leases|
      && forall i | 0 <= i < |l.leases| && l'.leases[i] != l.leases[i] ::
           l.leases[i].state == Running && l.leases[i].expiresAt <= now
           && l'.leases[i] == l.leases[i].(state := RecoveryNeeded)
  {
    ClaimShape(l, q, now, owner);
  }

  /** The work-item life cycle never stands in the way of a claim. */
  lemma ClaimNeverAborts(l: Ledger, q: ClaimRequest, now: Time, owner: Id)
    ensures Claim(l, q, now, owner).1 != Denied(InvalidWorkTransition)
  {
    forall ps: seq<Policy>, ceiling: Money ensures ReserveEach(l, ps, q, ceiling, now) != Err(InvalidWorkTransition) {
      ReserveEachReason(l, ps, q, ceiling, now);
    }
  }

  lemma {:induction false} ReserveEachReason(l: Ledger, ps: seq<Policy>, q: ClaimRequest, ceiling: Money, now: Time)
    ensures var r := ReserveEach(l, ps, q, ceiling, now);
            r.Err? ==> r.error == ModelNotAllowed || r.error == BudgetExceeded
  {
    if ps != [] {
      ReserveEachReason(l, ps[..|ps| - 1], q, ceiling, now);
    }
  }
}
