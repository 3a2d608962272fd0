/** The steps of the execution ledger and what every one of them keeps. */
module LedgerInvariant {
  import opened Basics
  import opened Sequences
  import opened ExecutionPolicy
  import opened ExecutionLedger
  import opened Budget

  // ---------------------------------------------------------------- steps

  datatype Event =
    | StartRun(request: ClaimRequest, now: Time, owner: Id)
    | SettleRun(ticket: Ticket, cost: Money, failed: bool, estimated: bool, status: RunStatus)
    | Uncertain(ticket: Ticket)
    | OperatorRecover(run: Id, company: Id)
    | OperatorControl(run: Id, company: Id, action: Control)
    | Decide(approval: nat, verdict: ApprovalStatus)
    | Environment

  /** A ticket that the store handed out for a lease. */
  predicate Issued(l: Ledger, t: Ticket) {
    exists i | 0 <= i < |l.leases| ::
      l.leases[i].execution == t.execution && l.leases[i].run == t.run && l.leases[i].owner == t.owner
  }

  /** A generated run identifier is new. */
  predicate FreshRun(l: Ledger, run: Id) {
    (forall i | 0 <= i < |l.runs| :: l.runs[i].id != run)
    && (forall i | 0 <= i < |l.leases| :: l.leases[i].run != run)
  }

  /** A transaction that is refused is rolled back. */
  function AfterCommit(l: Ledger, r: Result<Ledger, Denial>): Ledger {
    if r.Ok? then r.value else l
  }

  /** `settle` followed by the completion or failure of the run, in one transaction. */
  function SettleAndFinish(l: Ledger, t: Ticket, cost: Money, failed: bool, estimated: bool, status: RunStatus):
    Result<Ledger, Denial>
  {
    var settled := Settle(l, t, cost, failed, estimated);
    if settled.Err? then settled
    else
      var found := FindLease(l.leases, t.execution);
      var company := if found.Some? then l.leases[found.value].company else "";
      Ok(settled.value.(runs := FinishRun(settled.value.runs, t.run, company, status, l.clock)))
  }

  /** Everything the rest of the control plane may do to the tables between two steps:
      time passes, agents and work items change, policies are added, paused or given
      another limit, other usage is recorded and other approvals are asked for. */
  predicate Interferes(l: Ledger, l': Ledger) {
    && l.clock <= l'.clock
    && l'.leases == l.leases && l'.reservations == l.reservations && l'.runs == l.runs
    && |l.policies| <= |l'.policies| && DistinctPolicies(l'.policies)
    && (forall i | 0 <= i < |l.policies| ::
          l'.policies[i].id == l.policies[i].id && l'.policies[i].period == l.policies[i].period)
    && l.usage <= l'.usage
    && (forall i | |l.usage| <= i < |l'.usage| :: l'.usage[i].execution.None?)
    && l.approvals <= l'.approvals
    && (forall i | |l.approvals| <= i < |l'.approvals| ::
          l'.approvals[i].intent.None? && l'.approvals[i].consumedBy.None?)
  }

  predicate Next(l: Ledger, ev: Event, l': Ledger) {
    match ev
    case StartRun(q, now, owner) => now <= l.clock && FreshRun(l, q.run) && l' == Start(l, q, now, owner).0
    case SettleRun(t, cost, failed, estimated, status) =>
      Issued(l, t) && l' == AfterCommit(l, SettleAndFinish(l, t, cost, failed, estimated, status))
    case Uncertain(t) => Issued(l, t) && l' == AfterCommit(l, MarkUncertain(l, t))
    case OperatorRecover(run, company) => l' == AfterCommit(l, Recover(l, run, company))
    case OperatorControl(run, company, action) => l' == AfterCommit(l, RequestControl(l, run, company, action))
    case Decide(i, status) =>
      status != Pending && l' == if Resolve(l, i, status).Some? then Resolve(l, i, status).value else l
    case Environment => Interferes(l, l')
  }

  /** The one step of the code that needs its caller to be in time: `mark_uncertain` on a lease
      that has been settled or recovered meanwhile. */
  predicate Timely(l: Ledger, ev: Event) {
    ev.Uncertain? ==>
      forall i | 0 <= i < |l.leases| && l.leases[i].execution == ev.ticket.execution :: l.leases[i].Active()
  }

  // ---------------------------------------------------------------- invariant

  /** One lease per execution and per run, and every lease has its run. */
  predicate LeaseKeys(l: Ledger) {
    && (forall i, j | 0 <= i < j < |l.leases| :: l.leases[i].execution != l.leases[j].execution)
    && (forall i, j | 0 <= i < j < |l.leases| :: l.leases[i].run != l.leases[j].run)
    && (forall i | 0 <= i < |l.leases| :: FindRun(l.runs, l.leases[i].run, l.leases[i].company).Some?)
  }

  predicate Budgeted(policies: seq<Policy>, budget: Id) {
    exists p | 0 <= p < |policies| :: policies[p].id == budget
  }

  /** Reservations and charges belong to a lease, reservations to a policy, and keys are unique. */
  predicate RowKeys(l: Ledger) {
    && (forall i | 0 <= i < |l.reservations| :: FindLease(l.leases, l.reservations[i].execution).Some?)
    && (forall i | 0 <= i < |l.usage| && l.usage[i].execution.Some? ::
          FindLease(l.leases, l.usage[i].execution.value).Some?)
    && (forall i | 0 <= i < |l.reservations| :: Budgeted(l.policies, l.reservations[i].budget))
    && DistinctReservations(l.reservations)
    && DistinctPolicies(l.policies)
  }

  /** All reservations of one execution hold the same ceiling. */
  predicate Uniform(l: Ledger) {
    forall i, j | 0 <= i < |l.reservations| && 0 <= j < |l.reservations|
                  && l.reservations[i].execution == l.reservations[j].execution ::
      l.reservations[i].amount == l.reservations[j].amount
  }

  /** A reservation is settled exactly when its lease is closed. */
  predicate Coupled(l: Ledger) {
    forall i, k | 0 <= i < |l.leases| && 0 <= k < |l.reservations|
                  && l.leases[i].execution == l.reservations[k].execution ::
      l.reservations[k].settled <==> !l.leases[i].Active()
  }

  function UsageCount(execution: Id, budget: Id): Usage -> int {
    (u: Usage) => if u.execution == Some(execution) && u.budget == budget then 1 else 0
  }

  function SettledCount(execution: Id, budget: Id): Reservation -> int {
    (r: Reservation) => if r.execution == execution && r.budget == budget && r.settled then 1 else 0
  }

  /** Every execution has been charged to a budget exactly as often as it settled a reservation of it. */
  ghost predicate Balanced(l: Ledger) {
    forall e: Id, b: Id :: Sum(l.usage, UsageCount(e, b)) == Sum(l.reservations, SettledCount(e, b))
  }

  /** At most one lease of a resource is running or waiting for recovery. */
  predicate Exclusive(l: Ledger) {
    forall i, j | 0 <= i < j < |l.leases|
                  && l.leases[i].company == l.leases[j].company && l.leases[i].resource == l.leases[j].resource ::
      !(l.leases[i].Active() && l.leases[j].Active())
  }

  /** An approval is consumed at most once, by an execution of exactly the approved intent. */
  predicate SingleUse(l: Ledger) {
    && (forall i | 0 <= i < |l.approvals| && l.approvals[i].consumedBy.Some? ::
          && l.approvals[i].status == Approved
          && var found := FindLease(l.leases, l.approvals[i].consumedBy.value);
             found.Some? && l.approvals[i].intent == Some(l.leases[found.value].intent))
    && (forall i, j | 0 <= i < j < |l.approvals| && l.approvals[i].consumedBy.Some? ::
          l.approvals[i].consumedBy != l.approvals[j].consumedBy)
  }

  predicate OpenRequest(a: Approval, digest: Digest, now: Time) {
    a.status == Pending && a.intent == Some(digest) && a.expiresAt.Some? && a.expiresAt.value > now
  }

  /** At most one unexpired pending approval per intent. */
  predicate OnePending(l: Ledger) {
    && (forall i | 0 <= i < |l.approvals| && l.approvals[i].intent.Some? ::
          && l.approvals[i].company == l.approvals[i].intent.value.intent.company
          && l.approvals[i].agent == l.approvals[i].intent.value.intent.agent)
    && (forall i, j | 0 <= i < j < |l.approvals| && l.approvals[i].intent.Some?
                      && OpenRequest(l.approvals[i], l.approvals[i].intent.value, l.clock) ::
          !OpenRequest(l.approvals[j], l.approvals[i].intent.value, l.clock))
  }

  /** What every step keeps, whatever its callers do. */
  ghost predicate Core(l: Ledger) {
    LeaseKeys(l) && RowKeys(l) && Uniform(l) && Balanced(l) && SingleUse(l) && OnePending(l)
  }

  /** What needs `mark_uncertain` to come in time. */
  predicate Guarded(l: Ledger) {
    Coupled(l) && Exclusive(l)
  }

  ghost predicate Inv(l: Ledger) {
    Core(l) && Guarded(l)
  }

  // ---------------------------------------------------------------- the shapes a claim can take

  /** The active lease at `i` is parked for an operator if its time has run out. */
  predicate Parks(l: Ledger, l': Ledger, i: nat, now: Time) {
    i < |l.leases| && l.leases[i].Active()
    && l' == l.(leases := l.leases[i := MarkAbandoned(l.leases[i], now)])
  }

  /** An approval is asked for, unless one is pending. */
  predicate Asks(l: Ledger, l': Ledger, q: ClaimRequest, now: Time) {
    && l' == l.(works := l'.works, approvals := l'.approvals)
    && (if PendingExists(l.approvals, q.company, q.agent, q.Bound(), now) then l'.approvals == l.approvals
        else l'.approvals == l.approvals
             + [Approval(q.company, q.agent, Pending, Some(now + APPROVAL_TIME), Some(q.Bound()), None, None)])
  }

  /** A granted claim: the request, the instant it read, the owner token, the authorised
      ceiling and the row of the approval it consumes. */
  datatype Grant = Grant(q: ClaimRequest, now: Time, owner: Id, ceiling: Money, approved: Option<nat>) {
    function NewLease(): Lease {
      Lease(q.Execution(), q.company, q.Target(), q.Bound(), q.run, owner, Running, Resume, now + LEASE_TIME)
    }
  }

  /** A lease with its reservations is written and at most one approval consumed. */
  predicate Grants(l: Ledger, l': Ledger, g: Grant) {
    && FindLease(l.leases, g.q.Execution()).None?
    && FindActive(l.leases, g.q.company, g.q.Target()).None?
    && (g.approved.Some? ==>
          g.approved.value < |l.approvals| && var a := l.approvals[g.approved.value];
          a.status == Approved && a.consumedBy.None? && a.intent == Some(g.q.Bound()))
    && var rows := Reservations(l, g.q, g.ceiling, g.now);
    && rows.Ok?
    && l' == l.(
         works := l'.works,
         leases := l.leases + [g.NewLease()],
         reservations := l.reservations + rows.value,
         approvals := Consume(l.approvals, g.approved, g.q.Execution(), g.q.run))
  }

  /** What a claim does to the ledger, by its outcome. */
  lemma ClaimShape(l: Ledger, q: ClaimRequest, now: Time, owner: Id)
    ensures
      var (l', outcome) := Claim(l, q, now, owner);
      match outcome
      case Granted(t) =>
        && t == Ticket(q.Execution(), q.run, owner, t.ceiling)
        && exists approved :: Grants(l, l', Grant(q, now, owner, t.ceiling, approved))
      case Replayed(t) =>
        && l' == l
        && var i := FindLease(l.leases, q.Execution());
           i.Some? && !l.leases[i.value].Active() && l.leases[i.value].intent == q.Bound()
           && t == Ticket(q.Execution(), l.leases[i.value].run, l.leases[i.value].owner, t.ceiling)
      case Denied(_) => l' == l || (exists i :: Parks(l, l', i, now)) || Asks(l, l', q, now)
  {
    var (l', outcome) := Claim(l, q, now, owner);
    if q.company in l.companies && (q.company, q.agent) in l.agents {
      var role := l.agents[(q.company, q.agent)];
      var authorized := AuthorizeAdapter(role);
      if authorized.Ok? && q.payload.encodable && role.config == q.config {
        var existing := FindLease(l.leases, q.Execution());
        var active := FindActive(l.leases, q.company, q.Target());
        if existing.Some? {
          if l.leases[existing.value].intent == q.Bound() && l.leases[existing.value].Active() {
            assert Parks(l, l', existing.value, now);
          }
        } else if active.Some? {
          assert Parks(l, l', active.value, now);
        } else {
          AdmitShape(l, q, authorized.value, now, owner);
        }
      }
    }
  }

  lemma AdmitShape(l: Ledger, q: ClaimRequest, ceiling: Money, now: Time, owner: Id)
    requires FindLease(l.leases, q.Execution()).None?
    requires FindActive(l.leases, q.company, q.Target()).None?
    ensures
      var (l', outcome) := Admit(l, q, ceiling, now, owner);
      && !outcome.Replayed?
      && (outcome.Granted? ==>
            && outcome.ticket == Ticket(q.Execution(), q.run, owner, ceiling)
            && exists approved :: Grants(l, l', Grant(q, now, owner, ceiling, approved)))
      && (outcome.Denied? ==> l' == l || Asks(l, l', q, now))
  {
    var (l', outcome) := Admit(l, q, ceiling, now, owner);
    var approved := if NeedsApproval(l.works, q)
                    then FindApproved(l.approvals, q.company, q.agent, q.Bound(), now) else None;
    if outcome.Granted? {
      assert Grants(l, l', Grant(q, now, owner, ceiling, approved));
    }
  }
}
