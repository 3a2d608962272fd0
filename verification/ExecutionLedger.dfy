/** The execution governance ledger: its tables as rows in scan order, and each
    transaction of the governance store as a function from the tables before it
    to the tables after it. */
module ExecutionLedger {
  import opened Basics
  import opened Calendar
  import opened Sequences
  import opened ExecutionPolicy

  // ---------------------------------------------------------------- tables

  datatype Resource = WorkResource(id: Id) | AgentResource(id: Id)

  datatype LeaseState = Running | RecoveryNeeded | Succeeded | Failed

  datatype Control = Pause | Resume | Terminate

  datatype Lease = Lease(
    execution: Id,
    company: Id,
    resource: Resource,
    intent: Digest,
    run: Id,
    owner: Id,
    state: LeaseState,
    control: Control,
    expiresAt: Time)
  {
    predicate Active() {
      state == Running || state == RecoveryNeeded
    }

    /** What a lease keeps for ever once it is written. */
    predicate SameIdentity(other: Lease) {
      this == other.(state := state, control := control, expiresAt := expiresAt)
    }
  }

  datatype Reservation = Reservation(execution: Id, budget: Id, amount: Money, settled: bool)

  /** `execution` is the execution recorded in the usage metadata; other usage has none. */
  datatype Usage = Usage(
    budget: Id, cost: Money, createdAt: Time, execution: Option<Id>, run: Option<Id>, failed: bool, estimated: bool)

  datatype Scope = CompanyScope | AgentScope | WorkScope | GoalScope

  datatype Policy = Policy(
    id: Id, company: Id, scope: Scope, scopeId: Option<Id>, period: Period, limit: Money, active: bool,
    allowlist: set<string>)

  datatype ApprovalStatus = Pending | Approved | Rejected | Expired | ApprovalCancelled

  datatype Approval = Approval(
    company: Id,
    agent: Id,
    status: ApprovalStatus,
    expiresAt: Option<Time>,
    intent: Option<Digest>,
    consumedBy: Option<Id>,
    run: Option<Id>)

  datatype WorkItem = WorkItem(
    company: Id, status: WorkStatus, dependencies: seq<Id>, approvalRequired: bool, acceptance: Option<Id>)

  datatype RunStatus = RunRunning | RunSucceeded | RunFailed | RunCancelled

  datatype Run = Run(
    id: Id, company: Id, agent: Id, status: RunStatus, startedAt: Time, completedAt: Option<Time>, cost: Money,
    estimated: bool)

  datatype Ledger = Ledger(
    clock: Time,
    companies: set<Id>,
    agents: map<(Id, Id), AgentRole>,
    works: map<Id, WorkItem>,
    policies: seq<Policy>,
    leases: seq<Lease>,
    reservations: seq<Reservation>,
    usage: seq<Usage>,
    approvals: seq<Approval>,
    runs: seq<Run>)

  // ---------------------------------------------------------------- queries

  function FindLease(leases: seq<Lease>, execution: Id): (r: Option<nat>)
    ensures r.Some? ==> r.value < |leases| && leases[r.value].execution == execution
    ensures r.None? ==> forall i | 0 <= i < |leases| :: leases[i].execution != execution
  {
    Find(leases, (x: Lease) => x.execution == execution)
  }

  function FindActive(leases: seq<Lease>, company: Id, resource: Resource): (r: Option<nat>)
    ensures r.Some? ==>
      var i := r.value;
      i < |leases| && leases[i].Active() && leases[i].company == company && leases[i].resource == resource
    ensures r.None? ==>
      forall i | 0 <= i < |leases| && leases[i].company == company && leases[i].resource == resource ::
        !leases[i].Active()
  {
    Find(leases, (x: Lease) => x.company == company && x.resource == resource && x.Active())
  }

  function FindByRun(leases: seq<Lease>, company: Id, run: Id): (r: Option<nat>)
    ensures r.Some? ==>
      r.value < |leases| && leases[r.value].company == company && leases[r.value].run == run
    ensures r.None? ==>
      forall i | 0 <= i < |leases| && leases[i].company == company :: leases[i].run != run
  {
    Find(leases, (x: Lease) => x.company == company && x.run == run)
  }

  function FindRun(runs: seq<Run>, id: Id, company: Id): (r: Option<nat>)
    ensures r.Some? ==> r.value < |runs| && runs[r.value].id == id && runs[r.value].company == company
    ensures r.None? ==> forall i | 0 <= i < |runs| && runs[i].id == id :: runs[i].company != company
  {
    Find(runs, (x: Run) => x.id == id && x.company == company)
  }

  /** An approval of exactly this intent that is still valid at `now`. */
  predicate ValidApproval(a: Approval, company: Id, agent: Id, digest: Digest, now: Time) {
    a.company == company && a.agent == agent && a.intent == Some(digest)
    && a.expiresAt.Some? && a.expiresAt.value > now
  }

  function FindApproved(rows: seq<Approval>, company: Id, agent: Id, digest: Digest, now: Time): (r: Option<nat>)
    ensures r.Some? ==>
      var i := r.value;
      i < |rows| && ValidApproval(rows[i], company, agent, digest, now)
      && rows[i].status == Approved && rows[i].consumedBy.None?
    ensures r.None? ==>
      forall i | 0 <= i < |rows| && ValidApproval(rows[i], company, agent, digest, now) && rows[i].status == Approved ::
        rows[i].consumedBy.Some?
  {
    Find(rows, (a: Approval) =>
      ValidApproval(a, company, agent, digest, now) && a.status == Approved && a.consumedBy.None?)
  }

  predicate PendingExists(rows: seq<Approval>, company: Id, agent: Id, digest: Digest, now: Time) {
    exists i | 0 <= i < |rows| :: rows[i].status == Pending && ValidApproval(rows[i], company, agent, digest, now)
  }

  // Weights: what one row contributes to a budget.

  /** Cost of a usage row of `budget` in the window that starts at `start`. */
  function RawWeight(budget: Id, start: Time): Usage -> int {
    (u: Usage) => if u.budget == budget && start <= u.createdAt then u.cost else 0
  }

  /** Outstanding amount of a reservation row. */
  function ReservedWeight(budget: Id): Reservation -> int {
    (r: Reservation) => if r.budget == budget && !r.settled then r.amount else 0
  }

  function Consumed(usage: seq<Usage>, budget: Id, start: Time): int {
    Sum(usage, RawWeight(budget, start))
  }

  function Reserved(rows: seq<Reservation>, budget: Id): int {
    Sum(rows, ReservedWeight(budget))
  }

  // ---------------------------------------------------------------- claim

  datatype ClaimRequest = ClaimRequest(
    company: Id,
    agent: Id,
    config: AgentConfig,
    payload: Payload,
    workItem: Option<Id>,
    goal: Option<Id>,
    actor: Id,
    key: string,
    run: Id)
  {
    function Execution(): Id {
      ExecutionId(company, key)
    }

    function Target(): Resource {
      if workItem.Some? then WorkResource(workItem.value) else AgentResource(agent)
    }

    /** The digest an approval and the lease are bound to. */
    function Bound(): Digest {
      BoundDigest(Intent(company, agent, config, workItem, payload), key, actor)
    }
  }

  datatype Ticket = Ticket(execution: Id, run: Id, owner: Id, ceiling: Money)

  datatype Outcome =
    | Granted(ticket: Ticket)
    | Replayed(ticket: Ticket)
    | Denied(reason: Denial)

  const LEASE_TIME: nat := 1_000_000_000
  const APPROVAL_TIME: nat := 86_400_000_000

  /** `claim`: admission of one dispatch. `now` is read before the company lock is
      waited for, so it may lie behind the clock; `owner` is the fresh owner token. */
  function Claim(l: Ledger, q: ClaimRequest, now: Time, owner: Id): (Ledger, Outcome) {
    if q.company !in l.companies then (l, Denied(CompanyNotFound))
    else if (q.company, q.agent) !in l.agents then (l, Denied(AgentNotFound))
    else
      var role := l.agents[(q.company, q.agent)];
      var authorized := AuthorizeAdapter(role);
      if authorized.Err? then (l, Denied(authorized.error))
      else if !q.payload.encodable then (l, Denied(InvalidIntent))
      else if role.config != q.config then (l, Denied(ConfigurationChanged))
      else
        var existing := FindLease(l.leases, q.Execution());
        if existing.Some? then Revisit(l, existing.value, q.Bound(), authorized.value, now)
        else
          var active := FindActive(l.leases, q.company, q.Target());
          if active.Some? then Obstructed(l, active.value, now)
          else Admit(l, q, authorized.value, now, owner)
  }

  /** A lease with this key exists: replay it, or refuse. */
  function Revisit(l: Ledger, i: nat, digest: Digest, ceiling: Money, now: Time): (Ledger, Outcome)
    requires i < |l.leases|
  {
    var lease := l.leases[i];
    if lease.intent != digest then (l, Denied(KeyConflict))
    else if lease.Active() then Obstructed(l, i, now)
    else (l, Replayed(Ticket(lease.execution, lease.run, lease.owner, ceiling)))
  }

  /** `_mark_abandoned`: a lease whose time has run out waits for an operator. */
  function MarkAbandoned(lease: Lease, now: Time): Lease {
    if lease.state == Running && lease.expiresAt <= now then lease.(state := RecoveryNeeded) else lease
  }

  function Obstructed(l: Ledger, i: nat, now: Time): (Ledger, Outcome)
    requires i < |l.leases|
  {
    var lease := MarkAbandoned(l.leases[i], now);
    (l.(leases := l.leases[i := lease]),
     Denied(if lease.state == RecoveryNeeded then RecoveryRequired else InProgress))
  }

  /** Heartbeat, work item and approval gates, in that order. */
  function Admit(l: Ledger, q: ClaimRequest, ceiling: Money, now: Time, owner: Id): (Ledger, Outcome) {
    if q.payload.heartbeat && RecentlyRun(l.runs, q.company, q.agent, now, q.config.heartbeatInterval * SECOND) then
      (l, Denied(HeartbeatNotElapsed))
    else
      var gate := WorkGate(l.works, q.company, q.workItem);
      if gate.Some? then (l, Denied(gate.value))
      else if !NeedsApproval(l.works, q) then Commit(l, q, ceiling, now, owner, None)
      else
        var approved := FindApproved(l.approvals, q.company, q.agent, q.Bound(), now);
        if approved.None? then AwaitApproval(l, q, now) else Commit(l, q, ceiling, now, owner, approved)
  }

  /** Latest run of an agent by start time, ties broken by identifier. */
  function LatestRun(runs: seq<Run>, company: Id, agent: Id): Option<Run> {
    if runs == [] then None
    else
      var rest := LatestRun(runs[..|runs| - 1], company, agent);
      var run := runs[|runs| - 1];
      if run.company != company || run.agent != agent then rest
      else if rest.None? || rest.value.startedAt < run.startedAt
              || (rest.value.startedAt == run.startedAt && StringLess(rest.value.id, run.id))
      then Some(run)
      else rest
  }

  predicate RecentlyRun(runs: seq<Run>, company: Id, agent: Id, now: Time, interval: nat) {
    var latest := LatestRun(runs, company, agent);
    latest.Some? &&
    var at := if latest.value.completedAt.Some? then latest.value.completedAt.value else latest.value.startedAt;
    now < at + interval
  }

  predicate Accepted(works: map<Id, WorkItem>, company: Id, dependency: Id) {
    dependency in works && works[dependency].company == company && works[dependency].status == Completed
  }

  function WorkGate(works: map<Id, WorkItem>, company: Id, workItem: Option<Id>): Option<Denial> {
    if workItem.None? then None
    else if workItem.value !in works || works[workItem.value].company != company then Some(WorkNotFound)
    else
      var work := works[workItem.value];
      if work.status == Completed || work.status == Cancelled then Some(WorkClosed)
      else if exists d | d in work.dependencies :: !Accepted(works, work.company, d) then Some(DependencyNotAccepted)
      else None
  }

  predicate NeedsApproval(works: map<Id, WorkItem>, q: ClaimRequest) {
    q.config.approvalRequired
    || (q.workItem.Some? && q.workItem.value in works && works[q.workItem.value].approvalRequired)
  }

  /** Move a work item along its life cycle, or fail as the aggregate does. */
  function TransitionWork(works: map<Id, WorkItem>, workItem: Option<Id>, to: WorkStatus): Result<map<Id, WorkItem>, Denial>
  {
    if workItem.None? || workItem.value !in works then Ok(works)
    else if !CanTransition(works[workItem.value].status, to) then Err(InvalidWorkTransition)
    else Ok(works[workItem.value := works[workItem.value].(status := to)])
  }

  /** No approval yet: ask once, park the work item, and refuse. */
  function AwaitApproval(l: Ledger, q: ClaimRequest, now: Time): (Ledger, Outcome) {
    var works := TransitionWork(l.works, q.workItem, AwaitingApproval);
    if works.Err? then (l, Denied(works.error))
    else
      var approvals :=
        if PendingExists(l.approvals, q.company, q.agent, q.Bound(), now) then l.approvals
        else l.approvals + [Approval(q.company, q.agent, Pending, Some(now + APPROVAL_TIME), Some(q.Bound()), None, None)];
      (l.(works := works.value, approvals := approvals), Denied(ApprovalRequired))
  }

  predicate Selects(p: Policy, q: ClaimRequest) {
    p.company == q.company && p.active &&
    (|| p.scope == CompanyScope
     || (p.scope == AgentScope && p.scopeId == Some(q.agent))
     || (p.scope == WorkScope && p.scopeId == q.workItem)
     || (p.scope == GoalScope && p.scopeId == q.goal)
     || q.config.budgetPolicy == Some(p.id))
  }

  function Selected(policies: seq<Policy>, q: ClaimRequest): seq<Policy> {
    Filter(policies, (p: Policy) => Selects(p, q))
  }

  /** One policy: the model must be allowed and the ceiling must still fit. */
  function CheckPolicy(l: Ledger, p: Policy, model: string, ceiling: Money, now: Time): Option<Denial> {
    if p.allowlist != {} && model !in p.allowlist then Some(ModelNotAllowed)
    else if Consumed(l.usage, p.id, PeriodStart(p.period, now)) + Reserved(l.reservations, p.id) + ceiling > p.limit then
      Some(BudgetExceeded)
    else None
  }

  /** Reserve the ceiling against every selected policy, or refuse at the first that does not fit. */
  function ReserveEach(l: Ledger, ps: seq<Policy>, q: ClaimRequest, ceiling: Money, now: Time):
    Result<seq<Reservation>, Denial>
  {
    if ps == [] then Ok([])
    else
      var rest := ReserveEach(l, ps[..|ps| - 1], q, ceiling, now);
      var p := ps[|ps| - 1];
      if rest.Err? then rest
      else
        var refused := CheckPolicy(l, p, q.config.model, ceiling, now);
        if refused.Some? then Err(refused.value)
        else Ok(rest.value + [Reservation(q.Execution(), p.id, ceiling, false)])
  }

  function Reservations(l: Ledger, q: ClaimRequest, ceiling: Money, now: Time): Result<seq<Reservation>, Denial> {
    var ps := Selected(l.policies, q);
    if ceiling > 0 && ps == [] then Err(BudgetRequired)
    else if q.config.budgetPolicy.Some? && !(exists p | p in ps :: p.id == q.config.budgetPolicy.value) then
      Err(BudgetInactive)
    else ReserveEach(l, ps, q, ceiling, now)
  }

  /** Write lease, reservations and consumed approval in one transaction. */
  function Commit(l: Ledger, q: ClaimRequest, ceiling: Money, now: Time, owner: Id, approved: Option<nat>): (Ledger, Outcome)
    requires approved.Some? ==> approved.value < |l.approvals|
  {
    var reservations := Reservations(l, q, ceiling, now);
    var works := TransitionWork(l.works, q.workItem, WorkRunning);
    if reservations.Err? then (l, Denied(reservations.error))
    else if works.Err? then (l, Denied(works.error))
    else
      var e := q.Execution();
      var lease := Lease(e, q.company, q.Target(), q.Bound(), q.run, owner, Running, Resume, now + LEASE_TIME);
      (l.(leases := l.leases + [lease],
          reservations := l.reservations + reservations.value,
          approvals := Consume(l.approvals, approved, e, q.run),
          works := ClearAcceptance(works.value, q.workItem)),
       Granted(Ticket(e, q.run, owner, ceiling)))
  }

  function Consume(rows: seq<Approval>, approved: Option<nat>, execution: Id, run: Id): seq<Approval>
    requires approved.Some? ==> approved.value < |rows|
  {
    if approved.None? then rows
    else rows[approved.value := rows[approved.value].(consumedBy := Some(execution), run := Some(run))]
  }

  function ClearAcceptance(works: map<Id, WorkItem>, workItem: Option<Id>): map<Id, WorkItem> {
    if workItem.None? || workItem.value !in works then works
    else works[workItem.value := works[workItem.value].(acceptance := None)]
  }

  /** The runner's admission transaction: claim and start the run, then commit both. */
  function Start(l: Ledger, q: ClaimRequest, now: Time, owner: Id): (Ledger, Outcome) {
    var (claimed, outcome) := Claim(l, q, now, owner);
    if outcome.Granted? then
      (claimed.(runs := claimed.runs + [Run(q.run, q.company, q.agent, RunRunning, l.clock, None, 0, false)]), outcome)
    else (claimed, outcome)
  }

  // ---------------------------------------------------------------- settle

  function SettleRow(r: Reservation, execution: Id): Reservation {
    if r.execution == execution then r.(settled := true) else r
  }

  function SettleRows(rows: seq<Reservation>, execution: Id): (r: seq<Reservation>)
    ensures |r| == |rows|
    ensures forall i | 0 <= i < |rows| :: r[i] == SettleRow(rows[i], execution)
  {
    seq(|rows|, i requires 0 <= i < |rows| => SettleRow(rows[i], execution))
  }

  datatype Charge = Charge(execution: Id, run: Id, cost: Money, failed: bool, estimated: bool, at: Time)

  function ChargeRow(c: Charge, budget: Id): Usage {
    Usage(budget, c.cost, c.at, Some(c.execution), Some(c.run), c.failed, c.estimated)
  }

  /** One usage row for each reservation of the execution. */
  function ChargeRows(rows: seq<Reservation>, c: Charge): seq<Usage> {
    if rows == [] then []
    else
      var rest := ChargeRows(rows[..|rows| - 1], c);
      var r := rows[|rows| - 1];
      if r.execution == c.execution then rest + [ChargeRow(c, r.budget)] else rest
  }

  /** `settle`: turn every reservation of the execution into a charge and close the lease. */
  function Settle(l: Ledger, t: Ticket, cost: Money, failed: bool, estimated: bool): Result<Ledger, Denial> {
    var found := FindLease(l.leases, t.execution);
    if found.None? || l.leases[found.value].owner != t.owner || l.leases[found.value].state != Running then
      Err(OwnerLost)
    else if exists r | r in l.reservations :: r.execution == t.execution && r.settled then Err(AlreadySettled)
    else
      var i := found.value;
      var run := FindRun(l.runs, t.run, l.leases[i].company);
      if run.None? then Err(RunNotFound)
      else
        Ok(l.(leases := l.leases[i := l.leases[i].(state := if failed then Failed else Succeeded)],
              reservations := SettleRows(l.reservations, t.execution),
              usage := l.usage + ChargeRows(l.reservations, Charge(t.execution, t.run, cost, failed, estimated, l.clock)),
              runs := l.runs[run.value := l.runs[run.value].(cost := cost, estimated := estimated)]))
  }

  /** `mark_uncertain`: the effects are unknown. Only the owner is checked, not the state. */
  function MarkUncertain(l: Ledger, t: Ticket): Result<Ledger, Denial> {
    var found := FindLease(l.leases, t.execution);
    if found.None? || l.leases[found.value].owner != t.owner then Err(OwnerLost)
    else
      var i := found.value;
      Ok(l.(leases := l.leases[i := l.leases[i].(state := RecoveryNeeded, expiresAt := l.clock)]))
  }

  // ---------------------------------------------------------------- operator

  /** Largest reserved amount of an execution, zero when it reserved nothing. */
  function Ceiling(rows: seq<Reservation>, execution: Id): Money {
    if rows == [] then 0
    else
      var rest := Ceiling(rows[..|rows| - 1], execution);
      var r := rows[|rows| - 1];
      if r.execution == execution && rest < r.amount then r.amount else rest
  }

  function FinishRun(runs: seq<Run>, run: Id, company: Id, status: RunStatus, now: Time): seq<Run> {
    var found := FindRun(runs, run, company);
    if found.None? || runs[found.value].status != RunRunning then runs
    else runs[found.value := runs[found.value].(status := status, completedAt := Some(now))]
  }

  /** The abandoned lease at `i`, settled as failed at the ceiling its reservations hold. */
  function SettleAbandoned(l: Ledger, i: nat): Result<Ledger, Denial>
    requires i < |l.leases|
  {
    var lease := l.leases[i];
    var reopened := l.(leases := l.leases[i := lease.(state := Running)]);
    var ceiling := Ceiling(l.reservations, lease.execution);
    Settle(reopened, Ticket(lease.execution, lease.run, lease.owner, ceiling), ceiling, true, true)
  }

  /** `recover`: an operator closes an abandoned lease as failed, at the full ceiling. */
  function Recover(l: Ledger, run: Id, company: Id): Result<Ledger, Denial> {
    var found := FindByRun(l.leases, company, run);
    if found.None? then Err(ExecutionNotFound)
    else if !l.leases[found.value].Active() || l.leases[found.value].expiresAt > l.clock then Err(NotAbandoned)
    else
      var settled := SettleAbandoned(l, found.value);
      if settled.Err? then settled else CloseOut(settled.value, l.leases[found.value].resource, run, company)
  }

  /** The rest of a recovery: fail the run and the work item. */
  function CloseOut(l: Ledger, resource: Resource, run: Id, company: Id): Result<Ledger, Denial> {
    var at := FindRun(l.runs, run, company);
    if at.Some? && l.runs[at.value].status == RunRunning && (company, l.runs[at.value].agent) !in l.agents then
      Err(RecoveryAgentRequired)
    else
      var works := TransitionWork(l.works, if resource.WorkResource? then Some(resource.id) else None, WorkFailed);
      if works.Err? then Err(works.error)
      else Ok(l.(runs := FinishRun(l.runs, run, company, RunFailed, l.clock), works := works.value))
  }

  /** `request_control`: pause, resume or terminate a running process. */
  function RequestControl(l: Ledger, run: Id, company: Id, action: Control): Result<Ledger, Denial> {
    var found := FindByRun(l.leases, company, run);
    var at := Find(l.runs, (x: Run) => x.id == run);
    if found.None? || at.None? then Err(ExecutionNotFound)
    else if (company, l.runs[at.value].agent) !in l.agents then Err(AgentNotFound)
    else if l.leases[found.value].state != Running then Err(NotRunning)
    else if l.agents[(company, l.runs[at.value].agent)].config.adapterType != "process" then Err(ControlNotSupported)
    else Ok(l.(leases := l.leases[found.value := l.leases[found.value].(control := action)]))
  }

  /** `control_action`: what the supervising runner reads; a lost lease reads as terminate. */
  function ControlAction(l: Ledger, t: Ticket): Control {
    var found := FindLease(l.leases, t.execution);
    if found.None? || l.leases[found.value].owner != t.owner then Terminate else l.leases[found.value].control
  }

  /** `resolve_approval`: only a pending approval is decided. */
  function Resolve(l: Ledger, i: nat, status: ApprovalStatus): Option<Ledger> {
    if i >= |l.approvals| || l.approvals[i].status != Pending then None
    else Some(l.(approvals := l.approvals[i := l.approvals[i].(status := status)]))
  }
}
