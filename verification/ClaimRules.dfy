/** What a claim demands, in which order it refuses, and what it writes, field by field and without the
    functions that compute it. */
module ClaimRules {
  import opened Basics
  import opened Calendar
  import opened Sequences
  import opened Sorting
  import opened ExecutionPolicy
  import opened ExecutionLedger

  // ---------------------------------------------------------------- the demands

  predicate Known(l: Ledger, q: ClaimRequest) {
    q.company in l.companies && (q.company, q.agent) in l.agents
  }

  predicate Permitted(c: AgentConfig) {
    "work.execute" in c.permissions && "adapter:" + c.adapterType in c.permissions && "tool:" + c.action in c.permissions
  }

  /** The ceiling a role may run at: a builtin at nothing, any other with its three permissions and a declared
      cost of at most a million dollars. */
  predicate Authorized(role: AgentRole, ceiling: Money) {
    && role.status == "active"
    && (if role.config.adapterType == "builtin" then ceiling == 0
        else Permitted(role.config) && role.config.maxCost == Some(Micros(ceiling)) && ceiling <= 1_000_000_000_000)
  }

  predicate Cleared(l: Ledger, q: ClaimRequest, ceiling: Money) {
    Known(l, q) && Authorized(l.agents[(q.company, q.agent)], ceiling)
  }

  predicate Unaltered(l: Ledger, q: ClaimRequest)
    requires Known(l, q)
  {
    q.payload.encodable && l.agents[(q.company, q.agent)].config == q.config
  }

  /** What the lease and an approval are bound to. */
  function Binding(q: ClaimRequest): Digest {
    Digest(Intent(q.company, q.agent, q.config, q.workItem, q.payload), q.key + ":" + q.actor)
  }

  function ResourceOf(q: ClaimRequest): Resource {
    match q.workItem
    case Some(id) => WorkResource(id)
    case None => AgentResource(q.agent)
  }

  /** The lease at `i` has the key of the request. */
  predicate HasKey(l: Ledger, q: ClaimRequest, i: nat) {
    && i < |l.leases| && l.leases[i].execution == q.company + ":" + q.key
    && forall k | 0 <= k < i :: l.leases[k].execution != q.company + ":" + q.key
  }

  predicate NewKey(l: Ledger, q: ClaimRequest) {
    forall i | 0 <= i < |l.leases| :: l.leases[i].execution != q.company + ":" + q.key
  }

  predicate Open(lease: Lease) {
    lease.state == Running || lease.state == RecoveryNeeded
  }

  predicate Occupies(lease: Lease, q: ClaimRequest) {
    lease.company == q.company && lease.resource == ResourceOf(q) && Open(lease)
  }

  /** The lease at `i` holds the resource of the request. */
  predicate InTheWay(l: Ledger, q: ClaimRequest, i: nat) {
    i < |l.leases| && Occupies(l.leases[i], q) && forall k | 0 <= k < i :: !Occupies(l.leases[k], q)
  }

  predicate FreeResource(l: Ledger, q: ClaimRequest) {
    forall i | 0 <= i < |l.leases| :: !Occupies(l.leases[i], q)
  }

  predicate Mine(r: Run, q: ClaimRequest) {
    r.company == q.company && r.agent == q.agent
  }

  /** Started before, or at the same time with a smaller identifier. */
  predicate Older(a: Run, b: Run) {
    a.startedAt < b.startedAt || (a.startedAt == b.startedAt && StringLess(a.id, b.id))
  }

  predicate SameRank(a: Run, b: Run) {
    a.startedAt == b.startedAt && a.id == b.id
  }

  /** The agent's newest run by start and identifier; of equal rows the first. */
  predicate Newest(runs: seq<Run>, q: ClaimRequest, i: nat) {
    && i < |runs| && Mine(runs[i], q)
    && forall j | 0 <= j < |runs| && j != i && Mine(runs[j], q) ::
         Older(runs[j], runs[i]) || (SameRank(runs[j], runs[i]) && i < j)
  }

  lemma OlderTransitive(a: Run, b: Run, c: Run)
    requires (Older(a, b) || SameRank(a, b)) && Older(b, c)
    ensures Older(a, c)
  {
    if StringLess(a.id, b.id) && StringLess(b.id, c.id) {
      StringTransitive(a.id, b.id, c.id);
    }
  }

  lemma OlderTotal(a: Run, b: Run)
    ensures Older(a, b) || Older(b, a) || SameRank(a, b)
    ensures !(Older(a, b) && Older(b, a)) && !(Older(a, b) && SameRank(a, b))
  {
    StringTotal(a.id, b.id);
  }

  function LastSeen(r: Run): Time {
    if r.completedAt.Some? then r.completedAt.value else r.startedAt
  }

  /** A heartbeat comes no sooner than its interval after the agent's newest run. */
  predicate Rested(l: Ledger, q: ClaimRequest, now: Time) {
    q.payload.heartbeat ==>
      forall i | 0 <= i < |l.runs| && Newest(l.runs, q, i) :: LastSeen(l.runs[i]) + q.config.heartbeatInterval * 1_000_000 <= now
  }

  predicate HasWork(l: Ledger, q: ClaimRequest) {
    q.workItem.Some? ==> q.workItem.value in l.works && l.works[q.workItem.value].company == q.company
  }

  predicate WorkUnfinished(l: Ledger, q: ClaimRequest)
    requires HasWork(l, q)
  {
    q.workItem.Some? ==> l.works[q.workItem.value].status != Completed && l.works[q.workItem.value].status != Cancelled
  }

  predicate DependenciesDone(l: Ledger, q: ClaimRequest)
    requires HasWork(l, q)
  {
    q.workItem.Some? ==>
      forall d | d in l.works[q.workItem.value].dependencies ::
        d in l.works && l.works[d].company == q.company && l.works[d].status == Completed
  }

  /** An approval is demanded by the agent's policy or by the work item. */
  predicate Flagged(l: Ledger, q: ClaimRequest) {
    q.config.approvalRequired || (q.workItem.Some? && q.workItem.value in l.works && l.works[q.workItem.value].approvalRequired)
  }

  predicate ForThis(a: Approval, q: ClaimRequest, now: Time) {
    && a.company == q.company && a.agent == q.agent && a.intent == Some(Binding(q))
    && a.expiresAt.Some? && now < a.expiresAt.value
  }

  /** Granted for exactly this intent, unexpired and not used up. */
  predicate Usable(a: Approval, q: ClaimRequest, now: Time) {
    ForThis(a, q, now) && a.status == Approved && a.consumedBy == None
  }

  predicate FirstUsable(l: Ledger, q: ClaimRequest, now: Time, i: nat) {
    i < |l.approvals| && Usable(l.approvals[i], q, now) && forall k | 0 <= k < i :: !Usable(l.approvals[k], q, now)
  }

  predicate NoneUsable(l: Ledger, q: ClaimRequest, now: Time) {
    forall i | 0 <= i < |l.approvals| :: !Usable(l.approvals[i], q, now)
  }

  /** An active policy of the company that is about the whole company, this agent, this work item or this
      goal, or that the agent names. */
  predicate Applies(p: Policy, q: ClaimRequest) {
    && p.active && p.company == q.company
    && (|| q.config.budgetPolicy == Some(p.id)
        || match p.scope {
             case CompanyScope => true
             case AgentScope => p.scopeId == Some(q.agent)
             case WorkScope => p.scopeId == q.workItem
             case GoalScope => p.scopeId == q.goal
           })
  }

  function CostSince(budget: Id, start: Time): Usage -> int {
    (u: Usage) => if u.budget != budget || u.createdAt < start then 0 else u.cost
  }

  function Outstanding(budget: Id): Reservation -> int {
    (r: Reservation) => if r.budget != budget || r.settled then 0 else r.amount
  }

  predicate AllowsModel(p: Policy, q: ClaimRequest) {
    p.allowlist == {} || q.config.model in p.allowlist
  }

  predicate HasRoom(l: Ledger, p: Policy, ceiling: Money, now: Time) {
    Sum(l.usage, CostSince(p.id, PeriodStart(p.period, now))) + Sum(l.reservations, Outstanding(p.id)) + ceiling <= p.limit
  }

  predicate Fits(l: Ledger, p: Policy, q: ClaimRequest, ceiling: Money, now: Time) {
    AllowsModel(p, q) && HasRoom(l, p, ceiling, now)
  }

  predicate SomeBudget(l: Ledger, q: ClaimRequest) {
    exists p | p in l.policies :: Applies(p, q)
  }

  predicate NamedBudget(l: Ledger, q: ClaimRequest) {
    q.config.budgetPolicy.Some? ==> exists p | p in l.policies :: Applies(p, q) && p.id == q.config.budgetPolicy.value
  }

  predicate AllFit(l: Ledger, q: ClaimRequest, ceiling: Money, now: Time) {
    forall p | p in l.policies && Applies(p, q) :: Fits(l, p, q, ceiling, now)
  }

  /** The first applying policy that does not fit. */
  predicate FirstMisfit(l: Ledger, policies: seq<Policy>, q: ClaimRequest, ceiling: Money, now: Time, k: nat) {
    && k < |policies| && Applies(policies[k], q) && !Fits(l, policies[k], q, ceiling, now)
    && forall j | 0 <= j < k && Applies(policies[j], q) :: Fits(l, policies[j], q, ceiling, now)
  }

  // ---------------------------------------------------------------- the model meets them

  lemma AuthorizedIff(role: AgentRole, ceiling: Money)
    ensures AuthorizeAdapter(role) == Ok(ceiling) <==> Authorized(role, ceiling)
  {
  }

  lemma KeyFound(l: Ledger, q: ClaimRequest)
    ensures forall i: nat :: HasKey(l, q, i) <==> FindLease(l.leases, q.Execution()) == Some(i)
    ensures NewKey(l, q) <==> FindLease(l.leases, q.Execution()).None?
    ensures q.Bound() == Binding(q)
  {
  }

  lemma WayFound(l: Ledger, q: ClaimRequest)
    ensures forall i: nat :: InTheWay(l, q, i) <==> FindActive(l.leases, q.company, q.Target()) == Some(i)
    ensures FreeResource(l, q) <==> FindActive(l.leases, q.company, q.Target()).None?
  {
    var found := FindActive(l.leases, q.company, q.Target());
    assert q.Target() == ResourceOf(q);
    assert forall x: Lease :: Occupies(x, q) <==> x.company == q.company && x.resource == q.Target() && x.Active();
  }

  lemma {:induction false} LatestFound(runs: seq<Run>, q: ClaimRequest) returns (i: Option<nat>)
    ensures i.None? ==> LatestRun(runs, q.company, q.agent).None? && forall j | 0 <= j < |runs| :: !Mine(runs[j], q)
    ensures i.Some? ==> Newest(runs, q, i.value) && LatestRun(runs, q.company, q.agent) == Some(runs[i.value])
  {
    if runs == [] {
      i := None;
    } else {
      var n := |runs| - 1;
      i := LatestFound(runs[..n], q);
      if Mine(runs[n], q) {
        if i.None? || Older(runs[i.value], runs[n]) {
          if i.Some? {
            NewestReplaced(runs, q, i.value);
          }
          i := Some(n);
        } else {
          NewestStays(runs, q, i.value);
        }
      }
    }
  }

  lemma NewestReplaced(runs: seq<Run>, q: ClaimRequest, top: nat)
    requires |runs| > 0 && Mine(runs[|runs| - 1], q) && Newest(runs[..|runs| - 1], q, top) && Older(runs[top], runs[|runs| - 1])
    ensures Newest(runs, q, |runs| - 1)
  {
    var n := |runs| - 1;
    forall j | 0 <= j < n && Mine(runs[j], q) ensures Older(runs[j], runs[n]) {
      assert runs[..n][j] == runs[j] && runs[..n][top] == runs[top];
      if j != top {
        OlderTransitive(runs[j], runs[top], runs[n]);
      }
    }
  }

  lemma NewestStays(runs: seq<Run>, q: ClaimRequest, top: nat)
    requires |runs| > 0 && Mine(runs[|runs| - 1], q) && Newest(runs[..|runs| - 1], q, top) && !Older(runs[top], runs[|runs| - 1])
    ensures Newest(runs, q, top)
  {
    var n := |runs| - 1;
    OlderTotal(runs[top], runs[n]);
    forall j | 0 <= j < n && j != top && Mine(runs[j], q)
      ensures Older(runs[j], runs[top]) || (SameRank(runs[j], runs[top]) && top < j)
    {
      assert runs[..n][j] == runs[j] && runs[..n][top] == runs[top];
    }
  }

  lemma NewestIsOne(runs: seq<Run>, q: ClaimRequest, i: nat, j: nat)
    requires Newest(runs, q, i) && Newest(runs, q, j)
    ensures i == j
  {
    if i != j {
      OlderTotal(runs[i], runs[j]);
    }
  }

  lemma RestedIff(l: Ledger, q: ClaimRequest, now: Time)
    ensures Rested(l, q, now) <==>
      !(q.payload.heartbeat && RecentlyRun(l.runs, q.company, q.agent, now, q.config.heartbeatInterval * SECOND))
  {
    var i := LatestFound(l.runs, q);
    if i.Some? {
      forall j | 0 <= j < |l.runs| && Newest(l.runs, q, j) ensures j == i.value {
        NewestIsOne(l.runs, q, i.value, j);
      }
    }
  }

  lemma WorkGateIs(l: Ledger, q: ClaimRequest)
    ensures WorkGate(l.works, q.company, q.workItem) ==
      if !HasWork(l, q) then Some(WorkNotFound)
      else if !WorkUnfinished(l, q) then Some(WorkClosed)
      else if !DependenciesDone(l, q) then Some(DependencyNotAccepted)
      else None
  {
  }

  lemma ApprovalFound(l: Ledger, q: ClaimRequest, now: Time)
    ensures forall i: nat :: FirstUsable(l, q, now, i) <==> FindApproved(l.approvals, q.company, q.agent, q.Bound(), now) == Some(i)
    ensures NoneUsable(l, q, now) <==> FindApproved(l.approvals, q.company, q.agent, q.Bound(), now).None?
  {
    assert forall a: Approval :: Usable(a, q, now) <==>
      ValidApproval(a, q.company, q.agent, q.Bound(), now) && a.status == Approved && a.consumedBy.None?;
  }

  lemma CheckIs(l: Ledger, p: Policy, q: ClaimRequest, ceiling: Money, now: Time)
    ensures CheckPolicy(l, p, q.config.model, ceiling, now) ==
      if !AllowsModel(p, q) then Some(ModelNotAllowed)
      else if !HasRoom(l, p, ceiling, now) then Some(BudgetExceeded)
      else None
  {
    var start := PeriodStart(p.period, now);
    SumEqual(l.usage, RawWeight(p.id, start), l.usage, CostSince(p.id, start));
    SumEqual(l.reservations, ReservedWeight(p.id), l.reservations, Outstanding(p.id));
  }

  function AppliesTo(q: ClaimRequest): Policy -> bool {
    (p: Policy) => Applies(p, q)
  }

  /** The row holds the ceiling of the request against this budget. */
  predicate Held(r: Reservation, budget: Id, q: ClaimRequest, ceiling: Money) {
    r.execution == q.company + ":" + q.key && r.budget == budget && r.amount == ceiling && !r.settled
  }

  /** One row for each applying policy, in their order, at the ceiling. */
  predicate Holds(policies: seq<Policy>, which: seq<nat>, rows: seq<Reservation>, q: ClaimRequest, ceiling: Money) {
    && Picks(policies, AppliesTo(q), which) && |rows| == |which|
    && forall k | 0 <= k < |rows| :: Held(rows[k], policies[which[k]].id, q, ceiling)
  }

  lemma SelectedMore(policies: seq<Policy>, q: ClaimRequest)
    requires policies != []
    ensures
      var rest, last := policies[..|policies| - 1], policies[|policies| - 1];
      Selected(policies, q) == if Applies(last, q) then Selected(rest, q) + [last] else Selected(rest, q)
  {
    var last := policies[|policies| - 1];
    assert Applies(last, q) <==> Selects(last, q);
  }

  lemma HoldsMore(policies: seq<Policy>, last: Policy, which: seq<nat>, rows: seq<Reservation>, q: ClaimRequest, ceiling: Money)
    requires Holds(policies, which, rows, q, ceiling)
    ensures
      if Applies(last, q)
      then Holds(policies + [last], which + [|policies|], rows + [Reservation(q.Execution(), last.id, ceiling, false)], q, ceiling)
      else Holds(policies + [last], which, rows, q, ceiling)
  {
    PickMore(policies, last, AppliesTo(q), which);
    assert AppliesTo(q)(last) <==> Applies(last, q);
    assert Held(Reservation(q.Execution(), last.id, ceiling, false), last.id, q, ceiling);
  }

  /** Reserving against one more policy. */
  lemma ReserveMore(l: Ledger, ps: seq<Policy>, p: Policy, q: ClaimRequest, ceiling: Money, now: Time)
    ensures
      var rest := ReserveEach(l, ps, q, ceiling, now);
      ReserveEach(l, ps + [p], q, ceiling, now) ==
        if rest.Err? then rest
        else if !AllowsModel(p, q) then Err(ModelNotAllowed)
        else if !HasRoom(l, p, ceiling, now) then Err(BudgetExceeded)
        else Ok(rest.value + [Reservation(q.Execution(), p.id, ceiling, false)])
  {
    CheckIs(l, p, q, ceiling, now);
    assert (ps + [p])[..|ps|] == ps;
  }

  /** The reservations of a list of policies: one per applying policy if all fit, or the first misfit's reason. */
  predicate ReserveSays(l: Ledger, policies: seq<Policy>, q: ClaimRequest, ceiling: Money, now: Time,
                        r: Result<seq<Reservation>, Denial>, which: seq<nat>, k: nat)
  {
    match r
    case Ok(rows) =>
      && Holds(policies, which, rows, q, ceiling)
      && forall j | 0 <= j < |policies| && Applies(policies[j], q) :: Fits(l, policies[j], q, ceiling, now)
    case Err(e) =>
      && FirstMisfit(l, policies, q, ceiling, now, k)
      && e == if AllowsModel(policies[k], q) then BudgetExceeded else ModelNotAllowed
  }

  /** One more policy that does not apply. */
  lemma SaysSkip(l: Ledger, rest: seq<Policy>, last: Policy, q: ClaimRequest, ceiling: Money, now: Time,
                 r: Result<seq<Reservation>, Denial>, which: seq<nat>, k: nat)
    requires ReserveSays(l, rest, q, ceiling, now, r, which, k) && (r.Err? || !Applies(last, q))
    ensures ReserveSays(l, rest + [last], q, ceiling, now, r, which, k)
  {
    if r.Ok? {
      HoldsMore(rest, last, which, r.value, q, ceiling);
    }
  }

  /** One more policy that applies. */
  lemma SaysMore(l: Ledger, rest: seq<Policy>, last: Policy, q: ClaimRequest, ceiling: Money, now: Time,
                 rows: seq<Reservation>, which: seq<nat>, k: nat)
    requires ReserveSays(l, rest, q, ceiling, now, Ok(rows), which, k) && Applies(last, q)
    ensures
      var r := if !AllowsModel(last, q) then Err(ModelNotAllowed)
               else if !HasRoom(l, last, ceiling, now) then Err(BudgetExceeded)
               else Ok(rows + [Reservation(q.Execution(), last.id, ceiling, false)]);
      ReserveSays(l, rest + [last], q, ceiling, now, r, which + [|rest|], |rest|)
  {
    HoldsMore(rest, last, which, rows, q, ceiling);
  }

  /** Reserving for one more policy of the table. */
  lemma ReserveStep(l: Ledger, rest: seq<Policy>, last: Policy, q: ClaimRequest, ceiling: Money, now: Time)
    ensures
      var before := ReserveEach(l, Selected(rest, q), q, ceiling, now);
      ReserveEach(l, Selected(rest + [last], q), q, ceiling, now) ==
        if before.Err? || !Applies(last, q) then before
        else if !AllowsModel(last, q) then Err(ModelNotAllowed)
        else if !HasRoom(l, last, ceiling, now) then Err(BudgetExceeded)
        else Ok(before.value + [Reservation(q.Execution(), last.id, ceiling, false)])
  {
    var policies := rest + [last];
    assert policies[..|policies| - 1] == rest;
    SelectedMore(policies, q);
    ReserveMore(l, Selected(rest, q), last, q, ceiling, now);
  }

  lemma {:induction false} ReserveOutcome(l: Ledger, policies: seq<Policy>, q: ClaimRequest, ceiling: Money, now: Time)
    returns (which: seq<nat>, k: nat)
    ensures ReserveSays(l, policies, q, ceiling, now, ReserveEach(l, Selected(policies, q), q, ceiling, now), which, k)
  {
    if policies == [] {
      which, k := [], 0;
    } else {
      var rest, last := policies[..|policies| - 1], policies[|policies| - 1];
      which, k := ReserveOutcome(l, rest, q, ceiling, now);
      which, k := ReserveNext(l, rest, last, q, ceiling, now, which, k);
      assert policies == rest + [last];
    }
  }

  lemma ReserveNext(l: Ledger, rest: seq<Policy>, last: Policy, q: ClaimRequest, ceiling: Money, now: Time, which: seq<nat>, k: nat)
    returns (which': seq<nat>, k': nat)
    requires ReserveSays(l, rest, q, ceiling, now, ReserveEach(l, Selected(rest, q), q, ceiling, now), which, k)
    ensures
      var policies := rest + [last];
      ReserveSays(l, policies, q, ceiling, now, ReserveEach(l, Selected(policies, q), q, ceiling, now), which', k')
  {
    ReserveStep(l, rest, last, q, ceiling, now);
    var before := ReserveEach(l, Selected(rest, q), q, ceiling, now);
    if before.Err? || !Applies(last, q) {
      SaysSkip(l, rest, last, q, ceiling, now, before, which, k);
      which', k' := which, k;
    } else {
      SaysMore(l, rest, last, q, ceiling, now, before.value, which, k);
      which', k' := which + [|rest|], |rest|;
    }
  }

  lemma NoBudgetSelected(l: Ledger, q: ClaimRequest)
    ensures SomeBudget(l, q) <==> Selected(l.policies, q) != []
    ensures NamedBudget(l, q) <==>
      !(q.config.budgetPolicy.Some? && !(exists p | p in Selected(l.policies, q) :: p.id == q.config.budgetPolicy.value))
  {
    var ps := Selected(l.policies, q);
    assert forall p :: p in ps <==> p in l.policies && Applies(p, q);
    if ps != [] {
      assert ps[0] in ps;
    }
  }

  /** The budgets of a claim, in the order the tests come. */
  lemma ReservationsSay(l: Ledger, q: ClaimRequest, ceiling: Money, now: Time) returns (which: seq<nat>, k: nat)
    ensures
      var r := Reservations(l, q, ceiling, now);
      if ceiling > 0 && !SomeBudget(l, q) then r == Err(BudgetRequired)
      else if !NamedBudget(l, q) then r == Err(BudgetInactive)
      else ReserveSays(l, l.policies, q, ceiling, now, r, which, k)
  {
    NoBudgetSelected(l, q);
    which, k := ReserveOutcome(l, l.policies, q, ceiling, now);
  }

  // ---------------------------------------------------------------- what a claim answers

  predicate Admissible(l: Ledger, q: ClaimRequest, now: Time) {
    Rested(l, q, now) && HasWork(l, q) && WorkUnfinished(l, q) && DependenciesDone(l, q)
  }

  predicate Approvable(l: Ledger, q: ClaimRequest, now: Time) {
    Flagged(l, q) ==> exists i | 0 <= i < |l.approvals| :: Usable(l.approvals[i], q, now)
  }

  predicate Affordable(l: Ledger, q: ClaimRequest, ceiling: Money, now: Time) {
    (ceiling > 0 ==> SomeBudget(l, q)) && NamedBudget(l, q) && AllFit(l, q, ceiling, now)
  }

  predicate Dispatchable(l: Ledger, q: ClaimRequest, ceiling: Money, now: Time) {
    && Cleared(l, q, ceiling) && Unaltered(l, q) && NewKey(l, q) && FreeResource(l, q)
    && Admissible(l, q, now) && Approvable(l, q, now) && Affordable(l, q, ceiling, now)
  }

  lemma FlaggedIff(l: Ledger, q: ClaimRequest)
    ensures NeedsApproval(l.works, q) <==> Flagged(l, q)
  {
  }

  lemma RunningAllowed(l: Ledger, q: ClaimRequest)
    requires HasWork(l, q) && WorkUnfinished(l, q)
    ensures TransitionWork(l.works, q.workItem, WorkRunning).Ok? && TransitionWork(l.works, q.workItem, AwaitingApproval).Ok?
  {
  }

  lemma AffordableIff(l: Ledger, q: ClaimRequest, ceiling: Money, now: Time)
    ensures Reservations(l, q, ceiling, now).Ok? <==> Affordable(l, q, ceiling, now)
  {
    var which, k := ReservationsSay(l, q, ceiling, now);
    var r := Reservations(l, q, ceiling, now);
    if r.Ok? {
      forall p | p in l.policies && Applies(p, q) ensures Fits(l, p, q, ceiling, now) {
        var j :| 0 <= j < |l.policies| && l.policies[j] == p;
      }
    } else if SomeBudget(l, q) || ceiling == 0 {
      assert NamedBudget(l, q) ==> FirstMisfit(l, l.policies, q, ceiling, now, k);
    }
  }

  /** Past the key and the resource, a claim is granted exactly if it is admissible, approved where that is
      demanded, and affordable. */
  lemma AdmitIff(l: Ledger, q: ClaimRequest, ceiling: Money, now: Time, owner: Id)
    ensures Admit(l, q, ceiling, now, owner).1.Granted? <==>
      Admissible(l, q, now) && Approvable(l, q, now) && Affordable(l, q, ceiling, now)
  {
    RestedIff(l, q, now);
    WorkGateIs(l, q);
    FlaggedIff(l, q);
    ApprovalFound(l, q, now);
    AffordableIff(l, q, ceiling, now);
    if Admissible(l, q, now) {
      RunningAllowed(l, q);
    }
  }

  lemma AdmitCeiling(l: Ledger, q: ClaimRequest, ceiling: Money, now: Time, owner: Id)
    ensures Admit(l, q, ceiling, now, owner).1.Granted? ==>
      Admit(l, q, ceiling, now, owner).1.ticket == Ticket(q.company + ":" + q.key, q.run, owner, ceiling)
    ensures !Admit(l, q, ceiling, now, owner).1.Replayed?
  {
  }

  /** A claim is granted, at a ceiling, exactly if it is dispatchable at it. */
  lemma GrantedIff(l: Ledger, q: ClaimRequest, ceiling: Money, now: Time, owner: Id)
    ensures Claim(l, q, now, owner).1 == Granted(Ticket(q.company + ":" + q.key, q.run, owner, ceiling))
       <==> Dispatchable(l, q, ceiling, now)
  {
    if Known(l, q) {
      var role := l.agents[(q.company, q.agent)];
      AuthorizedIff(role, ceiling);
      KeyFound(l, q);
      WayFound(l, q);
      var authorized := AuthorizeAdapter(role);
      if authorized.Ok? {
        AuthorizedIff(role, authorized.value);
        AdmitIff(l, q, authorized.value, now, owner);
        AdmitCeiling(l, q, authorized.value, now, owner);
      }
    }
  }

  /** A claim is replayed exactly if its key has a closed lease of the same intent, and then with that
      lease's run and owner. */
  lemma ReplayedIff(l: Ledger, q: ClaimRequest, ceiling: Money, now: Time, owner: Id, i: nat)
    requires HasKey(l, q, i)
    ensures Claim(l, q, now, owner).1 == Replayed(Ticket(l.leases[i].execution, l.leases[i].run, l.leases[i].owner, ceiling))
       <==> Cleared(l, q, ceiling) && Unaltered(l, q) && l.leases[i].intent == Binding(q) && !Open(l.leases[i])
  {
    KeyFound(l, q);
    if Known(l, q) {
      AuthorizedIff(l.agents[(q.company, q.agent)], ceiling);
      var authorized := AuthorizeAdapter(l.agents[(q.company, q.agent)]);
      if authorized.Ok? {
        AuthorizedIff(l.agents[(q.company, q.agent)], authorized.value);
      }
    }
  }

  // ---------------------------------------------------------------- in which order it refuses

  /** Without a ceiling the role may run at, the claim is refused for the first of these reasons. */
  lemma RefusedUnauthorized(l: Ledger, q: ClaimRequest, now: Time, owner: Id)
    requires forall ceiling: Money :: !Cleared(l, q, ceiling)
    ensures Claim(l, q, now, owner) == (l, Denied(
      if q.company !in l.companies then CompanyNotFound
      else if (q.company, q.agent) !in l.agents then AgentNotFound
      else
        var role := l.agents[(q.company, q.agent)];
        if role.status != "active" then AgentNotRunnable
        else if !Permitted(role.config) then PermissionDenied
        else if role.config.maxCost.None? then CeilingRequired
        else InvalidCost))
  {
    if Known(l, q) {
      var role := l.agents[(q.company, q.agent)];
      var authorized := AuthorizeAdapter(role);
      if authorized.Ok? {
        assert !Cleared(l, q, authorized.value);
        AuthorizedIff(role, authorized.value);
      } else {
        assert !Cleared(l, q, 0);
      }
    }
  }

  /** A lease in the way is parked for an operator if its time has run out, and named accordingly. */
  function Blocked(l: Ledger, i: nat, now: Time): (Ledger, Outcome)
    requires i < |l.leases|
  {
    if l.leases[i].state == RecoveryNeeded then (l, Denied(RecoveryRequired))
    else if l.leases[i].expiresAt <= now then
      (l.(leases := l.leases[i := l.leases[i].(state := RecoveryNeeded)]), Denied(RecoveryRequired))
    else (l, Denied(InProgress))
  }

  lemma BlockedIs(l: Ledger, i: nat, now: Time)
    requires i < |l.leases| && Open(l.leases[i])
    ensures Obstructed(l, i, now) == Blocked(l, i, now)
  {
    assert l.leases[i := l.leases[i]] == l.leases;
  }

  /** An authorized claim is refused, or replayed, for the first of these reasons. */
  lemma RefusedBeforeAdmission(l: Ledger, q: ClaimRequest, ceiling: Money, now: Time, owner: Id)
    requires Cleared(l, q, ceiling)
    ensures !q.payload.encodable ==> Claim(l, q, now, owner) == (l, Denied(InvalidIntent))
    ensures q.payload.encodable && !Unaltered(l, q) ==> Claim(l, q, now, owner) == (l, Denied(ConfigurationChanged))
    ensures Unaltered(l, q) ==>
      && (forall i: nat | HasKey(l, q, i) ::
            Claim(l, q, now, owner) ==
              if l.leases[i].intent != Binding(q) then (l, Denied(KeyConflict))
              else if Open(l.leases[i]) then Blocked(l, i, now)
              else (l, Replayed(Ticket(l.leases[i].execution, l.leases[i].run, l.leases[i].owner, ceiling))))
      && (forall i: nat | NewKey(l, q) && InTheWay(l, q, i) :: Claim(l, q, now, owner) == Blocked(l, i, now))
      && (NewKey(l, q) && FreeResource(l, q) ==> Claim(l, q, now, owner) == Admit(l, q, ceiling, now, owner))
  {
    AuthorizedIff(l.agents[(q.company, q.agent)], ceiling);
    KeyFound(l, q);
    WayFound(l, q);
    forall i: nat | HasKey(l, q, i) && Open(l.leases[i]) ensures Obstructed(l, i, now) == Blocked(l, i, now) {
      BlockedIs(l, i, now);
    }
    forall i: nat | InTheWay(l, q, i) ensures Obstructed(l, i, now) == Blocked(l, i, now) {
      BlockedIs(l, i, now);
    }
  }

  /** A refusal for want of approval asks for one, unless one is pending, and parks the work item. */
  predicate AsksApproval(l: Ledger, l': Ledger, q: ClaimRequest, now: Time) {
    && l' == l.(works := l'.works, approvals := l'.approvals)
    && l'.works == (if q.workItem.Some? && q.workItem.value in l.works
                    then l.works[q.workItem.value := l.works[q.workItem.value].(status := AwaitingApproval)] else l.works)
    && (if exists i | 0 <= i < |l.approvals| :: ForThis(l.approvals[i], q, now) && l.approvals[i].status == Pending
        then l'.approvals == l.approvals
        else l'.approvals == l.approvals
             + [Approval(q.company, q.agent, Pending, Some(now + 86_400_000_000), Some(Binding(q)), None, None)])
  }

  /** Past key and resource, the claim is refused for the first of these reasons; only the want of an
      approval leaves something behind. */
  predicate RefusedInOrder(l: Ledger, q: ClaimRequest, ceiling: Money, now: Time, l': Ledger, outcome: Outcome) {
    if !Rested(l, q, now) then l' == l && outcome == Denied(HeartbeatNotElapsed)
    else if !HasWork(l, q) then l' == l && outcome == Denied(WorkNotFound)
    else if !WorkUnfinished(l, q) then l' == l && outcome == Denied(WorkClosed)
    else if !DependenciesDone(l, q) then l' == l && outcome == Denied(DependencyNotAccepted)
    else if Flagged(l, q) && NoneUsable(l, q, now) then AsksApproval(l, l', q, now) && outcome == Denied(ApprovalRequired)
    else if ceiling > 0 && !SomeBudget(l, q) then l' == l && outcome == Denied(BudgetRequired)
    else if !NamedBudget(l, q) then l' == l && outcome == Denied(BudgetInactive)
    else if !AllFit(l, q, ceiling, now) then
      && l' == l
      && exists k: nat | k < |l.policies| :: FirstMisfit(l, l.policies, q, ceiling, now, k)
           && outcome == Denied(if AllowsModel(l.policies[k], q) then BudgetExceeded else ModelNotAllowed)
    else outcome.Granted?
  }

  lemma AskingIs(l: Ledger, q: ClaimRequest, now: Time)
    requires HasWork(l, q) && WorkUnfinished(l, q)
    ensures
      var (l', outcome) := AwaitApproval(l, q, now);
      AsksApproval(l, l', q, now) && outcome == Denied(ApprovalRequired)
  {
    RunningAllowed(l, q);
    KeyFound(l, q);
    assert forall i | 0 <= i < |l.approvals| ::
      ForThis(l.approvals[i], q, now) <==> ValidApproval(l.approvals[i], q.company, q.agent, q.Bound(), now);
  }

  lemma BudgetRefusal(l: Ledger, q: ClaimRequest, ceiling: Money, now: Time, owner: Id, approved: Option<nat>)
    requires HasWork(l, q) && WorkUnfinished(l, q) && !Affordable(l, q, ceiling, now)
    requires approved.Some? ==> approved.value < |l.approvals|
    ensures
      var (l', outcome) := Commit(l, q, ceiling, now, owner, approved);
      && l' == l
      && if ceiling > 0 && !SomeBudget(l, q) then outcome == Denied(BudgetRequired)
         else if !NamedBudget(l, q) then outcome == Denied(BudgetInactive)
         else exists k: nat | k < |l.policies| :: FirstMisfit(l, l.policies, q, ceiling, now, k)
                && outcome == Denied(if AllowsModel(l.policies[k], q) then BudgetExceeded else ModelNotAllowed)
  {
    AffordableIff(l, q, ceiling, now);
    var which, k := ReservationsSay(l, q, ceiling, now);
  }

  lemma AdmissionInOrder(l: Ledger, q: ClaimRequest, ceiling: Money, now: Time, owner: Id)
    ensures RefusedInOrder(l, q, ceiling, now, Admit(l, q, ceiling, now, owner).0, Admit(l, q, ceiling, now, owner).1)
  {
    RestedIff(l, q, now);
    WorkGateIs(l, q);
    FlaggedIff(l, q);
    ApprovalFound(l, q, now);
    if Admissible(l, q, now) {
      AskingIs(l, q, now);
      var approved := if Flagged(l, q) then FindApproved(l.approvals, q.company, q.agent, q.Bound(), now) else None;
      if (Flagged(l, q) ==> approved.Some?) && !Affordable(l, q, ceiling, now) {
        BudgetRefusal(l, q, ceiling, now, owner, approved);
      } else {
        AdmitIff(l, q, ceiling, now, owner);
      }
    }
  }

  // ---------------------------------------------------------------- what a grant writes

  /** The approval that is used up: the first usable one if one is demanded, and none otherwise. */
  predicate UsesApproval(l: Ledger, after: seq<Approval>, q: ClaimRequest, now: Time) {
    if Flagged(l, q) then
      exists i: nat | i < |l.approvals| ::
        && FirstUsable(l, q, now, i)
        && after == l.approvals[i := l.approvals[i].(consumedBy := Some(q.company + ":" + q.key), run := Some(q.run))]
    else after == l.approvals
  }

  /** The work item is running and its earlier acceptance withdrawn. */
  predicate StartsWork(works: map<Id, WorkItem>, after: map<Id, WorkItem>, q: ClaimRequest) {
    if q.workItem.Some? && q.workItem.value in works then
      after == works[q.workItem.value := works[q.workItem.value].(status := WorkRunning, acceptance := None)]
    else after == works
  }

  /** Everything a granted claim and the start of its run write. */
  ghost predicate Dispatched(l: Ledger, l': Ledger, q: ClaimRequest, ceiling: Money, now: Time, owner: Id) {
    && UsesApproval(l, l'.approvals, q, now) && StartsWork(l.works, l'.works, q)
    && l.reservations <= l'.reservations
    && (exists which :: Holds(l.policies, which, l'.reservations[|l.reservations|..], q, ceiling))
    && l' == l.(
         leases := l.leases + [Lease(q.company + ":" + q.key, q.company, ResourceOf(q), Binding(q), q.run, owner, Running, Resume,
                                     now + 1_000_000_000)],
         runs := l.runs + [Run(q.run, q.company, q.agent, RunRunning, l.clock, None, 0, false)],
         works := l'.works, approvals := l'.approvals, reservations := l'.reservations)
  }

  lemma CommitWrites(l: Ledger, q: ClaimRequest, ceiling: Money, now: Time, owner: Id, approved: Option<nat>)
    requires approved.Some? ==> approved.value < |l.approvals|
    requires Commit(l, q, ceiling, now, owner, approved).1.Granted?
    requires Flagged(l, q) ==> approved.Some? && FirstUsable(l, q, now, approved.value)
    requires !Flagged(l, q) ==> approved.None?
    ensures
      var c := Commit(l, q, ceiling, now, owner, approved).0;
      Dispatched(l, c.(runs := l.runs + [Run(q.run, q.company, q.agent, RunRunning, l.clock, None, 0, false)]), q, ceiling, now, owner)
  {
    var c := Commit(l, q, ceiling, now, owner, approved).0;
    KeyFound(l, q);
    var which, k := ReservationsSay(l, q, ceiling, now);
    assert c.reservations[|l.reservations|..] == Reservations(l, q, ceiling, now).value;
    assert q.Target() == ResourceOf(q);
  }

  /** A granted claim writes exactly: its lease for a thousand seconds, one reservation of the ceiling for
      each applying policy, the run, the work item's start, and the use of one approval where demanded. */
  lemma GrantWrites(l: Ledger, q: ClaimRequest, ceiling: Money, now: Time, owner: Id)
    requires Dispatchable(l, q, ceiling, now)
    ensures Dispatched(l, Start(l, q, now, owner).0, q, ceiling, now, owner)
  {
    RefusedBeforeAdmission(l, q, ceiling, now, owner);
    GrantedIff(l, q, ceiling, now, owner);
    RestedIff(l, q, now);
    WorkGateIs(l, q);
    FlaggedIff(l, q);
    ApprovalFound(l, q, now);
    var approved := if Flagged(l, q) then FindApproved(l.approvals, q.company, q.agent, q.Bound(), now) else None;
    CommitWrites(l, q, ceiling, now, owner, approved);
  }
}
