/** The governance store: an object whose methods update the ledger tables in place. Each method is
    proved against its transaction in ExecutionLedger; a refusal leaves the tables as the source's
    rollback does. */
module ExecutionStore {
  import opened Basics
  import opened Calendar
  import opened Sequences
  import opened ExecutionPolicy
  import Tx = ExecutionLedger
  import opened ExecutionLedger
  import opened Budget

  class GovernanceStore {
    var clock: Time
    var companies: set<Id>
    var agents: map<(Id, Id), AgentRole>
    var works: map<Id, WorkItem>
    var policies: seq<Policy>
    var leases: seq<Lease>
    var reservations: seq<Reservation>
    var usage: seq<Usage>
    var approvals: seq<Approval>
    var runs: seq<Run>

    /** The tables as one value. */
    function State(): Ledger
      reads this
    {
      Ledger(clock, companies, agents, works, policies, leases, reservations, usage, approvals, runs)
    }

    constructor (l: Ledger)
      ensures State() == l
    {
      clock, companies, agents, works, policies := l.clock, l.companies, l.agents, l.works, l.policies;
      leases, reservations, usage, approvals, runs := l.leases, l.reservations, l.usage, l.approvals, l.runs;
    }

    /** Are all dependencies of a work item accepted in its company? */
    method DependenciesAccepted(work: WorkItem) returns (ok: bool)
      ensures ok <==> !(exists d | d in work.dependencies :: !Accepted(works, work.company, d))
    {
      for i := 0 to |work.dependencies|
        invariant forall k | 0 <= k < i :: Accepted(works, work.company, work.dependencies[k])
      {
        if !Accepted(works, work.company, work.dependencies[i]) {
          return false;
        }
      }
      return true;
    }

    method CheckWork(company: Id, workItem: Option<Id>) returns (refused: Option<Denial>)
      ensures refused == WorkGate(works, company, workItem)
    {
      if workItem.None? {
        return None;
      }
      if workItem.value !in works || works[workItem.value].company != company {
        return Some(WorkNotFound);
      }
      var work := works[workItem.value];
      if work.status == Completed || work.status == Cancelled {
        return Some(WorkClosed);
      }
      var ok := DependenciesAccepted(work);
      return if ok then None else Some(DependencyNotAccepted);
    }

    /** Reserve the ceiling against the selected policies in turn; nothing is written yet. */
    method Reserve(selected: seq<Policy>, q: ClaimRequest, ceiling: Money, now: Time)
      returns (r: Result<seq<Reservation>, Denial>)
      ensures r == ReserveEach(State(), selected, q, ceiling, now)
    {
      var rows := [];
      for i := 0 to |selected|
        invariant ReserveEach(State(), selected[..i], q, ceiling, now) == Ok(rows)
      {
        var policy := selected[i];
        assert selected[..i + 1][..i] == selected[..i];
        if policy.allowlist != {} && q.config.model !in policy.allowlist {
          FirstRefusalDecides(State(), selected, i + 1, q, ceiling, now);
          return Err(ModelNotAllowed);
        }
        var consumed := Consumed(usage, policy.id, PeriodStart(policy.period, now));
        var reserved := Tx.Reserved(reservations, policy.id);
        if consumed + reserved + ceiling > policy.limit {
          FirstRefusalDecides(State(), selected, i + 1, q, ceiling, now);
          return Err(BudgetExceeded);
        }
        rows := rows + [Reservation(q.Execution(), policy.id, ceiling, false)];
      }
      assert selected[..|selected|] == selected;
      return Ok(rows);
    }

    method MarkAbandoned(i: nat, now: Time)
      requires i < |leases|
      modifies this`leases
      ensures leases == old(leases)[i := Tx.MarkAbandoned(old(leases)[i], now)]
    {
      if leases[i].state == Running && leases[i].expiresAt <= now {
        leases := leases[i := leases[i].(state := RecoveryNeeded)];
      }
    }

    method Refuse(i: nat, now: Time) returns (outcome: Outcome)
      requires i < |leases|
      modifies this`leases
      ensures (State(), outcome) == Obstructed(old(State()), i, now)
    {
      MarkAbandoned(i, now);
      outcome := Denied(if leases[i].state == RecoveryNeeded then RecoveryRequired else InProgress);
    }

    method Claim(q: ClaimRequest, now: Time, owner: Id) returns (outcome: Outcome)
      modifies this
      ensures (State(), outcome) == Tx.Claim(old(State()), q, now, owner)
    {
      if q.company !in companies {
        return Denied(CompanyNotFound);
      }
      if (q.company, q.agent) !in agents {
        return Denied(AgentNotFound);
      }
      var role := agents[(q.company, q.agent)];
      var authorized := AuthorizeAdapter(role);
      if authorized.Err? {
        return Denied(authorized.error);
      }
      if !q.payload.encodable {
        return Denied(InvalidIntent);
      }
      if role.config != q.config {
        return Denied(ConfigurationChanged);
      }
      var existing := FindLease(leases, q.Execution());
      if existing.Some? {
        var lease := leases[existing.value];
        if lease.intent != q.Bound() {
          return Denied(KeyConflict);
        }
        if !lease.Active() {
          return Replayed(Ticket(lease.execution, lease.run, lease.owner, authorized.value));
        }
        outcome := Refuse(existing.value, now);
        return;
      }
      var active := FindActive(leases, q.company, q.Target());
      if active.Some? {
        outcome := Refuse(active.value, now);
        return;
      }
      outcome := Admit(q, authorized.value, now, owner);
    }

    method Admit(q: ClaimRequest, ceiling: Money, now: Time, owner: Id) returns (outcome: Outcome)
      modifies this
      ensures (State(), outcome) == Tx.Admit(old(State()), q, ceiling, now, owner)
    {
      if q.payload.heartbeat && RecentlyRun(runs, q.company, q.agent, now, q.config.heartbeatInterval * SECOND) {
        return Denied(HeartbeatNotElapsed);
      }
      var refused := CheckWork(q.company, q.workItem);
      if refused.Some? {
        return Denied(refused.value);
      }
      var approved := None;
      if NeedsApproval(works, q) {
        approved := FindApproved(approvals, q.company, q.agent, q.Bound(), now);
        if approved.None? {
          outcome := AskForApproval(q, now);
          return;
        }
      }
      outcome := Write(q, ceiling, now, owner, approved);
    }

    method AskForApproval(q: ClaimRequest, now: Time) returns (outcome: Outcome)
      modifies this
      ensures (State(), outcome) == AwaitApproval(old(State()), q, now)
    {
      var parked := TransitionWork(works, q.workItem, AwaitingApproval);
      if parked.Err? {
        return Denied(parked.error);
      }
      if !PendingExists(approvals, q.company, q.agent, q.Bound(), now) {
        approvals := approvals
          + [Approval(q.company, q.agent, Pending, Some(now + APPROVAL_TIME), Some(q.Bound()), None, None)];
      }
      works := parked.value;
      outcome := Denied(ApprovalRequired);
    }

    method Write(q: ClaimRequest, ceiling: Money, now: Time, owner: Id, approved: Option<nat>) returns (outcome: Outcome)
      requires approved.Some? ==> approved.value < |approvals|
      modifies this
      ensures (State(), outcome) == Tx.Commit(old(State()), q, ceiling, now, owner, approved)
    {
      var selected := Selected(policies, q);
      if ceiling > 0 && selected == [] {
        return Denied(BudgetRequired);
      }
      if q.config.budgetPolicy.Some? && !(exists p | p in selected :: p.id == q.config.budgetPolicy.value) {
        return Denied(BudgetInactive);
      }
      var rows := Reserve(selected, q, ceiling, now);
      if rows.Err? {
        return Denied(rows.error);
      }
      var moved := TransitionWork(works, q.workItem, WorkRunning);
      if moved.Err? {
        return Denied(moved.error);
      }
      var e := q.Execution();
      leases := leases + [Lease(e, q.company, q.Target(), q.Bound(), q.run, owner, Running, Resume, now + LEASE_TIME)];
      if approved.Some? {
        approvals := approvals[approved.value := approvals[approved.value].(consumedBy := Some(e), run := Some(q.run))];
      }
      reservations := reservations + rows.value;
      works := ClearAcceptance(moved.value, q.workItem);
      outcome := Granted(Ticket(e, q.run, owner, ceiling));
    }

    /** The settlement loop: what becomes of the reservations and the usage rows to add, unless one of
        the execution's reservations has been settled before. */
    method SettleEach(c: Charge) returns (already: bool, settled: seq<Reservation>, charges: seq<Usage>)
      ensures already <==> exists r | r in reservations :: r.execution == c.execution && r.settled
      ensures !already ==> settled == SettleRows(reservations, c.execution) && charges == ChargeRows(reservations, c)
    {
      settled, charges := [], [];
      for i := 0 to |reservations|
        invariant settled == SettleRows(reservations[..i], c.execution)
        invariant charges == ChargeRows(reservations[..i], c)
        invariant forall k | 0 <= k < i && reservations[k].execution == c.execution :: !reservations[k].settled
      {
        var row := reservations[i];
        assert reservations[..i + 1][..i] == reservations[..i];
        if row.execution == c.execution {
          if row.settled {
            return true, settled, charges;
          }
          row := row.(settled := true);
          charges := charges + [ChargeRow(c, row.budget)];
        }
        settled := settled + [row];
      }
      assert reservations[..|reservations|] == reservations;
      return false, settled, charges;
    }

    /** Charge every reservation of the execution and close its lease. */
    method Settle(t: Ticket, cost: Money, failed: bool, estimated: bool) returns (refused: Option<Denial>)
      modifies this
      ensures
        var r := Tx.Settle(old(State()), t, cost, failed, estimated);
        if refused.None? then r == Ok(State()) else r == Err(refused.value) && State() == old(State())
    {
      var found := FindLease(leases, t.execution);
      if found.None? || leases[found.value].owner != t.owner || leases[found.value].state != Running {
        return Some(OwnerLost);
      }
      var already, settled, charges := SettleEach(Charge(t.execution, t.run, cost, failed, estimated, clock));
      if already {
        return Some(AlreadySettled);
      }
      var run := FindRun(runs, t.run, leases[found.value].company);
      if run.None? {
        return Some(RunNotFound);
      }
      reservations, usage := settled, usage + charges;
      runs := runs[run.value := runs[run.value].(cost := cost, estimated := estimated)];
      leases := leases[found.value := leases[found.value].(state := if failed then Failed else Succeeded)];
      return None;
    }

    method MarkUncertain(t: Ticket) returns (refused: Option<Denial>)
      modifies this
      ensures
        var r := Tx.MarkUncertain(old(State()), t);
        if refused.None? then r == Ok(State()) else r == Err(refused.value) && State() == old(State())
    {
      var found := FindLease(leases, t.execution);
      if found.None? || leases[found.value].owner != t.owner {
        return Some(OwnerLost);
      }
      leases := leases[found.value := leases[found.value].(state := RecoveryNeeded, expiresAt := clock)];
      return None;
    }

    /** The largest amount an execution reserved. */
    method RebuildCeiling(execution: Id) returns (ceiling: Money)
      ensures ceiling == Ceiling(reservations, execution)
    {
      ceiling := 0;
      for i := 0 to |reservations|
        invariant ceiling == Ceiling(reservations[..i], execution)
      {
        assert reservations[..i + 1][..i] == reservations[..i];
        if reservations[i].execution == execution && ceiling < reservations[i].amount {
          ceiling := reservations[i].amount;
        }
      }
      assert reservations[..|reservations|] == reservations;
    }

    /** Roll the tables back. */
    method Restore(l: Ledger)
      modifies this
      ensures State() == l
    {
      clock, companies, agents, works, policies := l.clock, l.companies, l.agents, l.works, l.policies;
      leases, reservations, usage, approvals, runs := l.leases, l.reservations, l.usage, l.approvals, l.runs;
    }

    /** Reopen the abandoned lease at `i` and settle it as failed at the ceiling it reserved. */
    method SettleAbandoned(i: nat) returns (refused: Option<Denial>)
      requires i < |leases|
      modifies this
      ensures
        var r := Tx.SettleAbandoned(old(State()), i);
        if refused.None? then r == Ok(State()) else r == Err(refused.value)
    {
      var lease := leases[i];
      var ceiling := RebuildCeiling(lease.execution);
      leases := leases[i := lease.(state := Running)];
      refused := Settle(Ticket(lease.execution, lease.run, lease.owner, ceiling), ceiling, true, true);
    }

    method CloseOut(resource: Resource, run: Id, company: Id) returns (refused: Option<Denial>)
      modifies this`runs, this`works
      ensures
        var r := Tx.CloseOut(old(State()), resource, run, company);
        if refused.None? then r == Ok(State()) else r == Err(refused.value)
    {
      var at := FindRun(runs, run, company);
      if at.Some? && runs[at.value].status == RunRunning && (company, runs[at.value].agent) !in agents {
        return Some(RecoveryAgentRequired);
      }
      var moved := TransitionWork(works, if resource.WorkResource? then Some(resource.id) else None, WorkFailed);
      if moved.Err? {
        return Some(moved.error);
      }
      runs, works := FinishRun(runs, run, company, RunFailed, clock), moved.value;
      return None;
    }

    method Recover(run: Id, company: Id) returns (refused: Option<Denial>)
      modifies this
      ensures
        var r := Tx.Recover(old(State()), run, company);
        if refused.None? then r == Ok(State()) else r == Err(refused.value) && State() == old(State())
    {
      var found := FindByRun(leases, company, run);
      if found.None? {
        return Some(ExecutionNotFound);
      }
      var lease := leases[found.value];
      if !lease.Active() || lease.expiresAt > clock {
        return Some(NotAbandoned);
      }
      var before := State();
      refused := SettleAbandoned(found.value);
      if refused.None? {
        refused := CloseOut(lease.resource, run, company);
      }
      if refused.Some? {
        Restore(before);
      }
    }

    method RequestControl(run: Id, company: Id, action: Control) returns (refused: Option<Denial>)
      modifies this
      ensures
        var r := Tx.RequestControl(old(State()), run, company, action);
        if refused.None? then r == Ok(State()) else r == Err(refused.value) && State() == old(State())
    {
      var found := FindByRun(leases, company, run);
      var at := Find(runs, (x: Run) => x.id == run);
      if found.None? || at.None? {
        return Some(ExecutionNotFound);
      }
      if (company, runs[at.value].agent) !in agents {
        return Some(AgentNotFound);
      }
      if leases[found.value].state != Running {
        return Some(NotRunning);
      }
      if agents[(company, runs[at.value].agent)].config.adapterType != "process" {
        return Some(ControlNotSupported);
      }
      leases := leases[found.value := leases[found.value].(control := action)];
      return None;
    }
  }
}
