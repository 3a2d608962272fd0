/** The runner around an external adapter: admit the wakeup, and conclude it by settling or by
    marking the effects uncertain. */
module AgentRunner {
  import opened Basics
  import opened ExecutionPolicy
  import opened ExecutionLedger
  import opened LedgerInvariant
  import opened LedgerSteps
  import opened LedgerTheorems
  import opened ExecutionStore
  import opened SettlementRules

  /** What the adapter came back with. `Unknown` stands for lost connections, server errors and
      unreadable answers; a cancelled task or a crashed runner comes back with nothing. */
  datatype Answer =
    | Output(cost: Option<Reported>, flagged: bool)
    | Unknown
    | Failure(cancelled: bool)
    | Vanished

  /** The ledger step that concludes a wakeup, if the runner lives to take one. */
  function Conclusion(t: Ticket, a: Answer): Option<Event> {
    match a
    case Output(reported, flagged) =>
      var estimated := reported.None? || flagged;
      var bounded := if reported.None? then Ok(t.ceiling) else BoundedCost(reported.value);
      if bounded.Err? then Some(SettleRun(t, t.ceiling, true, true, RunFailed))
      else
        var cost := if estimated then Max(bounded.value, t.ceiling) else bounded.value;
        var over := cost > t.ceiling;
        Some(SettleRun(t, cost, over, estimated, if over then RunFailed else RunSucceeded))
    case Unknown => Some(Uncertain(t))
    case Failure(cancelled) => Some(SettleRun(t, t.ceiling, true, true, if cancelled then RunCancelled else RunFailed))
    case Vanished => None
  }

  /** The ledger after the runner has concluded. */
  function Concluded(l: Ledger, t: Ticket, a: Answer): Ledger {
    var step := Conclusion(t, a);
    if step.None? then l
    else if step.value.Uncertain? then AfterCommit(l, MarkUncertain(l, t))
    else if step.value.SettleRun? then
      var e := step.value;
      AfterCommit(l, SettleAndFinish(l, t, e.cost, e.failed, e.estimated, e.status))
    else l
  }

  /** What the caller of a wakeup is told. */
  datatype Reply = Woken | UncertainEffects | CeilingExceeded | WakeupFailed | LeaseLost | Interrupted

  /** Success is reported exactly for a settled run within its ceiling; a settlement that is refused
      twice surfaces as a lost lease. */
  function ReplyTo(l: Ledger, t: Ticket, a: Answer): Reply {
    match a
    case Vanished => Interrupted
    case Unknown => if MarkUncertain(l, t).Ok? then UncertainEffects else LeaseLost
    case Failure(_) => if Settle(l, t, t.ceiling, true, true).Ok? then WakeupFailed else LeaseLost
    case Output(_, _) =>
      var e := Conclusion(t, a).value;
      if !e.SettleRun? || Settle(l, t, e.cost, e.failed, e.estimated).Err? then LeaseLost
      else if e.failed then (if e.cost > t.ceiling then CeilingExceeded else WakeupFailed)
      else Woken
  }

  class Runner {
    const store: GovernanceStore
    var ticket: Option<Ticket>

    constructor (governance: GovernanceStore)
      ensures store == governance && ticket == None
    {
      store := governance;
      ticket := None;
    }

    /** The part of `wake` before the adapter: a denied or replayed claim dispatches nothing. */
    method Begin(q: ClaimRequest, now: Time, owner: Id) returns (outcome: Outcome)
      modifies this, store
      ensures (store.State(), outcome) == Start(old(store.State()), q, now, owner)
      ensures ticket == if outcome.Granted? then Some(outcome.ticket) else old(ticket)
    {
      outcome := store.Claim(q, now, owner);
      if outcome.Granted? {
        ticket := Some(outcome.ticket);
        store.runs := store.runs + [Run(q.run, q.company, q.agent, RunRunning, store.clock, None, 0, false)];
      }
    }

    /** Settle the ticket and close its run. */
    method SettleAndClose(t: Ticket, cost: Money, failed: bool, estimated: bool, status: RunStatus)
      returns (refused: Option<Denial>)
      modifies store
      ensures
        var r := SettleAndFinish(old(store.State()), t, cost, failed, estimated, status);
        if refused.None? then r == Ok(store.State()) else r == Err(refused.value) && store.State() == old(store.State())
    {
      var found := FindLease(store.leases, t.execution);
      var company := if found.Some? then store.leases[found.value].company else "";
      refused := store.Settle(t, cost, failed, estimated);
      if refused.None? {
        store.runs := FinishRun(store.runs, t.run, company, status, store.clock);
      }
    }

    /** Settle what the adapter put out. */
    method ConcludeOutput(t: Ticket, a: Answer) returns (reply: Reply)
      requires a.Output?
      modifies store
      ensures store.State() == Concluded(old(store.State()), t, a)
      ensures reply == ReplyTo(old(store.State()), t, a)
    {
      var bounded := if a.cost.None? then Ok(t.ceiling) else BoundedCost(a.cost.value);
      if bounded.Ok? {
        var estimated := a.cost.None? || a.flagged;
        var cost := if estimated then Max(bounded.value, t.ceiling) else bounded.value;
        var over := cost > t.ceiling;
        var refused := SettleAndClose(t, cost, over, estimated, if over then RunFailed else RunSucceeded);
        if refused.None? {
          return if over then CeilingExceeded else Woken;
        }
      }
      var refused := SettleAndClose(t, t.ceiling, true, true, RunFailed);
      return if refused.None? then WakeupFailed else LeaseLost;
    }

    /** The part of `wake` after the adapter. */
    method Conclude(t: Ticket, a: Answer) returns (reply: Reply)
      modifies store
      ensures store.State() == Concluded(old(store.State()), t, a)
      ensures reply == ReplyTo(old(store.State()), t, a)
    {
      match a
      case Vanished => reply := Interrupted;
      case Unknown =>
        var refused := store.MarkUncertain(t);
        reply := if refused.None? then UncertainEffects else LeaseLost;
      case Failure(cancelled) =>
        var refused := SettleAndClose(t, t.ceiling, true, true, if cancelled then RunCancelled else RunFailed);
        reply := if refused.None? then WakeupFailed else LeaseLost;
      case Output(_, _) => reply := ConcludeOutput(t, a);
    }
  }

  // ---------------------------------------------------------------- what a wakeup charges

  /** Concluding is one step of the ledger, so everything proved of its runs holds of runners. */
  lemma ConcludeIsStep(l: Ledger, t: Ticket, a: Answer)
    requires Issued(l, t) && !a.Vanished?
    ensures Conclusion(t, a).Some? && Next(l, Conclusion(t, a).value, Concluded(l, t, a))
  {
  }

  /** A cost the adapter reported and that can be used: at most a million dollars, not negative. */
  predicate Usable(r: Option<Reported>) {
    r.Some? && r.value.Micros? && 0 <= r.value.amount <= 1_000_000_000_000
  }

  /** Output whose cost is left open, or usable and within the ceiling. */
  predicate WithinCeiling(t: Ticket, a: Answer) {
    a.Output? && (a.cost.None? || (Usable(a.cost) && a.cost.value.amount <= t.ceiling))
  }

  predicate BeyondCeiling(t: Ticket, a: Answer) {
    a.Output? && Usable(a.cost) && a.cost.value.amount > t.ceiling
  }

  /** Every answer that reaches the runner is concluded by one settlement or by one uncertain mark, and
      which and at what cost is this: the attempt succeeds exactly on output within the ceiling. It is
      charged the reported cost if that is no estimate, or beyond the ceiling, and the ceiling otherwise.
      A cancelled attempt is recorded as such, any other that did not succeed as failed. */
  lemma ChargeExact(t: Ticket, a: Answer)
    requires !a.Vanished?
    ensures
      var e := Conclusion(t, a);
      && e.Some? && (e.value.SettleRun? || e.value.Uncertain?) && e.value.ticket == t
      && (e.value.Uncertain? <==> a.Unknown?)
      && (e.value.SettleRun? ==>
            && (!e.value.failed <==> WithinCeiling(t, a))
            && (!e.value.estimated <==> a.Output? && Usable(a.cost) && !a.flagged)
            && e.value.cost == (if BeyondCeiling(t, a) || !e.value.estimated then a.cost.value.amount else t.ceiling)
            && e.value.status == (if WithinCeiling(t, a) then RunSucceeded
                                  else if a == Failure(true) then RunCancelled else RunFailed))
  {
  }

  /** So success costs at most the ceiling, and failure no less than it. */
  lemma ChargeWithin(t: Ticket, a: Answer)
    requires !a.Vanished? && !a.Unknown?
    ensures
      var e := Conclusion(t, a).value;
      e.SettleRun? && (if WithinCeiling(t, a) then e.cost <= t.ceiling else e.cost >= t.ceiling)
  {
    ChargeExact(t, a);
  }

  /** Concluding while the lease is active keeps the ledger invariant. */
  lemma WakeKeepsInv(l: Ledger, t: Ticket, a: Answer, i: nat)
    requires Inv(l) && Issued(l, t) && !a.Vanished?
    requires FindLease(l.leases, t.execution) == Some(i) && l.leases[i].Active()
    ensures Inv(Concluded(l, t, a))
  {
    var e, l' := Conclusion(t, a).value, Concluded(l, t, a);
    ConcludeIsStep(l, t, a);
    ConclusionIsTimely(l, t, a, i);
    StepKeepsCore(l, e, l');
    StepKeepsGuarded(l, e, l');
  }

  /** The row of a concluded run: what it cost, and, if it was open, how it ended. */
  function ClosedRun(r: Run, cost: Money, estimated: bool, status: RunStatus, now: Time): Run {
    if r.status == RunRunning then r.(cost := cost, estimated := estimated, status := status, completedAt := Some(now))
    else r.(cost := cost, estimated := estimated)
  }

  lemma FinishWrites(l: Ledger, t: Ticket, cost: Money, failed: bool, estimated: bool, status: RunStatus, i: nat) returns (at: nat)
    requires Settle(l, t, cost, failed, estimated).Ok? && Names(l, t, i)
    ensures RunAt(l.runs, t.run, l.leases[i].company, at)
    ensures
      var r := SettleAndFinish(l, t, cost, failed, estimated, status);
      && r.Ok? && var l' := r.value;
      && Charges(l, l'.usage, t.execution, t.run, cost, failed, estimated)
      && Settles(l.reservations, l'.reservations, t.execution)
      && l' == l.(leases := l.leases[i := l.leases[i].(state := if failed then Failed else Succeeded)],
                  runs := l.runs[at := ClosedRun(l.runs[at], cost, estimated, status, l.clock)],
                  usage := l'.usage, reservations := l'.reservations)
  {
    var j;
    j, at := SettleWrites(l, t, cost, failed, estimated);
    NamesFound(l, t);
    var s := Settle(l, t, cost, failed, estimated).value;
    assert RunAt(s.runs, t.run, l.leases[i].company, at);
    RunAtFound(s.runs, t.run, l.leases[i].company);
  }

  /** A genuine ticket whose lease is still running is concluded for good. If the effects are uncertain the
      lease waits for the operator and nothing is charged. Otherwise it is closed, each of its reservations
      is settled and charged the concluding cost in one usage row of its own, the run carries that cost and
      its end, and nothing else changes. */
  lemma WakeConcludes(l: Ledger, t: Ticket, a: Answer, i: nat) returns (at: nat)
    requires Inv(l) && Issued(l, t) && !a.Vanished?
    requires Names(l, t, i) && l.leases[i].state == Running
    ensures RunAt(l.runs, t.run, l.leases[i].company, at)
    ensures
      var e, l' := Conclusion(t, a).value, Concluded(l, t, a);
      if a.Unknown? then
        l' == l.(leases := l.leases[i := l.leases[i].(state := RecoveryNeeded, expiresAt := l.clock)])
      else
        && e.SettleRun?
        && Charges(l, l'.usage, t.execution, t.run, e.cost, e.failed, e.estimated)
        && Settles(l.reservations, l'.reservations, t.execution)
        && l' == l.(leases := l.leases[i := l.leases[i].(state := if e.failed then Failed else Succeeded)],
                    runs := l.runs[at := ClosedRun(l.runs[at], e.cost, e.estimated, e.status, l.clock)],
                    usage := l'.usage, reservations := l'.reservations)
  {
    NamesFound(l, t);
    IssuedFound(l, t);
    if a.Unknown? {
      RunAtFound(l.runs, t.run, l.leases[i].company);
      at := FindRun(l.runs, t.run, l.leases[i].company).value;
    } else {
      var e := Conclusion(t, a).value;
      SettleIff(l, t, e.cost, e.failed, e.estimated);
      at := FinishWrites(l, t, e.cost, e.failed, e.estimated, e.status, i);
    }
  }

  lemma ConclusionIsTimely(l: Ledger, t: Ticket, a: Answer, i: nat)
    requires LeaseKeys(l) && !a.Vanished?
    requires FindLease(l.leases, t.execution) == Some(i) && l.leases[i].Active()
    ensures Timely(l, Conclusion(t, a).value)
  {
    forall k | 0 <= k < |l.leases| && l.leases[k].execution == t.execution ensures l.leases[k].Active() {
      assert k == i;
    }
  }

  /** A runner whose lease was taken over by an operator settles nothing. */
  lemma LateSettleIsRefused(l: Ledger, t: Ticket, a: Answer, i: nat)
    requires Inv(l) && Issued(l, t) && !a.Unknown?
    requires FindLease(l.leases, t.execution) == Some(i) && l.leases[i].state != Running
    ensures Concluded(l, t, a) == l
  {
    if !a.Vanished? {
      var e := Conclusion(t, a).value;
      SettleIff(l, t, e.cost, e.failed, e.estimated);
    }
  }

  /** The caller is told of success exactly when the lease was closed as succeeded, of an exceeded ceiling
      exactly when that is why it was not, of uncertain effects exactly when the lease was marked so, and
      of a lost lease exactly when the ledger was left alone. */
  lemma ReplyIsTrue(l: Ledger, t: Ticket, a: Answer, i: nat)
    requires Inv(l) && Issued(l, t) && !a.Vanished? && Names(l, t, i)
    ensures ReplyTo(l, t, a) == LeaseLost <==> !a.Unknown? && l.leases[i].state != Running
    ensures ReplyTo(l, t, a) == UncertainEffects <==> a.Unknown?
    ensures ReplyTo(l, t, a) == Woken <==> l.leases[i].state == Running && WithinCeiling(t, a)
    ensures ReplyTo(l, t, a) == CeilingExceeded <==> l.leases[i].state == Running && BeyondCeiling(t, a)
    ensures ReplyTo(l, t, a) != Interrupted
    ensures ReplyTo(l, t, a) == Woken ==> i < |Concluded(l, t, a).leases| && Concluded(l, t, a).leases[i].state == Succeeded
    ensures ReplyTo(l, t, a) == LeaseLost ==> Concluded(l, t, a) == l
  {
    NamesFound(l, t);
    IssuedFound(l, t);
    if !a.Unknown? {
      var e := Conclusion(t, a).value;
      ChargeExact(t, a);
      SettleIff(l, t, e.cost, e.failed, e.estimated);
      SettleIff(l, t, t.ceiling, true, true);
      if l.leases[i].state == Running {
        var at := WakeConcludes(l, t, a, i);
      }
    }
  }
}
