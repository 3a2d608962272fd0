/** Where the ledger depends on its callers: when an operator can recover an abandoned lease, when
    `mark_uncertain` is harmless, and a run in which it is not. */
module LedgerLimits {
  import opened Basics
  import opened Calendar
  import opened Sequences
  import opened TransitionSystems
  import opened ExecutionPolicy
  import opened ExecutionLedger
  import opened LedgerInvariant
  import opened LedgerSteps
  import opened LedgerRuns
  import opened LedgerTheorems

  // ---------------------------------------------------------------- recovery

  /** Settling an abandoned lease never fails on a sound ledger. */
  lemma SettleAbandonedOk(l: Ledger, i: nat)
    requires LeaseKeys(l) && Coupled(l) && i < |l.leases| && l.leases[i].Active()
    ensures SettleAbandoned(l, i).Ok?
  {
    var lease := l.leases[i];
    var reopened := l.(leases := l.leases[i := lease.(state := Running)]);
    assert reopened.leases[i].execution == lease.execution;
    var j := FindLease(reopened.leases, lease.execution).value;
    assert j == i by {
      assert reopened.leases[j].execution == l.leases[j].execution;
    }
    forall r | r in l.reservations && r.execution == lease.execution ensures !r.settled {
      var k :| 0 <= k < |l.reservations| && l.reservations[k] == r;
    }
    assert FindRun(l.runs, lease.run, lease.company).Some?;
  }

  /** The work item or the agent of the execution stands in the way. */
  predicate Stuck(l: Ledger, lease: Lease) {
    || (lease.resource.WorkResource? && lease.resource.id in l.works && l.works[lease.resource.id].status == Cancelled)
    || (var at := FindRun(l.runs, lease.run, lease.company);
        at.Some? && l.runs[at.value].status == RunRunning && (lease.company, l.runs[at.value].agent) !in l.agents)
  }

  /** What settling leaves of the runs, works and agents that the rest of a recovery looks at. */
  predicate SameSurroundings(l: Ledger, s: Ledger) {
    && s.works == l.works && s.agents == l.agents && |s.runs| == |l.runs|
    && forall k | 0 <= k < |l.runs| ::
         && s.runs[k].id == l.runs[k].id && s.runs[k].company == l.runs[k].company
         && s.runs[k].agent == l.runs[k].agent && s.runs[k].status == l.runs[k].status
  }

  lemma SettledSurroundings(l: Ledger, i: nat)
    requires i < |l.leases| && SettleAbandoned(l, i).Ok?
    ensures SameSurroundings(l, SettleAbandoned(l, i).value)
  {
  }

  lemma CloseOutIff(l: Ledger, s: Ledger, lease: Lease)
    requires SameSurroundings(l, s)
    ensures CloseOut(s, lease.resource, lease.run, lease.company).Ok? <==> !Stuck(l, lease)
  {
    FindRunRestated(l.runs, s.runs);
  }

  /** An operator can close a lease exactly when it is abandoned, its work item has not been cancelled
      and the agent of a run that is still open exists; then the lease is failed. */
  lemma RecoverIff(l: Ledger, run: Id, company: Id)
    requires LeaseKeys(l) && Coupled(l)
    ensures
      var found := FindByRun(l.leases, company, run);
      Recover(l, run, company).Ok? <==>
        found.Some? && var lease := l.leases[found.value];
        lease.Active() && lease.expiresAt <= l.clock && !Stuck(l, lease)
  {
    var found := FindByRun(l.leases, company, run);
    if found.Some? && l.leases[found.value].Active() {
      SettleAbandonedOk(l, found.value);
      SettledSurroundings(l, found.value);
      CloseOutIff(l, SettleAbandoned(l, found.value).value, l.leases[found.value]);
    }
  }

  /** A recovery frees the resource for the next claim. */
  lemma RecoverFrees(l: Ledger, run: Id, company: Id)
    requires Inv(l) && Recover(l, run, company).Ok?
    ensures
      var lease := l.leases[FindByRun(l.leases, company, run).value];
      FindActive(Recover(l, run, company).value.leases, company, lease.resource).None?
  {
    var i := FindByRun(l.leases, company, run).value;
    var lease := l.leases[i];
    var l' := Recover(l, run, company).value;
    assert FindLease(l.leases[i := lease.(state := Running)], lease.execution) == Some(i);
    assert l'.leases[i] == lease.(state := Failed);
  }

  // ---------------------------------------------------------------- uncertain effects

  /** A closed lease that comes back to life next to an active one breaks the exclusion. */
  lemma ReopenedClashes(l: Ledger, l': Ledger, i: nat, j: nat)
    requires |l'.leases| == |l.leases| && i < |l.leases| && j < |l.leases| && i != j && l'.leases[j] == l.leases[j]
    requires l.leases[j].Active() && l'.leases[i].Active()
    requires l'.leases[i].company == l.leases[j].company && l'.leases[i].resource == l.leases[j].resource
    ensures !Exclusive(l')
  {
    assert i < j || j < i;
  }

  /** Bringing a closed lease back to life is sound exactly when it held no reservation and its
      resource is free. */
  lemma ReopenSoundIff(l: Ledger, l': Ledger, i: nat)
    requires LeaseKeys(l) && Guarded(l) && i < |l.leases| && !l.leases[i].Active()
    requires l'.reservations == l.reservations && |l'.leases| == |l.leases|
    requires forall k | 0 <= k < |l.leases| && k != i :: l'.leases[k] == l.leases[k]
    requires l'.leases[i].Active() && l'.leases[i].SameIdentity(l.leases[i])
    ensures Guarded(l') <==>
      && (forall k | 0 <= k < |l.reservations| :: l.reservations[k].execution != l.leases[i].execution)
      && FindActive(l.leases, l.leases[i].company, l.leases[i].resource).None?
  {
    var other := FindActive(l.leases, l.leases[i].company, l.leases[i].resource);
    if other.Some? {
      ReopenedClashes(l, l', i, other.value);
    }
    if k :| 0 <= k < |l.reservations| && l.reservations[k].execution == l.leases[i].execution {
      assert l.reservations[k].settled;
    }
  }

  /** Reporting uncertain effects keeps the ledger sound exactly when the lease is still active, or
      when it held no reservation and nobody else has leased its resource since. */
  lemma UncertainSoundIff(l: Ledger, t: Ticket)
    requires Inv(l) && Issued(l, t)
    ensures MarkUncertain(l, t).Ok? && FindLease(l.leases, t.execution).Some?
    ensures
      var i := FindLease(l.leases, t.execution).value;
      Inv(MarkUncertain(l, t).value) <==>
        || l.leases[i].Active()
        || ((forall k | 0 <= k < |l.reservations| :: l.reservations[k].execution != t.execution)
            && FindActive(l.leases, l.leases[i].company, l.leases[i].resource).None?)
  {
    IssuedFound(l, t);
    var i := FindLease(l.leases, t.execution).value;
    UncertainKeepsCore(l, t);
    if l.leases[i].Active() {
      UncertainKeepsGuarded(l, t);
    } else {
      ReopenSoundIff(l, MarkUncertain(l, t).value, i);
    }
  }

  // A run with one agent, one budget and two keys.

  const COMPANY := "c"
  const AGENT := "g"

  const CONFIG := AgentConfig("http", "w", Some(Micros(5)), "m", 60,
                              {"work.execute", "adapter:" + "http", "tool:" + "w"}, None, false)

  function Request(key: string, run: Id): ClaimRequest {
    ClaimRequest(COMPANY, AGENT, CONFIG, Payload("", false, true), None, None, "o", key, run)
  }

  const POLICY := Policy("b", COMPANY, CompanyScope, None, Total, 100, true, {})

  const Start0 := Ledger(
    0, {COMPANY}, map[(COMPANY, AGENT) := AgentRole("active", CONFIG)], map[], [POLICY], [], [], [], [], [])

  function LeaseOf(key: string, run: Id, owner: Id, state: LeaseState, now: Time): Lease {
    var q := Request(key, run);
    Lease(q.Execution(), COMPANY, AgentResource(AGENT), q.Bound(), run, owner, state, Resume, now + LEASE_TIME)
  }

  function RunOf(run: Id, status: RunStatus, now: Time, cost: Money): Run {
    Run(run, COMPANY, AGENT, status, now, if status == RunRunning then None else Some(LEASE_TIME), cost, status != RunRunning)
  }

  /** One claim on a ledger that has the agent, the policy and room in it. */
  lemma ClaimHere(l: Ledger, key: string, run: Id, owner: Id)
    requires l.companies == Start0.companies && l.agents == Start0.agents && l.policies == Start0.policies
    requires FindLease(l.leases, Request(key, run).Execution()).None?
    requires FindActive(l.leases, COMPANY, AgentResource(AGENT)).None?
    requires Consumed(l.usage, "b", 0) + Reserved(l.reservations, "b") <= 90
    ensures
      var q := Request(key, run);
      Start(l, q, l.clock, owner).0 == l.(
        leases := l.leases + [LeaseOf(key, run, owner, Running, l.clock)],
        reservations := l.reservations + [Reservation(q.Execution(), "b", 5, false)],
        runs := l.runs + [RunOf(run, RunRunning, l.clock, 0)])
  {
    var q := Request(key, run);
    assert AuthorizeAdapter(l.agents[(COMPANY, AGENT)]) == Ok(5);
    assert l.policies == [] + [POLICY];
    assert Selected([], q) == [];
    assert Selected(l.policies, q) == [POLICY] by {
      assert l.policies[..0] == [];
    }
    assert [POLICY][..0] == [];
    assert ReserveEach(l, [], q, 5, l.clock) == Ok([]);
    assert CheckPolicy(l, POLICY, q.config.model, 5, l.clock).None?;
    assert [] + [Reservation(q.Execution(), "b", 5, false)] == [Reservation(q.Execution(), "b", 5, false)];
    assert ReserveEach(l, [POLICY], q, 5, l.clock) == Ok([Reservation(q.Execution(), "b", 5, false)]);
  }

  const First := Start0.(
    leases := [LeaseOf("x", "r", "p", Running, 0)],
    reservations := [Reservation(Request("x", "r").Execution(), "b", 5, false)],
    runs := [RunOf("r", RunRunning, 0, 0)])

  const Late := First.(clock := LEASE_TIME)

  const Recovered := Late.(
    leases := [LeaseOf("x", "r", "p", Failed, 0)],
    reservations := [Reservation(Request("x", "r").Execution(), "b", 5, true)],
    usage := [Usage("b", 5, LEASE_TIME, Some(Request("x", "r").Execution()), Some("r"), true, true)],
    runs := [RunOf("r", RunFailed, 0, 5)])

  const Second := Recovered.(
    leases := Recovered.leases + [LeaseOf("y", "s", "q", Running, LEASE_TIME)],
    reservations := Recovered.reservations + [Reservation(Request("y", "s").Execution(), "b", 5, false)],
    runs := Recovered.runs + [RunOf("s", RunRunning, LEASE_TIME, 0)])

  const Reopened := Second.(
    leases := [LeaseOf("x", "r", "p", RecoveryNeeded, 0).(expiresAt := LEASE_TIME), LeaseOf("y", "s", "q", Running, LEASE_TIME)])

  const TicketX := Ticket(Request("x", "r").Execution(), "r", "p", 5)

  lemma FirstStep()
    ensures Next(Start0, StartRun(Request("x", "r"), 0, "p"), First)
  {
    ClaimHere(Start0, "x", "r", "p");
  }

  lemma RecoverStep()
    ensures Recover(Late, "r", COMPANY) == Ok(Recovered)
  {
    var e := Request("x", "r").Execution();
    var row := Reservation(e, "b", 5, false);
    assert Late.reservations[..0] == [];
    assert Ceiling([], e) == 0;
    assert Ceiling(Late.reservations, e) == 5;
    var c := Charge(e, "r", 5, true, true, LEASE_TIME);
    assert ChargeRows(Late.reservations, c) == [ChargeRow(c, "b")] by {
      assert ChargeRows([], c) == [];
    }
    assert SettleRows(Late.reservations, e) == Recovered.reservations;
    assert FindByRun(Late.leases, COMPANY, "r") == Some(0);
    assert FindRun(Late.runs, "r", COMPANY) == Some(0);
    assert FindLease([LeaseOf("x", "r", "p", Running, 0)], e) == Some(0);
    var s := SettleAbandoned(Late, 0);
    assert s.Ok?;
    assert s.value.leases == Recovered.leases;
    assert s.value.usage == Recovered.usage;
    assert FindRun(s.value.runs, "r", COMPANY) == Some(0);
    assert FinishRun(s.value.runs, "r", COMPANY, RunFailed, LEASE_TIME) == Recovered.runs;
  }

  lemma SecondStep()
    ensures Next(Recovered, StartRun(Request("y", "s"), LEASE_TIME, "q"), Second)
  {
    var e, f := Request("x", "r").Execution(), Request("y", "s").Execution();
    assert e == "c:x" && f == "c:y";
    assert Recovered.usage[..0] == [] && Recovered.reservations[..0] == [];
    assert RawWeight("b", 0)(Recovered.usage[0]) == 5;
    assert Sum(Recovered.usage[..0], RawWeight("b", 0)) == 0;
    assert Consumed(Recovered.usage, "b", 0) == 5;
    assert Reserved(Recovered.reservations, "b") == 0;
    ClaimHere(Recovered, "y", "s", "q");
  }

  lemma ReopenStep()
    ensures Next(Second, Uncertain(TicketX), Reopened)
  {
    assert Second.leases[0].execution == TicketX.execution;
    assert FindLease(Second.leases, TicketX.execution) == Some(0);
    assert Second.leases[0 := Reopened.leases[0]] == Reopened.leases;
  }

  const Events1 := [StartRun(Request("x", "r"), 0, "p")]
  const States3 := [Start0, First] + [Late]
  const Events2 := Events1 + [Environment]
  const StatesX := States3 + [Recovered]
  const EventsX := Events2 + [OperatorRecover("r", COMPANY)]
  const StatesXY := StatesX + [Second]
  const EventsXY := EventsX + [StartRun(Request("y", "s"), LEASE_TIME, "q")]

  lemma RunToFirst()
    ensures Behavior([Start0, First], Events1)
  {
    FirstStep();
  }

  lemma RunToLate()
    ensures Behavior(States3, Events2)
  {
    RunToFirst();
    assert Next(First, Environment, Late);
    Extend(Initial, Next, [Start0, First], Events1, Environment, Late);
  }

  lemma RunToRecovery()
    ensures Behavior(StatesX, EventsX)
  {
    RunToLate();
    RecoverStep();
    Extend(Initial, Next, States3, Events2, OperatorRecover("r", COMPANY), Recovered);
  }

  lemma RunToSecond()
    ensures Behavior(StatesXY, EventsXY)
  {
    RunToRecovery();
    SecondStep();
    Extend(Initial, Next, StatesX, EventsX, EventsXY[3], Second);
  }

  /** A claim, a lease that runs out, an operator's recovery, a second claim on the same agent, and
      then the first executor's transport error: two leases of one resource are active at once, and
      a closed lease is open again with its reservation settled. */
  lemma LateUncertainBreaksExclusion()
    ensures exists states, events ::
      Behavior(states, events) && !Exclusive(states[|states| - 1]) && !Coupled(states[|states| - 1])
  {
    RunToSecond();
    ReopenStep();
    Extend(Initial, Next, StatesXY, EventsXY, Uncertain(TicketX), Reopened);
    var states, events := StatesXY + [Reopened], EventsXY + [Uncertain(TicketX)];
    assert Behavior(states, events) && states[|states| - 1] == Reopened;
    assert Reopened.leases[0].Active() && Reopened.leases[1].Active();
    assert Reopened.leases[0].execution == Reopened.reservations[0].execution && Reopened.reservations[0].settled;
  }

  // A work item that is cancelled while its execution runs.

  /** A recovery that has come as far as the work item is refused by its life cycle. */
  lemma CancelledWorkIsStuck(l: Ledger, i: nat)
    requires LeaseKeys(l) && Coupled(l) && i < |l.leases|
    requires FindByRun(l.leases, l.leases[i].company, l.leases[i].run) == Some(i)
    requires l.leases[i].Active() && l.leases[i].expiresAt <= l.clock
    requires l.leases[i].resource.WorkResource? && l.leases[i].resource.id in l.works
             && l.works[l.leases[i].resource.id].status == Cancelled
    requires var at := FindRun(l.runs, l.leases[i].run, l.leases[i].company);
             at.Some? && (l.leases[i].company, l.runs[at.value].agent) in l.agents
    ensures Recover(l, l.leases[i].run, l.leases[i].company) == Err(InvalidWorkTransition)
  {
    var lease := l.leases[i];
    SettleAbandonedOk(l, i);
    SettledSurroundings(l, i);
    FindRunRestated(l.runs, SettleAbandoned(l, i).value.runs);
  }

  const WorkRequest := Request("x", "r").(workItem := Some("w"))

  function WorkAt(status: WorkStatus): map<Id, WorkItem> {
    map["w" := WorkItem(COMPANY, status, [], false, None)]
  }

  const WorkStart := Start0.(works := WorkAt(Ready))

  const WorkFirst := WorkStart.(
    works := WorkAt(WorkRunning),
    leases := [LeaseOf("x", "r", "p", Running, 0).(resource := WorkResource("w"), intent := WorkRequest.Bound())],
    reservations := [Reservation(WorkRequest.Execution(), "b", 5, false)],
    runs := [RunOf("r", RunRunning, 0, 0)])

  const WorkLate := WorkFirst.(clock := LEASE_TIME, works := WorkAt(Cancelled))

  lemma WorkStep()
    ensures Next(WorkStart, StartRun(WorkRequest, 0, "p"), WorkFirst)
  {
    var q, l := WorkRequest, WorkStart;
    assert AuthorizeAdapter(l.agents[(COMPANY, AGENT)]) == Ok(5);
    assert WorkGate(l.works, COMPANY, Some("w")).None?;
    assert l.policies == [POLICY] && [POLICY][..0] == [];
    assert Selected([], q) == [];
    assert Selected(l.policies, q) == [POLICY];
    assert ReserveEach(l, [], q, 5, 0) == Ok([]);
    assert CheckPolicy(l, POLICY, q.config.model, 5, 0).None?;
    assert [] + [Reservation(q.Execution(), "b", 5, false)] == [Reservation(q.Execution(), "b", 5, false)];
    assert ReserveEach(l, [POLICY], q, 5, 0) == Ok([Reservation(q.Execution(), "b", 5, false)]);
    assert ClearAcceptance(TransitionWork(l.works, Some("w"), WorkRunning).value, Some("w")) == WorkAt(WorkRunning);
  }

  /** A claim for a work item, which is cancelled before the lease runs out: the lease is abandoned, its
      reservation outstanding, and the recovery is refused. */
  lemma CancelledWorkStaysHeld()
    ensures Behavior([WorkStart, WorkFirst] + [WorkLate], [StartRun(WorkRequest, 0, "p")] + [Environment])
    ensures WorkLate.leases[0].Active() && WorkLate.leases[0].expiresAt <= WorkLate.clock && !WorkLate.reservations[0].settled
    ensures Recover(WorkLate, "r", COMPANY) == Err(InvalidWorkTransition)
  {
    WorkStep();
    assert Next(WorkFirst, Environment, WorkLate);
    assert IsRun(Initial, Next, [WorkStart, WorkFirst], [StartRun(WorkRequest, 0, "p")]);
    Extend(Initial, Next, [WorkStart, WorkFirst], [StartRun(WorkRequest, 0, "p")], Environment, WorkLate);
    assert FindByRun(WorkLate.leases, COMPANY, "r") == Some(0);
    assert FindRun(WorkLate.runs, "r", COMPANY) == Some(0);
    CancelledWorkIsStuck(WorkLate, 0);
  }
}
