/** When exclusion and coupling hold over a whole run: exactly when every uncertain mark is harmless,
    and in particular when runners report before their leases run out. */
module LedgerTimeliness {
  import opened Basics
  import opened ExecutionLedger
  import opened LedgerInvariant
  import opened LedgerSteps
  import opened LedgerRuns
  import opened LedgerTheorems
  import opened LedgerLimits

  // ---------------------------------------------------------------- the exact condition

  /** The lease is still active, or it held no reservation and its resource is free. */
  predicate HarmlessMark(l: Ledger, t: Ticket) {
    var found := FindLease(l.leases, t.execution);
    && found.Some?
    && var lease := l.leases[found.value];
    || lease.Active()
    || ((forall k | 0 <= k < |l.reservations| :: l.reservations[k].execution != t.execution)
        && FindActive(l.leases, lease.company, lease.resource).None?)
  }

  predicate HarmlessStep(l: Ledger, ev: Event) {
    ev.Uncertain? ==> HarmlessMark(l, ev.ticket)
  }

  lemma HarmlessIff(l: Ledger, ev: Event, l': Ledger)
    requires Inv(l) && Next(l, ev, l')
    ensures Guarded(l') <==> HarmlessStep(l, ev)
  {
    if ev.Uncertain? {
      UncertainSoundIff(l, ev.ticket);
      UncertainKeepsCore(l, ev.ticket);
    } else {
      StepKeepsGuarded(l, ev, l');
    }
  }

  lemma {:induction false} HarmlessUpTo(states: seq<Ledger>, events: seq<Event>, n: nat)
    requires Behavior(states, events) && n < |states|
    requires forall k {:trigger HarmlessStep(states[k], events[k])} | 0 <= k < n :: HarmlessStep(states[k], events[k])
    ensures Guarded(states[n])
  {
    if n == 0 {
      InitialInv(states[0]);
    } else {
      HarmlessUpTo(states, events, n - 1);
      ReachableCore(states, events, n - 1);
      assert Next(states[n - 1], events[n - 1], states[n]);
      assert HarmlessStep(states[n - 1], events[n - 1]);
      HarmlessIff(states[n - 1], events[n - 1], states[n]);
    }
  }

  lemma HarmfulBreaks(states: seq<Ledger>, events: seq<Event>, n: nat)
    requires Behavior(states, events) && n < |events| && Guarded(states[n]) && Guarded(states[n + 1])
    ensures HarmlessStep(states[n], events[n])
  {
    ReachableCore(states, events, n);
    assert Next(states[n], events[n], states[n + 1]);
    HarmlessIff(states[n], events[n], states[n + 1]);
  }

  /** Over any run whatever, every state keeps one active lease per resource and reservations settled
      exactly with their leases, if and only if every uncertain mark finds its lease active, or
      unreserved with its resource free. */
  lemma SoundRunIff(states: seq<Ledger>, events: seq<Event>)
    requires Behavior(states, events)
    ensures (forall n | 0 <= n < |states| :: Guarded(states[n]))
       <==> (forall n | 0 <= n < |events| :: HarmlessStep(states[n], events[n]))
  {
    if forall n | 0 <= n < |states| :: Guarded(states[n]) {
      forall n | 0 <= n < |events| ensures HarmlessStep(states[n], events[n]) {
        HarmfulBreaks(states, events, n);
      }
    }
    if forall n | 0 <= n < |events| :: HarmlessStep(states[n], events[n]) {
      forall n | 0 <= n < |states| ensures Guarded(states[n]) {
        HarmlessUpTo(states, events, n);
      }
    }
  }

  // ---------------------------------------------------------------- runners that report in time

  /** The runner's own conclusions of an execution. */
  predicate Concludes(ev: Event, e: Id) {
    (ev.SettleRun? || ev.Uncertain?) && ev.ticket.execution == e
  }

  /** The lease at `i` has its original expiry and is active, unless that has passed. */
  predicate StillOpen(l: Ledger, i: nat, e: Id, expiry: Time) {
    && i < |l.leases| && l.leases[i].execution == e && l.leases[i].expiresAt == expiry
    && (l.leases[i].Active() || expiry <= l.clock)
  }

  lemma StartKeepsOpen(l: Ledger, q: ClaimRequest, now: Time, owner: Id, i: nat, e: Id, expiry: Time)
    requires StillOpen(l, i, e, expiry)
    ensures StillOpen(Start(l, q, now, owner).0, i, e, expiry)
  {
    ClaimShape(l, q, now, owner);
    var (claimed, outcome) := Claim(l, q, now, owner);
    if outcome.Granted? {
      var approved :| Grants(l, claimed, Grant(q, now, owner, outcome.ticket.ceiling, approved));
    }
  }

  lemma SettleKeepsOpen(l: Ledger, t: Ticket, cost: Money, failed: bool, estimated: bool, status: RunStatus, i: nat, e: Id, expiry: Time)
    requires StillOpen(l, i, e, expiry) && t.execution != e
    ensures StillOpen(AfterCommit(l, SettleAndFinish(l, t, cost, failed, estimated, status)), i, e, expiry)
  {
  }

  /** A recovery touches the lease only once its time has passed. */
  lemma RecoverKeepsOpen(l: Ledger, run: Id, company: Id, i: nat, e: Id, expiry: Time)
    requires LeaseKeys(l) && StillOpen(l, i, e, expiry)
    ensures StillOpen(AfterCommit(l, Recover(l, run, company)), i, e, expiry)
  {
    if Recover(l, run, company).Ok? {
      var j := FindByRun(l.leases, company, run).value;
      var reopened := l.leases[j := l.leases[j].(state := Running)];
      var k := FindLease(reopened, l.leases[j].execution).value;
      assert k == j by {
        assert reopened[k].execution == l.leases[k].execution && reopened[j].execution == l.leases[j].execution;
      }
    }
  }

  lemma StepKeepsOpen(l: Ledger, ev: Event, l': Ledger, i: nat, e: Id, expiry: Time)
    requires LeaseKeys(l) && Next(l, ev, l') && StillOpen(l, i, e, expiry) && !Concludes(ev, e)
    ensures StillOpen(l', i, e, expiry)
  {
    match ev
    case StartRun(q, now, owner) => StartKeepsOpen(l, q, now, owner, i, e, expiry);
    case SettleRun(t, cost, failed, estimated, status) => SettleKeepsOpen(l, t, cost, failed, estimated, status, i, e, expiry);
    case OperatorRecover(run, company) => RecoverKeepsOpen(l, run, company, i, e, expiry);
    case _ =>
  }

  lemma DispatchOpens(l: Ledger, ev: Event, l': Ledger)
    requires Next(l, ev, l') && Dispatches(l, ev).Some?
    ensures StillOpen(l', |l.leases|, Dispatches(l, ev).value.execution, ev.now + LEASE_TIME)
  {
    ClaimShape(l, ev.request, ev.now, ev.owner);
    var (claimed, outcome) := Claim(l, ev.request, ev.now, ev.owner);
    var approved :| Grants(l, claimed, Grant(ev.request, ev.now, ev.owner, outcome.ticket.ceiling, approved));
  }

  lemma {:induction false} OpenMeanwhile(states: seq<Ledger>, events: seq<Event>, m: nat, n: nat, i: nat, e: Id, expiry: Time)
    requires Behavior(states, events) && m <= n < |states| && StillOpen(states[m], i, e, expiry)
    requires forall k | m <= k < n :: !Concludes(events[k], e)
    ensures StillOpen(states[n], i, e, expiry)
  {
    if m < n {
      OpenMeanwhile(states, events, m, n - 1, i, e, expiry);
      ReachableCore(states, events, n - 1);
      assert Next(states[n - 1], events[n - 1], states[n]);
      StepKeepsOpen(states[n - 1], events[n - 1], states[n], i, e, expiry);
    }
  }

  /** A dispatched lease that its runner has not concluded keeps its expiry, and stays active until then. */
  lemma OpenUntilConcluded(states: seq<Ledger>, events: seq<Event>, d: nat, n: nat)
    requires Behavior(states, events) && d < n < |states| && Dispatches(states[d], events[d]).Some?
    requires forall m | d < m < n :: !Concludes(events[m], Dispatches(states[d], events[d]).value.execution)
    ensures StillOpen(states[n], |states[d].leases|, Dispatches(states[d], events[d]).value.execution, events[d].now + LEASE_TIME)
  {
    var e := Dispatches(states[d], events[d]).value.execution;
    assert Next(states[d], events[d], states[d + 1]);
    DispatchOpens(states[d], events[d], states[d + 1]);
    OpenMeanwhile(states, events, d + 1, n, |states[d].leases|, e, events[d].now + LEASE_TIME);
  }

  /** The ticket was handed out at `d`, is concluded here for the first time, and its lease time has not
      passed yet. */
  predicate ReportsInTime(states: seq<Ledger>, events: seq<Event>, d: nat, n: nat)
    requires |states| == |events| + 1
  {
    && d < n < |events| && events[n].Uncertain? && Dispatches(states[d], events[d]) == Some(events[n].ticket)
    && states[n].clock < events[d].now + LEASE_TIME
    && (forall m | d < m < n :: !Concludes(events[m], events[n].ticket.execution))
  }

  /** Every uncertain mark is its runner's first conclusion and comes within the lease time. */
  predicate Punctual(states: seq<Ledger>, events: seq<Event>)
    requires |states| == |events| + 1
  {
    forall n | 0 <= n < |events| && events[n].Uncertain? :: exists d :: 0 <= d < n && ReportsInTime(states, events, d, n)
  }

  lemma InTimeIsTimely(states: seq<Ledger>, events: seq<Event>, d: nat, n: nat)
    requires Behavior(states, events) && ReportsInTime(states, events, d, n)
    ensures Timely(states[n], events[n])
  {
    OpenUntilConcluded(states, events, d, n);
    ReachableCore(states, events, n);
    var l, i := states[n], |states[d].leases|;
    forall k | 0 <= k < |l.leases| && l.leases[k].execution == events[n].ticket.execution ensures l.leases[k].Active() {
      assert k == i;
    }
  }

  /** Runners that report before their lease time has passed make a timely run: no recovery can have come
      first. So exclusion and coupling hold throughout. */
  lemma PunctualIsSound(states: seq<Ledger>, events: seq<Event>, n: nat)
    requires Behavior(states, events) && Punctual(states, events) && n < |states|
    ensures TimelyBehavior(states, events) && Inv(states[n])
  {
    forall k | 0 <= k < |events| ensures TimelyNext(states[k], events[k], states[k + 1]) {
      assert Next(states[k], events[k], states[k + 1]);
      if events[k].Uncertain? {
        var d :| 0 <= d < k && ReportsInTime(states, events, d, k);
        InTimeIsTimely(states, events, d, k);
      }
    }
    ReachableInv(states, events, n);
  }
}
