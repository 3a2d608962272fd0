/** The control plane and a receiving runtime together: the ledger dispatches runs over a network
    that may lose, delay, reorder and repeat requests, and the runtime calls its handler. */
module AtMostOnce {
  import opened Basics
  import opened TransitionSystems
  import opened ExecutionPolicy
  import opened ExecutionLedger
  import opened LedgerInvariant
  import opened LedgerSteps
  import opened LedgerRuns
  import opened LedgerTheorems
  import opened NativeExecutor

  /** `sent` holds every run that was ever dispatched: what the network may deliver, at any time and
      any number of times. */
  datatype Platform = Platform(ledger: Ledger, sent: set<Id>, runtime: Runtime)

  datatype Happening = Govern(step: Event) | Deliver(activity: Activity)

  predicate Moves(s: Platform, ev: Happening, s': Platform) {
    match ev
    case Govern(step) =>
      && Next(s.ledger, step, s'.ledger) && s'.runtime == s.runtime
      && s'.sent == s.sent + (var t := Dispatches(s.ledger, step); if t.Some? then {t.value.run} else {})
    case Deliver(activity) =>
      && s'.ledger == s.ledger && s'.sent == s.sent && Acts(s.runtime, activity, s'.runtime)
      && (activity.Arrive? ==> activity.request.run in s.sent)
  }

  predicate Begins(s: Platform) {
    Initial(s.ledger) && s.sent == {} && Boots(s.runtime)
  }

  predicate Leased(l: Ledger, run: Id) {
    exists i | 0 <= i < |l.leases| :: l.leases[i].run == run
  }

  /** What was sent has a lease, and what is known to the runtime was sent. */
  predicate Traced(s: Platform) {
    && (forall run | run in s.sent :: Leased(s.ledger, run))
    && (forall w | 0 <= w < |s.runtime.workers| :: s.runtime.workers[w].request.run in s.sent)
  }

  ghost predicate Kept(s: Platform) {
    Core(s.ledger) && Sound(s.runtime) && Traced(s)
  }

  lemma LeasePersists(l: Ledger, l': Ledger, run: Id)
    requires Persists(l, l') && Leased(l, run)
    ensures Leased(l', run)
  {
    var i :| 0 <= i < |l.leases| && l.leases[i].run == run;
    assert l'.leases[i].run == run;
  }

  lemma GovernKeepsTraced(s: Platform, step: Event, s': Platform)
    requires Core(s.ledger) && Traced(s) && Moves(s, Govern(step), s')
    ensures Traced(s')
  {
    StepPersists(s.ledger, step, s'.ledger);
    forall run | run in s.sent ensures Leased(s'.ledger, run) {
      LeasePersists(s.ledger, s'.ledger, run);
    }
    var t := Dispatches(s.ledger, step);
    if t.Some? {
      DispatchWritesLease(s.ledger, step, s'.ledger);
      ClaimShape(s.ledger, step.request, step.now, step.owner);
      assert s'.ledger.leases[|s.ledger.leases|].run == t.value.run;
    }
  }

  lemma DeliverKeepsTraced(s: Platform, activity: Activity, s': Platform)
    requires Traced(s) && Moves(s, Deliver(activity), s')
    ensures Traced(s')
  {
  }

  lemma MoveKeeps(s: Platform, ev: Happening, s': Platform)
    requires Kept(s) && Moves(s, ev, s')
    ensures Kept(s')
  {
    match ev
    case Govern(step) =>
      StepKeepsCore(s.ledger, step, s'.ledger);
      GovernKeepsTraced(s, step, s');
    case Deliver(activity) =>
      ActIsSound(s.runtime, activity, s'.runtime);
      DeliverKeepsTraced(s, activity, s');
  }

  lemma BeginKeeps(s: Platform)
    requires Begins(s)
    ensures Kept(s)
  {
    InitialInv(s.ledger);
  }

  lemma ReachableKept(states: seq<Platform>, events: seq<Happening>, n: nat)
    requires IsRun(Begins, Moves, states, events) && n < |states|
    ensures Kept(states[n])
  {
    forall s | Begins(s) ensures Kept(s) {
      BeginKeeps(s);
    }
    forall s, ev, s' | Kept(s) && Moves(s, ev, s') ensures Kept(s') {
      MoveKeeps(s, ev, s');
    }
    Invariant(Begins, Moves, (s: Platform) => Kept(s), states, events, n);
  }

  /** The handler was called for the execution: some call carries the run of its lease. */
  predicate CalledFor(s: Platform, call: nat, execution: Id) {
    && call < |s.runtime.calls|
    && exists i | 0 <= i < |s.ledger.leases| ::
         s.ledger.leases[i].execution == execution && s.ledger.leases[i].run == s.runtime.calls[call]
  }

  /** End to end, in every interleaving of retries, crashes, lost and repeated messages and operator
      recoveries: every handler call belongs to a dispatched execution, and each company and
      idempotency key gets at most one. */
  lemma AtMostOneHandlerCall(states: seq<Platform>, events: seq<Happening>, n: nat, company: Id, key: string)
    requires IsRun(Begins, Moves, states, events) && n < |states|
    ensures forall c | 0 <= c < |states[n].runtime.calls| :: Leased(states[n].ledger, states[n].runtime.calls[c])
    ensures forall c, d | CalledFor(states[n], c, ExecutionId(company, key)) && CalledFor(states[n], d, ExecutionId(company, key)) ::
      c == d
  {
    ReachableKept(states, events, n);
    var s := states[n];
    forall c | 0 <= c < |s.runtime.calls| ensures Leased(s.ledger, s.runtime.calls[c]) {
      assert WorksFor(s.runtime.workers, s.runtime.calls[c], Calling) || WorksFor(s.runtime.workers, s.runtime.calls[c], Done);
      var w :| 0 <= w < |s.runtime.workers| && s.runtime.workers[w].request.run == s.runtime.calls[c];
    }
    forall c: nat, d: nat | CalledFor(s, c, ExecutionId(company, key)) && CalledFor(s, d, ExecutionId(company, key))
      ensures c == d
    {
      SameExecutionSameCall(s, c, d, ExecutionId(company, key));
    }
  }

  lemma SameExecutionSameCall(s: Platform, c: nat, d: nat, e: Id)
    requires LeaseKeys(s.ledger) && OneCall(s.runtime) && CalledFor(s, c, e) && CalledFor(s, d, e)
    ensures c == d
  {
    var i :| 0 <= i < |s.ledger.leases| && s.ledger.leases[i].execution == e && s.ledger.leases[i].run == s.runtime.calls[c];
    var j :| 0 <= j < |s.ledger.leases| && s.ledger.leases[j].execution == e && s.ledger.leases[j].run == s.runtime.calls[d];
    assert i == j;
  }
}
