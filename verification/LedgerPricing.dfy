/** What a run is said to have cost is what its execution was charged, over every run of the ledger. */
module LedgerPricing {
  import opened Basics
  import opened Sequences
  import opened TransitionSystems
  import opened ExecutionLedger
  import opened LedgerInvariant
  import opened LedgerSteps
  import opened LedgerRuns
  import opened LedgerTheorems
  import opened SettlementRules
  import opened AgentRunner

  /** The usage row says what the run row says. */
  predicate Agrees(u: Usage, runs: seq<Run>, run: Id, company: Id) {
    var at := FindRun(runs, run, company);
    at.Some? && runs[at.value].cost == u.cost && runs[at.value].estimated == u.estimated && u.run == Some(run)
  }

  /** Every charge of an execution agrees with its run. */
  predicate Priced(l: Ledger) {
    forall k, i | 0 <= k < |l.usage| && 0 <= i < |l.leases| && l.usage[k].execution == Some(l.leases[i].execution) ::
      Agrees(l.usage[k], l.runs, l.leases[i].run, l.leases[i].company)
  }

  /** The lease at `j` is charged, and its run gets the cost. */
  ghost predicate Prices(l: Ledger, l': Ledger, j: nat, at: nat, cost: Money, failed: bool, estimated: bool) {
    && j < |l.leases| && RunAt(l.runs, l.leases[j].run, l.leases[j].company, at) && Restates(l, l')
    && Charges(l, l'.usage, l.leases[j].execution, l.leases[j].run, cost, failed, estimated)
    && |l'.runs| == |l.runs| && (forall k | 0 <= k < |l.runs| && k != at :: l'.runs[k] == l.runs[k])
    && l'.runs[at].id == l.runs[at].id && l'.runs[at].company == l.runs[at].company
    && l'.runs[at].cost == cost && l'.runs[at].estimated == estimated
  }

  predicate Unsettled(l: Ledger, e: Id) {
    forall k | 0 <= k < |l.reservations| && l.reservations[k].execution == e :: !l.reservations[k].settled
  }

  lemma {:induction false} RowCounts(usage: seq<Usage>, k: nat, e: Id, b: Id)
    requires k < |usage| && usage[k].execution == Some(e) && usage[k].budget == b
    ensures Sum(usage, UsageCount(e, b)) >= 1
  {
    var n := |usage| - 1;
    if k < n {
      RowCounts(usage[..n], k, e, b);
    } else {
      var none := (u: Usage) => 0;
      SumBound(usage[..n], none, usage[..n], UsageCount(e, b));
      SumZero(usage[..n], none);
    }
  }

  /** What has settled nothing has been charged nothing. */
  lemma NotChargedYet(l: Ledger, e: Id, k: nat)
    requires Balanced(l) && Unsettled(l, e) && k < |l.usage|
    ensures l.usage[k].execution != Some(e)
  {
    var b := l.usage[k].budget;
    SumZero(l.reservations, SettledCount(e, b));
    assert Sum(l.usage, UsageCount(e, b)) == Sum(l.reservations, SettledCount(e, b));
    if l.usage[k].execution == Some(e) {
      RowCounts(l.usage, k, e, b);
    }
  }

  lemma OtherRunAgrees(l: Ledger, l': Ledger, j: nat, at: nat, cost: Money, failed: bool, estimated: bool, u: Usage, i: nat)
    requires LeaseKeys(l) && Prices(l, l', j, at, cost, failed, estimated) && i < |l.leases| && i != j
    requires Agrees(u, l.runs, l.leases[i].run, l.leases[i].company)
    ensures Agrees(u, l'.runs, l.leases[i].run, l.leases[i].company)
  {
    FindRunRestated(l.runs, l'.runs);
    assert l.leases[i].run != l.leases[j].run;
  }

  lemma PricedRunFound(l: Ledger, l': Ledger, j: nat, at: nat, cost: Money, failed: bool, estimated: bool)
    requires Prices(l, l', j, at, cost, failed, estimated)
    ensures FindRun(l'.runs, l.leases[j].run, l.leases[j].company) == Some(at)
  {
    FindRunRestated(l.runs, l'.runs);
    RunAtFound(l.runs, l.leases[j].run, l.leases[j].company);
  }

  lemma NewRowAgrees(l: Ledger, l': Ledger, j: nat, at: nat, cost: Money, failed: bool, estimated: bool, k: nat)
    requires Prices(l, l', j, at, cost, failed, estimated) && |l.usage| <= k < |l'.usage|
    ensures l'.usage[k].execution == Some(l.leases[j].execution)
    ensures Agrees(l'.usage[k], l'.runs, l.leases[j].run, l.leases[j].company)
  {
    ChargedRow(l, l'.usage, l.leases[j].execution, l.leases[j].run, cost, failed, estimated, k);
    PricedRunFound(l, l', j, at, cost, failed, estimated);
  }

  lemma PricesKeepPriced(l: Ledger, l': Ledger, j: nat, at: nat, cost: Money, failed: bool, estimated: bool)
    requires LeaseKeys(l) && Balanced(l) && Priced(l) && Prices(l, l', j, at, cost, failed, estimated)
    requires Unsettled(l, l.leases[j].execution)
    ensures Priced(l')
  {
    forall k, i | 0 <= k < |l'.usage| && 0 <= i < |l'.leases| && l'.usage[k].execution == Some(l'.leases[i].execution)
      ensures Agrees(l'.usage[k], l'.runs, l'.leases[i].run, l'.leases[i].company)
    {
      assert l.leases[i].SameIdentity(l'.leases[i]);
      if k < |l.usage| {
        assert l'.usage[k] == l.usage[k];
        NotChargedYet(l, l.leases[j].execution, k);
        OtherRunAgrees(l, l', j, at, cost, failed, estimated, l.usage[k], i);
      } else {
        NewRowAgrees(l, l', j, at, cost, failed, estimated, k);
        assert i == j;
      }
    }
  }

  /** What a settlement demands, for the pricing of its run. */
  lemma SettledUnsettled(l: Ledger, t: Ticket, cost: Money, failed: bool, estimated: bool)
    requires Settle(l, t, cost, failed, estimated).Ok?
    ensures Unsettled(l, t.execution)
  {
    SettlesIff(l, t, cost, failed, estimated);
  }

  lemma SettlePrices(l: Ledger, t: Ticket, cost: Money, failed: bool, estimated: bool, status: RunStatus, j: nat) returns (at: nat)
    requires Settle(l, t, cost, failed, estimated).Ok? && Names(l, t, j) && l.leases[j].run == t.run
    ensures SettleAndFinish(l, t, cost, failed, estimated, status).Ok?
    ensures Prices(l, SettleAndFinish(l, t, cost, failed, estimated, status).value, j, at, cost, failed, estimated)
  {
    at := FinishWrites(l, t, cost, failed, estimated, status, j);
  }

  lemma SettleKeepsPriced(l: Ledger, t: Ticket, cost: Money, failed: bool, estimated: bool, status: RunStatus)
    requires LeaseKeys(l) && Balanced(l) && Priced(l) && Issued(l, t)
    ensures Priced(AfterCommit(l, SettleAndFinish(l, t, cost, failed, estimated, status)))
  {
    if Settle(l, t, cost, failed, estimated).Ok? {
      IssuedFound(l, t);
      NamesFound(l, t);
      var j := FindLease(l.leases, t.execution).value;
      var at := SettlePrices(l, t, cost, failed, estimated, status, j);
      SettledUnsettled(l, t, cost, failed, estimated);
      PricesKeepPriced(l, SettleAndFinish(l, t, cost, failed, estimated, status).value, j, at, cost, failed, estimated);
    }
  }

  lemma RecoveredUnsettled(l: Ledger, run: Id, company: Id, i: nat)
    requires Recover(l, run, company).Ok? && Addressed(l, run, company, i)
    ensures Unsettled(l, l.leases[i].execution)
  {
    AddressedFound(l, run, company);
  }

  lemma RecoveryPrices(l: Ledger, l': Ledger, i: nat, at: nat, cost: Money)
    requires i < |l.leases| && RunAt(l.runs, l.leases[i].run, l.leases[i].company, at) && Recovers(l, l', i, at, cost)
    ensures Prices(l, l', i, at, cost, true, true)
  {
  }

  lemma RecoverKeepsPriced(l: Ledger, run: Id, company: Id)
    requires LeaseKeys(l) && Balanced(l) && Priced(l)
    ensures Priced(AfterCommit(l, Recover(l, run, company)))
  {
    if Recover(l, run, company).Ok? {
      var i, at, cost := RecoverWrites(l, run, company);
      RecoveredUnsettled(l, run, company, i);
      RecoveryPrices(l, Recover(l, run, company).value, i, at, cost);
      PricesKeepPriced(l, Recover(l, run, company).value, i, at, cost, true, true);
    }
  }

  /** A new execution has no charge yet, and a new run hides no older one. */
  lemma GrantKeepsPriced(l: Ledger, l': Ledger, lease: Lease, run: Run)
    requires RowKeys(l) && Priced(l) && FindLease(l.leases, lease.execution).None?
    requires l'.usage == l.usage && l'.leases == l.leases + [lease] && l'.runs == l.runs + [run]
    ensures Priced(l')
  {
    forall k, i | 0 <= k < |l'.usage| && 0 <= i < |l'.leases| && l'.usage[k].execution == Some(l'.leases[i].execution)
      ensures Agrees(l'.usage[k], l'.runs, l'.leases[i].run, l'.leases[i].company)
    {
      assert FindLease(l.leases, l.usage[k].execution.value).Some?;
      assert i < |l.leases| && l'.leases[i] == l.leases[i];
      RunsOnlyAppended(l.runs, run, l.leases[i].run, l.leases[i].company);
    }
  }

  lemma RunsOnlyAppended(runs: seq<Run>, run: Run, id: Id, company: Id)
    requires FindRun(runs, id, company).Some?
    ensures FindRun(runs + [run], id, company) == FindRun(runs, id, company)
  {
    RunAtFound(runs, id, company);
    RunAtFound(runs + [run], id, company);
    assert RunAt(runs + [run], id, company, FindRun(runs, id, company).value);
  }

  lemma StartKeepsPriced(l: Ledger, q: ClaimRequest, now: Time, owner: Id)
    requires RowKeys(l) && Priced(l)
    ensures Priced(Start(l, q, now, owner).0)
  {
    ClaimShape(l, q, now, owner);
    var (claimed, outcome) := Claim(l, q, now, owner);
    var l' := Start(l, q, now, owner).0;
    if outcome.Granted? {
      var approved :| Grants(l, claimed, Grant(q, now, owner, outcome.ticket.ceiling, approved));
      GrantKeepsPriced(l, l', l'.leases[|l.leases|], l'.runs[|l.runs|]);
    } else {
      QuietKeepsPriced(l, l');
    }
  }

  /** Leases only change state, and other usage belongs to no execution. */
  lemma QuietKeepsPriced(l: Ledger, l': Ledger)
    requires Priced(l) && Restates(l, l') && l'.runs == l.runs && l.usage <= l'.usage
    requires forall k | |l.usage| <= k < |l'.usage| :: l'.usage[k].execution.None?
    ensures Priced(l')
  {
  }

  lemma MarkKeepsPriced(l: Ledger, t: Ticket)
    requires Priced(l)
    ensures Priced(AfterCommit(l, MarkUncertain(l, t)))
  {
    QuietKeepsPriced(l, AfterCommit(l, MarkUncertain(l, t)));
  }

  lemma ControlKeepsPriced(l: Ledger, run: Id, company: Id, action: Control)
    requires Priced(l)
    ensures Priced(AfterCommit(l, RequestControl(l, run, company, action)))
  {
    QuietKeepsPriced(l, AfterCommit(l, RequestControl(l, run, company, action)));
  }

  lemma StepKeepsPriced(l: Ledger, ev: Event, l': Ledger)
    requires Core(l) && Priced(l) && Next(l, ev, l')
    ensures Priced(l')
  {
    match ev
    case StartRun(q, now, owner) => StartKeepsPriced(l, q, now, owner);
    case SettleRun(t, cost, failed, estimated, status) => SettleKeepsPriced(l, t, cost, failed, estimated, status);
    case Uncertain(t) => MarkKeepsPriced(l, t);
    case OperatorRecover(run, company) => RecoverKeepsPriced(l, run, company);
    case OperatorControl(run, company, action) => ControlKeepsPriced(l, run, company, action);
    case Decide(_, _) => QuietKeepsPriced(l, l');
    case Environment => QuietKeepsPriced(l, l');
  }

  /** In every reachable state, after any settlements, recoveries and late marks: every usage row of an
      execution has the cost and the estimate flag of its run. So all its budgets were charged the same,
      and the run says what. */
  lemma RunsSayTheirCharges(states: seq<Ledger>, events: seq<Event>, n: nat)
    requires Behavior(states, events) && n < |states|
    ensures Priced(states[n])
  {
    var inv := (l: Ledger) => Core(l) && Priced(l);
    forall l | Initial(l) ensures inv(l) {
      InitialInv(l);
    }
    forall l, ev, l' | inv(l) && Next(l, ev, l') ensures inv(l') {
      StepKeepsCore(l, ev, l');
      StepKeepsPriced(l, ev, l');
    }
    Invariant(Initial, Next, inv, states, events, n);
  }
}
