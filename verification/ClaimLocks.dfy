/** Why a claim may be taken as one step. It sums usage and reservations policy by policy, in separate
    statements, but under the update lock of its company row. Whoever inserts a usage row needs the key
    share lock of that row, because usage refers to the company, and the two locks exclude each other.
    This module models the statements and the locks, for the transactions of one company. */
module ClaimLocks {
  import opened Basics
  import opened Calendar
  import opened TransitionSystems
  import opened ExecutionPolicy
  import opened ExecutionLedger
  import opened Budget
  import opened LedgerInvariant

  // ---------------------------------------------------------------- transactions

  /** A claim waits for the update lock, holds it until commit or rollback, and is done. */
  datatype ClaimPhase = Waiting | Holding | Released

  /** A claim under way: the policies it read, if it has, what it has reserved so far, the first of the
      two sums for the next policy, and its refusal. */
  datatype Claimant = Claimant(
    q: ClaimRequest, ceiling: Money, now: Time, phase: ClaimPhase, chosen: bool, selected: seq<Policy>,
    rows: seq<Reservation>, consumed: Option<int>, refused: Option<Denial>)
  {
    predicate Untouched() {
      !chosen && selected == [] && rows == [] && consumed.None? && refused.None?
    }
  }

  /** The transactions that insert usage rows. */
  datatype Work =
    | Settling(ticket: Ticket, cost: Money, failed: bool, estimated: bool)
    | Recovering(run: Id, company: Id)
    | Recording(row: Usage)

  /** A writer takes the key share lock with its first usage row and keeps it until commit. */
  datatype WriterPhase = Open | Sharing | Ended

  datatype Writer = Writer(work: Work, phase: WriterPhase)

  /** What a writer's commit makes visible. */
  function Effect(l: Ledger, w: Work): Ledger {
    match w
    case Settling(t, cost, failed, estimated) => AfterCommit(l, Settle(l, t, cost, failed, estimated))
    case Recovering(run, company) => AfterCommit(l, Recover(l, run, company))
    case Recording(row) => l.(usage := l.usage + [row])
  }

  datatype State = State(ledger: Ledger, claims: seq<Claimant>, writers: seq<Writer>)

  datatype Step =
    | Lock(c: nat) | Choose(c: nat) | SumUsage(c: nat) | SumReserved(c: nat) | Finish(c: nat, commit: bool)
    | Share(w: nat) | Publish(w: nat) | Abandon(w: nat)
    | Elsewhere

  predicate Held(s: State) {
    exists c | 0 <= c < |s.claims| :: s.claims[c].phase == Holding
  }

  predicate Shared(s: State) {
    exists w | 0 <= w < |s.writers| :: s.writers[w].phase == Sharing
  }

  function WithClaim(s: State, c: nat, x: Claimant): State
    requires c < |s.claims|
  {
    s.(claims := s.claims[c := x])
  }

  function WithWriter(s: State, w: nat, phase: WriterPhase): State
    requires w < |s.writers|
  {
    s.(writers := s.writers[w := s.writers[w].(phase := phase)])
  }

  /** The first sum for the next policy, after the test of its models. */
  function AfterUsage(l: Ledger, x: Claimant): Claimant
    requires |x.rows| < |x.selected|
  {
    var p := x.selected[|x.rows|];
    if p.allowlist != {} && x.q.config.model !in p.allowlist then x.(refused := Some(ModelNotAllowed))
    else x.(consumed := Some(Consumed(l.usage, p.id, PeriodStart(p.period, x.now))))
  }

  /** The second sum, and the decision. */
  function AfterReserved(l: Ledger, x: Claimant): Claimant
    requires |x.rows| < |x.selected| && x.consumed.Some?
  {
    var p := x.selected[|x.rows|];
    if x.consumed.value + Reserved(l.reservations, p.id) + x.ceiling > p.limit then
      x.(consumed := None, refused := Some(BudgetExceeded))
    else x.(consumed := None, rows := x.rows + [Reservation(x.q.Execution(), p.id, x.ceiling, false)])
  }

  predicate Reading(s: State, c: nat) {
    c < |s.claims| && s.claims[c].phase == Holding && s.claims[c].refused.None?
    && |s.claims[c].rows| < |s.claims[c].selected|
  }

  predicate Decided(x: Claimant) {
    x.chosen && (x.refused.Some? || |x.rows| == |x.selected|)
  }

  predicate Next(s: State, step: Step, s': State) {
    match step
    case Lock(c) =>
      && c < |s.claims| && s.claims[c].phase == Waiting && !Held(s) && !Shared(s)
      && s' == WithClaim(s, c, s.claims[c].(phase := Holding))
    case Choose(c) =>
      && c < |s.claims| && s.claims[c].phase == Holding && !s.claims[c].chosen
      && s' == WithClaim(s, c, s.claims[c].(chosen := true, selected := Selected(s.ledger.policies, s.claims[c].q)))
    case SumUsage(c) =>
      Reading(s, c) && s.claims[c].consumed.None? && s' == WithClaim(s, c, AfterUsage(s.ledger, s.claims[c]))
    case SumReserved(c) =>
      Reading(s, c) && s.claims[c].consumed.Some? && s' == WithClaim(s, c, AfterReserved(s.ledger, s.claims[c]))
    case Finish(c, commit) =>
      && c < |s.claims| && s.claims[c].phase == Holding && (commit ==> s.claims[c].refused.None? && Decided(s.claims[c]))
      && s' == WithClaim(s, c, s.claims[c].(phase := Released)).(ledger := s'.ledger)
      && s'.ledger == s.ledger.(leases := s'.ledger.leases, works := s'.ledger.works, approvals := s'.ledger.approvals,
                                runs := s'.ledger.runs, reservations := s'.ledger.reservations)
      && s'.ledger.reservations == s.ledger.reservations + if commit then s.claims[c].rows else []
    case Share(w) =>
      w < |s.writers| && s.writers[w].phase == Open && !Held(s) && s' == WithWriter(s, w, Sharing)
    case Publish(w) =>
      && w < |s.writers|
      && (s.writers[w].phase == Sharing
          || (s.writers[w].phase == Open && Effect(s.ledger, s.writers[w].work).usage == s.ledger.usage))
      && s' == WithWriter(s, w, Ended).(ledger := Effect(s.ledger, s.writers[w].work))
    case Abandon(w) =>
      w < |s.writers| && s' == WithWriter(s, w, Ended)
    case Elsewhere =>
      s' == s.(ledger := s'.ledger) && s'.ledger.usage == s.ledger.usage && s'.ledger.reservations == s.ledger.reservations
  }

  predicate Begins(s: State) {
    && (forall c | 0 <= c < |s.claims| :: s.claims[c].phase == Waiting && s.claims[c].Untouched())
    && (forall w | 0 <= w < |s.writers| :: s.writers[w].phase == Open)
  }

  // ---------------------------------------------------------------- the sums stand still

  /** The tables the sums range over. */
  predicate SameSums(l: Ledger, l': Ledger) {
    l'.usage == l.usage && l'.reservations == l.reservations
  }

  lemma {:induction false} NoChargeNoRow(rows: seq<Reservation>, c: Charge)
    requires ChargeRows(rows, c) == []
    ensures forall i | 0 <= i < |rows| :: rows[i].execution != c.execution
  {
    if rows != [] {
      NoChargeNoRow(rows[..|rows| - 1], c);
    }
  }

  /** A settlement that inserts no usage row settles no reservation either. */
  lemma QuietSettle(l: Ledger, t: Ticket, cost: Money, failed: bool, estimated: bool)
    requires AfterCommit(l, Settle(l, t, cost, failed, estimated)).usage == l.usage
    ensures AfterCommit(l, Settle(l, t, cost, failed, estimated)).reservations == l.reservations
  {
    var r := Settle(l, t, cost, failed, estimated);
    if r.Ok? {
      var c := Charge(t.execution, t.run, cost, failed, estimated, l.clock);
      assert |r.value.usage| == |l.usage| + |ChargeRows(l.reservations, c)|;
      NoChargeNoRow(l.reservations, c);
      assert r.value.reservations == l.reservations;
    }
  }

  lemma QuietRecover(l: Ledger, run: Id, company: Id)
    requires AfterCommit(l, Recover(l, run, company)).usage == l.usage
    ensures AfterCommit(l, Recover(l, run, company)).reservations == l.reservations
  {
    if Recover(l, run, company).Ok? {
      var i := FindByRun(l.leases, company, run).value;
      var lease, ceiling := l.leases[i], Ceiling(l.reservations, l.leases[i].execution);
      var reopened := l.(leases := l.leases[i := lease.(state := Running)]);
      QuietSettle(reopened, Ticket(lease.execution, lease.run, lease.owner, ceiling), ceiling, true, true);
    }
  }

  /** A writer that did not need the key share lock leaves both sums alone. */
  lemma QuietWriter(l: Ledger, w: Work)
    requires Effect(l, w).usage == l.usage
    ensures SameSums(l, Effect(l, w))
  {
    match w
    case Settling(t, cost, failed, estimated) => QuietSettle(l, t, cost, failed, estimated);
    case Recovering(run, company) => QuietRecover(l, run, company);
    case Recording(row) =>
  }

  /** The two locks exclude each other, and update locks exclude one another. */
  predicate Excluded(s: State) {
    && (Held(s) ==> !Shared(s))
    && (forall c, d | 0 <= c < d < |s.claims| && s.claims[c].phase == Holding :: s.claims[d].phase != Holding)
  }

  lemma StepKeepsExcluded(s: State, step: Step, s': State)
    requires Excluded(s) && Next(s, step, s')
    ensures Excluded(s')
  {
    if Held(s') && !Held(s) {
      assert step.Lock?;
    }
    if Shared(s') && !Shared(s) {
      assert step.Share?;
    }
  }

  /** While a claim holds its lock, nothing it sums changes, except by its own commit. */
  lemma HeldStandsStill(s: State, step: Step, s': State, c: nat)
    requires Excluded(s) && Next(s, step, s') && c < |s.claims|
    requires s.claims[c].phase == Holding && s'.claims[c].phase == Holding
    ensures SameSums(s.ledger, s'.ledger)
  {
    assert Held(s);
    match step
    case Publish(w) =>
      assert s.writers[w].phase != Sharing;
      QuietWriter(s.ledger, s.writers[w].work);
    case _ =>
  }

  function Rank(p: ClaimPhase): nat {
    match p case Waiting => 0 case Holding => 1 case Released => 2
  }

  /** Claims only move on, and between two moments of one lock the sums are the same. */
  predicate StandsStill(s: State, s': State) {
    && |s.claims| == |s'.claims|
    && (forall c | 0 <= c < |s.claims| ::
          && Rank(s.claims[c].phase) <= Rank(s'.claims[c].phase)
          && (s.claims[c].phase == Holding && s'.claims[c].phase == Holding ==> SameSums(s.ledger, s'.ledger)))
  }

  lemma StepStandsStill(s: State, step: Step, s': State)
    requires Excluded(s) && Next(s, step, s')
    ensures StandsStill(s, s')
  {
    forall c | 0 <= c < |s.claims| && s.claims[c].phase == Holding && s'.claims[c].phase == Holding
      ensures SameSums(s.ledger, s'.ledger)
    {
      HeldStandsStill(s, step, s', c);
    }
  }

  /** In every interleaving of a claim's statements with settlements, recoveries, other usage and other
      claims: from the moment it takes its lock until it releases it, usage and reservations are those of
      one snapshot. */
  lemma OneSnapshot(states: seq<State>, steps: seq<Step>, m: nat, n: nat, c: nat)
    requires IsRun(Begins, Next, states, steps) && m <= n < |states| && c < |states[m].claims|
    ensures |states[n].claims| == |states[m].claims|
    ensures states[m].claims[c].phase == Holding && states[n].claims[c].phase == Holding ==>
      SameSums(states[m].ledger, states[n].ledger)
  {
    forall s, step, s' | Excluded(s) && Next(s, step, s') ensures Excluded(s') && StandsStill(s, s') {
      StepKeepsExcluded(s, step, s');
      StepStandsStill(s, step, s');
    }
    forall s, t, u | StandsStill(s, t) && StandsStill(t, u) ensures StandsStill(s, u) {
      StandsStillTransitive(s, t, u);
    }
    Ordered(Begins, Next, Excluded, StandsStill, states, steps, m, n);
  }

  lemma StandsStillTransitive(s: State, t: State, u: State)
    requires StandsStill(s, t) && StandsStill(t, u)
    ensures StandsStill(s, u)
  {
    forall c | 0 <= c < |s.claims| && s.claims[c].phase == Holding && u.claims[c].phase == Holding
      ensures SameSums(s.ledger, u.ledger)
    {
      assert Rank(s.claims[c].phase) <= Rank(t.claims[c].phase) <= Rank(u.claims[c].phase);
    }
  }

  // ---------------------------------------------------------------- the decision is that of one step

  /** Reserving looks at nothing but the sums. */
  lemma {:induction false} ReserveEachSame(l: Ledger, l': Ledger, ps: seq<Policy>, q: ClaimRequest, ceiling: Money, now: Time)
    requires SameSums(l, l')
    ensures ReserveEach(l', ps, q, ceiling, now) == ReserveEach(l, ps, q, ceiling, now)
  {
    if ps != [] {
      ReserveEachSame(l, l', ps[..|ps| - 1], q, ceiling, now);
    }
  }

  /** What a claim has read and decided so far is what an undivided claim would, now. */
  predicate UpToDate(l: Ledger, x: Claimant) {
    && |x.rows| <= |x.selected|
    && ReserveEach(l, x.selected[..|x.rows|], x.q, x.ceiling, x.now) == Ok(x.rows)
    && (x.refused.Some? ==> ReserveEach(l, x.selected, x.q, x.ceiling, x.now) == Err(x.refused.value))
    && (x.consumed.Some? ==>
          && |x.rows| < |x.selected|
          && var p := x.selected[|x.rows|];
          && !(p.allowlist != {} && x.q.config.model !in p.allowlist)
          && x.consumed.value == Consumed(l.usage, p.id, PeriodStart(p.period, x.now)))
  }

  lemma UsageUpToDate(l: Ledger, x: Claimant)
    requires UpToDate(l, x) && |x.rows| < |x.selected| && x.refused.None? && x.consumed.None?
    ensures UpToDate(l, AfterUsage(l, x))
  {
    var k := |x.rows|;
    assert x.selected[..k + 1][..k] == x.selected[..k];
    if AfterUsage(l, x).refused.Some? {
      FirstRefusalDecides(l, x.selected, k + 1, x.q, x.ceiling, x.now);
    }
  }

  lemma ReservedUpToDate(l: Ledger, x: Claimant)
    requires UpToDate(l, x) && |x.rows| < |x.selected| && x.refused.None? && x.consumed.Some?
    ensures UpToDate(l, AfterReserved(l, x))
  {
    var k := |x.rows|;
    assert x.selected[..k + 1][..k] == x.selected[..k];
    if AfterReserved(l, x).refused.Some? {
      FirstRefusalDecides(l, x.selected, k + 1, x.q, x.ceiling, x.now);
    }
  }

  lemma StaysUpToDate(l: Ledger, l': Ledger, x: Claimant)
    requires UpToDate(l, x) && SameSums(l, l')
    ensures UpToDate(l', x)
  {
    ReserveEachSame(l, l', x.selected[..|x.rows|], x.q, x.ceiling, x.now);
    ReserveEachSame(l, l', x.selected, x.q, x.ceiling, x.now);
  }

  /** Holding claims are up to date, and waiting ones have not read anything. */
  predicate Current(s: State) {
    forall c | 0 <= c < |s.claims| ::
      && (s.claims[c].phase == Holding ==> UpToDate(s.ledger, s.claims[c]))
      && (s.claims[c].phase == Waiting ==> s.claims[c].Untouched())
      && (!s.claims[c].chosen ==> s.claims[c].Untouched())
  }

  lemma ClaimStaysCurrent(s: State, step: Step, s': State, c: nat)
    requires Excluded(s) && Current(s) && Next(s, step, s') && c < |s.claims| && s'.claims[c].phase == Holding
    ensures UpToDate(s'.ledger, s'.claims[c])
  {
    if s.claims[c].phase == Holding {
      HeldStandsStill(s, step, s', c);
      StaysUpToDate(s.ledger, s'.ledger, s.claims[c]);
      if step == Choose(c) {
        assert s'.claims[c].selected[..0] == [];
      } else if step == SumUsage(c) {
        UsageUpToDate(s.ledger, s.claims[c]);
      } else if step == SumReserved(c) {
        ReservedUpToDate(s.ledger, s.claims[c]);
      }
    } else {
      assert s'.claims[c].selected[..0] == [];
    }
  }

  lemma StepKeepsCurrent(s: State, step: Step, s': State)
    requires Excluded(s) && Current(s) && Next(s, step, s')
    ensures Current(s')
  {
    forall c | 0 <= c < |s'.claims| && s'.claims[c].phase == Holding ensures UpToDate(s'.ledger, s'.claims[c]) {
      ClaimStaysCurrent(s, step, s', c);
    }
  }

  /** The claim that reads statement by statement decides, when it commits, exactly as the undivided
      claim does on the ledger of that moment: the same reservations, or the same refusal. */
  lemma ClaimIsOneStep(states: seq<State>, steps: seq<Step>, n: nat, c: nat)
    requires IsRun(Begins, Next, states, steps) && n < |states| && c < |states[n].claims|
    requires states[n].claims[c].phase == Holding && Decided(states[n].claims[c])
    ensures
      var x := states[n].claims[c];
      ReserveEach(states[n].ledger, x.selected, x.q, x.ceiling, x.now)
        == if x.refused.Some? then Err(x.refused.value) else Ok(x.rows)
  {
    var inv := (s: State) => Excluded(s) && Current(s);
    forall s, step, s' | inv(s) && Next(s, step, s') ensures inv(s') {
      StepKeepsExcluded(s, step, s');
      StepKeepsCurrent(s, step, s');
    }
    Invariant(Begins, Next, inv, states, steps, n);
    var x := states[n].claims[c];
    if x.refused.None? {
      assert x.selected[..|x.rows|] == x.selected;
    }
  }
}
