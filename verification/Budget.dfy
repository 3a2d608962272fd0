/** What a budget is committed to, and why no step of the ledger commits it beyond its limit. */
module Budget {
  import opened Basics
  import opened Calendar
  import opened Sequences
  import opened ExecutionLedger

  // ---------------------------------------------------------------- committed money

  /** What an execution reserved against a budget: the join of usage and reservations. */
  function AmountOf(rows: seq<Reservation>, execution: Id, budget: Id): Money {
    var found := Find(rows, (r: Reservation) => r.execution == execution && r.budget == budget);
    if found.None? then 0 else rows[found.value].amount
  }

  /** A charge counts up to what its execution had reserved; what it reports beyond is an overrun. */
  function CappedWeight(rows: seq<Reservation>, budget: Id, start: Time): Usage -> int {
    (u: Usage) =>
      if u.budget == budget && start <= u.createdAt && u.execution.Some?
      then Min(u.cost, AmountOf(rows, u.execution.value, budget)) else 0
  }

  function Charged(l: Ledger, p: Policy): int {
    Sum(l.usage, CappedWeight(l.reservations, p.id, PeriodStart(p.period, l.clock)))
  }

  /** Money of the current window that executions have spent within their ceilings or still hold. */
  function Committed(l: Ledger, p: Policy): int {
    Charged(l, p) + Reserved(l.reservations, p.id)
  }

  // ---------------------------------------------------------------- rows

  predicate DistinctPolicies(policies: seq<Policy>) {
    forall i, j | 0 <= i < j < |policies| :: policies[i].id != policies[j].id
  }

  predicate DistinctReservations(rows: seq<Reservation>) {
    forall i, j | 0 <= i < j < |rows| :: rows[i].execution == rows[j].execution ==> rows[i].budget != rows[j].budget
  }

  lemma {:induction false} SelectedDistinct(policies: seq<Policy>, q: ClaimRequest)
    requires DistinctPolicies(policies)
    ensures DistinctPolicies(Selected(policies, q))
  {
    if policies != [] {
      var rest, last := policies[..|policies| - 1], policies[|policies| - 1];
      SelectedDistinct(rest, q);
      var kept := Selected(rest, q);
      assert Selected(policies, q) == if Selects(last, q) then kept + [last] else kept;
      forall i | 0 <= i < |kept|
        ensures kept[i].id != last.id
      {
        assert kept[i] in rest;
      }
    }
  }

  /** A successful reservation is one fresh row per selected policy, and each of them had room. */
  lemma {:induction false} ReserveEachShape(l: Ledger, ps: seq<Policy>, q: ClaimRequest, ceiling: Money, now: Time)
    requires ReserveEach(l, ps, q, ceiling, now).Ok?
    ensures
      var rows := ReserveEach(l, ps, q, ceiling, now).value;
      && |rows| == |ps|
      && forall i | 0 <= i < |ps| ::
           rows[i] == Reservation(q.Execution(), ps[i].id, ceiling, false)
           && CheckPolicy(l, ps[i], q.config.model, ceiling, now).None?
  {
    if ps != [] {
      ReserveEachShape(l, ps[..|ps| - 1], q, ceiling, now);
    }
  }

  /** What a refusal at one policy means for the whole list. */
  lemma {:induction false} FirstRefusalDecides(l: Ledger, ps: seq<Policy>, k: nat, q: ClaimRequest, ceiling: Money, now: Time)
    requires k <= |ps| && ReserveEach(l, ps[..k], q, ceiling, now).Err?
    ensures ReserveEach(l, ps, q, ceiling, now) == ReserveEach(l, ps[..k], q, ceiling, now)
    decreases |ps| - k
  {
    if k == |ps| {
      assert ps[..k] == ps;
    } else {
      assert ps[..k + 1][..k] == ps[..k];
      FirstRefusalDecides(l, ps, k + 1, q, ceiling, now);
    }
  }

  /** Fresh rows for distinct policies weigh the ceiling once, or nothing. */
  lemma {:induction false} FreshReserved(rows: seq<Reservation>, budget: Id, ceiling: Money)
    requires forall i, j | 0 <= i < j < |rows| :: rows[i].budget != rows[j].budget
    requires forall i | 0 <= i < |rows| :: rows[i].amount == ceiling && !rows[i].settled
    ensures Reserved(rows, budget) == if exists i | 0 <= i < |rows| :: rows[i].budget == budget then ceiling else 0
  {
    if rows != [] {
      FreshReserved(rows[..|rows| - 1], budget, ceiling);
    }
  }

  lemma AmountOfExtended(rows: seq<Reservation>, added: seq<Reservation>, execution: Id, budget: Id)
    requires forall i | 0 <= i < |added| :: added[i].execution != execution
    ensures AmountOf(rows + added, execution, budget) == AmountOf(rows, execution, budget)
  {
    var p := (r: Reservation) => r.execution == execution && r.budget == budget;
    var f, g := Find(rows, p), Find(rows + added, p);
    if f.Some? {
      assert p((rows + added)[f.value]);
    }
  }

  lemma AmountOfSettled(rows: seq<Reservation>, settling: Id, execution: Id, budget: Id)
    ensures AmountOf(SettleRows(rows, settling), execution, budget) == AmountOf(rows, execution, budget)
  {
    var p := (r: Reservation) => r.execution == execution && r.budget == budget;
    var f, g := Find(rows, p), Find(SettleRows(rows, settling), p);
    if f.Some? {
      assert p(SettleRows(rows, settling)[f.value]);
    }
  }

  lemma AmountOfRow(rows: seq<Reservation>, i: nat)
    requires i < |rows| && DistinctReservations(rows)
    ensures AmountOf(rows, rows[i].execution, rows[i].budget) == rows[i].amount
  {
    var p := (r: Reservation) => r.execution == rows[i].execution && r.budget == rows[i].budget;
    assert p(rows[i]);
  }

  // ---------------------------------------------------------------- the two halves of a step

  /** Charged money never exceeds what the claim query adds up, even for a stale `now`. */
  lemma ChargedWithinConsumed(l: Ledger, p: Policy, now: Time)
    requires now <= l.clock
    ensures Charged(l, p) <= Consumed(l.usage, p.id, PeriodStart(p.period, now))
  {
    PeriodStartMonotone(p.period, now, l.clock);
    SumBound(l.usage, CappedWeight(l.reservations, p.id, PeriodStart(p.period, l.clock)),
             l.usage, RawWeight(p.id, PeriodStart(p.period, now)));
  }

  /** As time passes, windows only lose usage. */
  lemma ChargedFades(l: Ledger, p: Policy, later: Ledger)
    requires later.usage == l.usage && later.reservations == l.reservations && l.clock <= later.clock
    ensures Charged(later, p) <= Charged(l, p)
  {
    PeriodStartMonotone(p.period, l.clock, later.clock);
    SumBound(l.usage, CappedWeight(l.reservations, p.id, PeriodStart(p.period, later.clock)),
             l.usage, CappedWeight(l.reservations, p.id, PeriodStart(p.period, l.clock)));
  }

  /** Settling moves each outstanding amount to at most as much charged money. */
  lemma {:induction false} SettleMovesMoney(
    all: seq<Reservation>, n: nat, c: Charge, budget: Id, start: Time)
    requires n <= |all| && DistinctReservations(all)
    requires forall i | 0 <= i < |all| && all[i].execution == c.execution :: !all[i].settled
    ensures Sum(ChargeRows(all[..n], c), CappedWeight(all, budget, start)) + Reserved(SettleRows(all[..n], c.execution), budget)
         <= Reserved(all[..n], budget)
  {
    if n > 0 {
      var rows, rest, r := all[..n], all[..n - 1], all[n - 1];
      SettleMovesMoney(all, n - 1, c, budget, start);
      assert rows[..n - 1] == rest;
      assert SettleRows(rows, c.execution)[..n - 1] == SettleRows(rest, c.execution);
      if r.execution == c.execution {
        SumAppend(ChargeRows(rest, c), [ChargeRow(c, r.budget)], CappedWeight(all, budget, start));
        AmountOfRow(all, n - 1);
      }
    }
  }
}
