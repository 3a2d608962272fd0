/** The deployment store: an object whose methods update a proposal's release row, rollout state,
    approvals and audit trail in place, each proved against its transaction in ReleaseControl. */
module ReleaseStore {
  import opened Basics
  import opened ReleaseControl
  import Tx = ReleaseControl

  class DeploymentStore {
    var clock: Time
    var firstTier: bool
    var reports: map<Id, Report>
    var row: Option<Row>
    var rollout: Rollout
    var approvals: seq<Approval>
    var audit: seq<Entry>

    function State(): Control
      reads this
    {
      Control(clock, firstTier, reports, row, rollout, approvals, audit)
    }

    constructor (c: Control)
      ensures State() == c
    {
      clock, firstTier, reports, row := c.clock, c.firstTier, c.reports, c.row;
      rollout, approvals, audit := c.rollout, c.approvals, c.audit;
    }

    /** The first standing approval of a decision, and whether an unexpired one is still waiting. */
    method ReadApprovals(d: Decision) returns (grant: Option<nat>, waiting: bool)
      ensures grant == FindGrant(approvals, d, clock)
      ensures waiting <==> exists x | x in approvals :: x.decision == d && Unexpired(x, clock) && x.waiting
    {
      grant, waiting := None, false;
      for i := 0 to |approvals|
        invariant grant.None? ==> forall k | 0 <= k < i ::
          !(approvals[k].decision == d && Unexpired(approvals[k], clock) && approvals[k].approved)
        invariant grant.Some? ==>
          && grant.value < i && approvals[grant.value].decision == d && Unexpired(approvals[grant.value], clock)
          && approvals[grant.value].approved
          && forall k | 0 <= k < grant.value ::
               !(approvals[k].decision == d && Unexpired(approvals[k], clock) && approvals[k].approved)
        invariant waiting <==> exists x | x in approvals[..i] :: x.decision == d && Unexpired(x, clock) && x.waiting
      {
        assert approvals[..i + 1] == approvals[..i] + [approvals[i]];
        if approvals[i].decision == d && Unexpired(approvals[i], clock) {
          if approvals[i].approved && grant.None? {
            grant := Some(i);
          }
          waiting := waiting || approvals[i].waiting;
        }
      }
      assert approvals[..|approvals|] == approvals;
    }

    method Prepare(o: Order, deployment: Option<Id>, ids: Ids) returns (r: Result<Command, Refusal>)
      modifies this
      ensures (State(), r) == Tx.Prepare(old(State()), o, deployment, ids)
    {
      if o.reportId !in reports {
        return Err(EvidenceNotFound);
      }
      var s := SnapshotOf(o, reports[o.reportId]);
      if row.Some? {
        if row.value.command.snapshot != s {
          return Err(FrozenChanged);
        }
        if row.value.state == Pending {
          return Resume(State(), row.value, o.action);
        }
      }
      var invalid := ValidateRelease(firstTier, StageOf(row), o.action, s);
      if invalid.Some? {
        return Err(invalid.value);
      }
      var d := if row.Some? then row.value.deployment
               else if deployment.Some? then deployment.value else ids.deployment;
      r := Issue(s, o.action, d, ids.command);
    }

    method Issue(s: Snapshot, a: Action, deployment: Id, id: Id) returns (r: Result<Command, Refusal>)
      modifies this
      ensures (State(), r) == Tx.Issue(old(State()), s, a, deployment, id)
    {
      var d, grant := Decision(deployment, s, a), None;
      if a != ToShadow {
        var waiting;
        grant, waiting := ReadApprovals(d);
        if grant.None? {
          if !waiting {
            approvals := approvals + [Approval(d, false, true, Some(clock + REVIEW_TIME))];
          }
          return Err(ApprovalRequired);
        }
      }
      var k := Command(id, deployment, s, a, grant, clock + COMMAND_TIME);
      row := Some(Row(deployment, Pending, a, k, if row.Some? then row.value.ack else None));
      audit := audit + [Requested(k)];
      return Ok(k);
    }

    method Acknowledge(k: Command, receipt: Receipt) returns (refused: Option<Refusal>)
      modifies this
      ensures
        var r := Tx.Acknowledge(old(State()), k, receipt);
        if refused.None? then r == Ok(State()) else r == Err(refused.value) && State() == old(State())
    {
      var expected := Target(k.action);
      if receipt.stage != expected || receipt.deployment != k.deployment {
        return Some(StateMismatch);
      }
      if row.None? || row.value.deployment != k.deployment || row.value.state != Pending || row.value.command != k {
        return Some(OwnerLost);
      }
      if rollout != Rolled(expected) && !CanRoll(rollout, Rolled(expected)) {
        return Some(RolloutBlocked);
      }
      row := Some(row.value.(state := At(expected), ack := Some(receipt)));
      rollout := Rolled(expected);
      audit := audit + [Applied(k, receipt)];
      return None;
    }

    method RecoverExpired(k: Command, ids: Ids) returns (r: Result<Command, Refusal>)
      modifies this
      ensures (State(), r) == Tx.RecoverExpired(old(State()), k, ids)
    {
      if row.None? {
        return Err(PendingNotFound);
      }
      if row.value.state != Pending || row.value.command != k {
        return Err(OwnerLost);
      }
      if k.expires > clock {
        return Err(NotExpired);
      }
      var oldRow, oldApprovals, oldAudit := row, approvals, audit;
      var restored := Restored(row.value);
      if restored.Err? {
        return Err(restored.error);
      }
      audit := audit + [Superseded(k)];
      row := restored.value;
      r := Prepare(OrderOf(k), Some(oldRow.value.deployment), ids);
      if r.Err? && r.error != ApprovalRequired {
        row, approvals, audit := oldRow, oldApprovals, oldAudit;
        assert State() == old(State()) by {
          RefusedPrepareIsClean(old(State()).(row := restored.value, audit := oldAudit + [Superseded(k)]), OrderOf(k),
                                Some(oldRow.value.deployment), ids);
        }
      }
    }
  }

  /** A refusal other than the request for approval changes nothing. */
  lemma RefusedPrepareIsClean(c: Control, o: Order, deployment: Option<Id>, ids: Ids)
    ensures
      var (c', r) := Tx.Prepare(c, o, deployment, ids);
      r.Err? && r.error != ApprovalRequired ==> c' == c
  {
  }
}
