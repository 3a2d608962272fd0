/** What preparing, acknowledging and recovering a release demand and write, field by field and without the
    functions that compute it; and the evidence behind every command over whole runs. */
module ReleaseRules {
  import opened Basics
  import opened Sequences
  import opened TransitionSystems
  import opened ReleaseControl
  import opened ReleaseRuns

  // ---------------------------------------------------------------- the policy

  /** The six ways a release moves. */
  predicate Leads(stage: Option<Stage>, a: Action) {
    (stage, a) in {(None, ToShadow), (Some(Shadow), ToCanary), (Some(Shadow), Rollback),
                   (Some(Canary), Promote), (Some(Canary), Rollback), (Some(Active), Rollback)}
  }

  /** The evaluation compared exactly the two versions that the release names. */
  predicate AboutTheseVersions(s: Snapshot) {
    s.report.baselineRef.0 == s.skill && s.report.baselineRef.1 == s.baseline
    && s.report.candidateRef.0 == s.skill && s.report.candidateRef.1 == s.candidate
  }

  predicate GoesLive(a: Action) {
    a == ToCanary || a == Promote
  }

  /** What a command needs for evidence: the right versions, and, to go live, an eligible report with at
      least fifty samples on both sides and no worse outcome rate. */
  predicate Evidenced(a: Action, s: Snapshot) {
    && AboutTheseVersions(s)
    && (GoesLive(a) ==>
          && s.report.eligible && s.report.baselineSamples >= 50 && s.report.candidateSamples >= 50
          && s.report.candidateRate >= s.report.baselineRate)
  }

  /** The first reason of policy against a command. */
  function PolicyRefusal(firstTier: bool, stage: Option<Stage>, a: Action, s: Snapshot): Option<Refusal> {
    if !firstTier then Some(OnlyFirstTier)
    else if !Leads(stage, a) then Some(InvalidTransition)
    else if !AboutTheseVersions(s) then Some(VersionMismatch)
    else if GoesLive(a) && !s.report.eligible then Some(GatesFailed)
    else if GoesLive(a) && (s.report.baselineSamples < 50 || s.report.candidateSamples < 50) then Some(SamplesRequired)
    else if GoesLive(a) && s.report.candidateRate < s.report.baselineRate then Some(OutcomeRegression)
    else None
  }

  lemma PolicyIs(firstTier: bool, stage: Option<Stage>, a: Action, s: Snapshot)
    ensures ValidateRelease(firstTier, stage, a, s) == PolicyRefusal(firstTier, stage, a, s)
    ensures PolicyRefusal(firstTier, stage, a, s).None? <==> firstTier && Leads(stage, a) && Evidenced(a, s)
    ensures Gates(a, s).None? <==> Evidenced(a, s)
  {
  }

  // ---------------------------------------------------------------- prepare

  /** The frozen configuration that an order asks for. */
  predicate Asks(o: Order, report: Report, s: Snapshot) {
    && s.reportId == o.reportId && s.report == report && s.skill == o.skill && s.agent == o.agent
    && s.baseline == o.baseline && s.candidate == o.candidate
    && s.baselineHash == o.baselineHash && s.candidateHash == o.candidateHash
  }

  predicate Standing(a: Approval, deployment: Id, s: Snapshot, action: Action, now: Time) {
    a.decision == Decision(deployment, s, action) && a.expires.Some? && now < a.expires.value
  }

  predicate FirstGrant(c: Control, deployment: Id, s: Snapshot, action: Action, i: nat) {
    && i < |c.approvals| && Standing(c.approvals[i], deployment, s, action, c.clock) && c.approvals[i].approved
    && forall k | 0 <= k < i :: !(Standing(c.approvals[k], deployment, s, action, c.clock) && c.approvals[k].approved)
  }

  predicate NoGrant(c: Control, deployment: Id, s: Snapshot, action: Action) {
    forall i | 0 <= i < |c.approvals| :: !(Standing(c.approvals[i], deployment, s, action, c.clock) && c.approvals[i].approved)
  }

  lemma GrantFound(c: Control, deployment: Id, s: Snapshot, action: Action)
    ensures forall i: nat ::
      FirstGrant(c, deployment, s, action, i) <==> FindGrant(c.approvals, Decision(deployment, s, action), c.clock) == Some(i)
    ensures NoGrant(c, deployment, s, action) <==> FindGrant(c.approvals, Decision(deployment, s, action), c.clock).None?
  {
    var p := (a: Approval) => a.decision == Decision(deployment, s, action) && Unexpired(a, c.clock) && a.approved;
    assert FindGrant(c.approvals, Decision(deployment, s, action), c.clock) == Find(c.approvals, p);
    assert forall i | 0 <= i < |c.approvals| ::
      p(c.approvals[i]) <==> Standing(c.approvals[i], deployment, s, action, c.clock) && c.approvals[i].approved;
  }

  /** For want of an approval one is asked for, for a day, unless one is waiting. */
  predicate AsksReview(c: Control, c': Control, deployment: Id, s: Snapshot, action: Action) {
    && c' == c.(approvals := c'.approvals)
    && if exists i | 0 <= i < |c.approvals| :: Standing(c.approvals[i], deployment, s, action, c.clock) && c.approvals[i].waiting
       then c'.approvals == c.approvals
       else c'.approvals == c.approvals + [Approval(Decision(deployment, s, action), false, true, Some(c.clock + 86_400_000_000))]
  }

  /** A command is written: for an hour, with the approval it rests on, and the row waits for it. */
  predicate Writes(c: Control, c': Control, k: Command, id: Id, deployment: Id, s: Snapshot, action: Action) {
    && k.id == id && k.deployment == deployment && k.snapshot == s && k.action == action && k.expires == c.clock + 3_600_000_000
    && (if action == ToShadow then k.approval.None? else k.approval.Some? && FirstGrant(c, deployment, s, action, k.approval.value))
    && c' == c.(row := c'.row, audit := c.audit + [Requested(k)])
    && c'.row.Some? && var row := c'.row.value;
       row.deployment == deployment && row.state == Pending && row.desired == action && row.command == k
       && row.ack == if c.row.Some? then c.row.value.ack else None
  }

  lemma IssueIs(c: Control, s: Snapshot, a: Action, deployment: Id, id: Id)
    ensures
      var (c', r) := Issue(c, s, a, deployment, id);
      if a != ToShadow && NoGrant(c, deployment, s, a) then AsksReview(c, c', deployment, s, a) && r == Err(ApprovalRequired)
      else r.Ok? && Writes(c, c', r.value, id, deployment, s, a)
  {
    GrantFound(c, deployment, s, a);
    assert (exists x | x in c.approvals :: x.decision == Decision(deployment, s, a) && Unexpired(x, c.clock) && x.waiting)
      <==> exists i | 0 <= i < |c.approvals| :: Standing(c.approvals[i], deployment, s, a, c.clock) && c.approvals[i].waiting;
  }

  /** Preparing a release whose row is at rest, or that has none: refused for the first of these reasons, or
      written. */
  lemma PrepareAtRest(c: Control, o: Order, deployment: Option<Id>, ids: Ids, s: Snapshot)
    requires AtRest(c) && o.reportId in c.reports && Asks(o, c.reports[o.reportId], s)
    ensures
      var (c', r) := Prepare(c, o, deployment, ids);
      var stage := if c.row.Some? then Some(c.row.value.state.stage) else None;
      var refusal := PolicyRefusal(c.firstTier, stage, o.action, s);
      var d := if c.row.Some? then c.row.value.deployment else if deployment.Some? then deployment.value else ids.deployment;
      if c.row.Some? && c.row.value.command.snapshot != s then c' == c && r == Err(FrozenChanged)
      else if refusal.Some? then c' == c && r == Err(refusal.value)
      else if o.action != ToShadow && NoGrant(c, d, s, o.action) then AsksReview(c, c', d, s, o.action) && r == Err(ApprovalRequired)
      else r.Ok? && Writes(c, c', r.value, ids.command, d, s, o.action)
  {
    assert s == SnapshotOf(o, c.reports[o.reportId]);
    PolicyIs(c.firstTier, StageOf(c.row), o.action, s);
    var d := if c.row.Some? then c.row.value.deployment else if deployment.Some? then deployment.value else ids.deployment;
    IssueIs(c, s, o.action, d, ids.command);
  }

  /** The pending command's approval, if it has one, is still granted and unexpired. */
  predicate ApprovalStands(c: Control, k: Command) {
    k.approval.Some? ==>
      && k.approval.value < |c.approvals| && c.approvals[k.approval.value].approved
      && c.approvals[k.approval.value].expires.Some? && c.clock < c.approvals[k.approval.value].expires.value
  }

  /** Preparing while a command is pending changes nothing: the same order gets the command back until it
      expires or its approval falls, and any other is refused. */
  lemma PreparePending(c: Control, o: Order, deployment: Option<Id>, ids: Ids, s: Snapshot)
    requires c.row.Some? && c.row.value.state == Pending && o.reportId in c.reports && Asks(o, c.reports[o.reportId], s)
    ensures
      var k := c.row.value.command;
      Prepare(c, o, deployment, ids) == (c,
        if k.snapshot != s then Err(FrozenChanged)
        else if c.row.value.desired != o.action then Err(if c.firstTier then InvalidTransition else OnlyFirstTier)
        else if k.expires <= c.clock then Err(RecoveryNeeded)
        else if !ApprovalStands(c, k) then Err(ApprovalRevoked)
        else Ok(k))
  {
    assert s == SnapshotOf(o, c.reports[o.reportId]);
  }

  lemma PrepareWithoutEvidence(c: Control, o: Order, deployment: Option<Id>, ids: Ids)
    requires o.reportId !in c.reports
    ensures Prepare(c, o, deployment, ids) == (c, Err(EvidenceNotFound))
  {
  }

  // ---------------------------------------------------------------- acknowledge and recover

  function StageAfter(a: Action): Stage {
    if a == ToShadow then Shadow else if a == ToCanary then Canary else if a == Promote then Active else RolledBack
  }

  /** The eight ways the rollout state of a proposal moves. */
  predicate Rolls(from: Rollout, to: Rollout) {
    (from, to) in {(Proposed, Rolled(Shadow)), (Proposed, Rolled(Canary)), (Proposed, Rejected),
                   (Rolled(Shadow), Rolled(Canary)), (Rolled(Shadow), Rolled(RolledBack)),
                   (Rolled(Canary), Rolled(Active)), (Rolled(Canary), Rolled(RolledBack)),
                   (Rolled(Active), Rolled(RolledBack))}
  }

  predicate PendingOn(c: Control, k: Command) {
    c.row.Some? && c.row.value.state == Pending && c.row.value.command == k && c.row.value.deployment == k.deployment
  }

  /** An acknowledgement is refused for the first of these reasons, or records the stage on row, rollout state
      and audit trail. */
  lemma AcknowledgeIs(c: Control, k: Command, r: Receipt)
    ensures Acknowledge(c, k, r) ==
      if r.deployment != k.deployment || r.stage != StageAfter(k.action) then Err(StateMismatch)
      else if !PendingOn(c, k) then Err(OwnerLost)
      else if c.rollout != Rolled(r.stage) && !Rolls(c.rollout, Rolled(r.stage)) then Err(RolloutBlocked)
      else Ok(c.(row := Some(c.row.value.(state := At(r.stage), ack := Some(r))), rollout := Rolled(r.stage),
                 audit := c.audit + [Applied(k, r)]))
  {
  }

  /** A recovery is refused to whoever does not hold the pending command, and before it expires. */
  lemma RecoverRefused(c: Control, k: Command, ids: Ids)
    ensures c.row.None? ==> RecoverExpired(c, k, ids) == (c, Err(PendingNotFound))
    ensures c.row.Some? && !(c.row.value.state == Pending && c.row.value.command == k) ==>
      RecoverExpired(c, k, ids) == (c, Err(OwnerLost))
    ensures c.row.Some? && c.row.value.state == Pending && c.row.value.command == k && c.clock < k.expires ==>
      RecoverExpired(c, k, ids) == (c, Err(NotExpired))
  {
  }

  /** A recovery that renews closes the old command in the audit trail and writes the same release again, for
      another hour. */
  lemma RecoverWrites(c: Control, k: Command, ids: Ids)
    requires Kept(c) && RecoverExpired(c, k, ids).1.Ok?
    ensures
      var (c', r) := RecoverExpired(c, k, ids);
      && c'.audit == c.audit + [Superseded(k)] + [Requested(r.value)]
      && r.value.id == ids.command && r.value.deployment == k.deployment && r.value.snapshot == k.snapshot
      && r.value.action == k.action && r.value.expires == c.clock + 3_600_000_000
      && (k.action != ToShadow ==> r.value.approval.Some? && FirstGrant(c, k.deployment, k.snapshot, k.action, r.value.approval.value))
      && PendingOn(c', r.value) && c'.row.value.ack == c.row.value.ack
      && c'.approvals == c.approvals && c'.rollout == c.rollout
  {
    RenewShape(c, k, ids);
    var cleared := c.(row := Restored(c.row.value).value, audit := c.audit + [Superseded(k)]);
    var i :| 0 <= i < |c.audit| && c.audit[i] == Requested(k);
    assert Asks(OrderOf(k), c.reports[k.snapshot.reportId], k.snapshot);
    PrepareAtRest(cleared, OrderOf(k), Some(c.row.value.deployment), ids, k.snapshot);
    assert forall j: nat :: FirstGrant(cleared, k.deployment, k.snapshot, k.action, j) <==> FirstGrant(c, k.deployment, k.snapshot, k.action, j);
  }

  // ---------------------------------------------------------------- over runs

  lemma ReachableValidated(states: seq<Control>, events: seq<Event>, n: nat)
    requires IsRun(Initial, Next, states, events) && n < |states|
    ensures Validated(states[n])
  {
    forall c, ev, c' | Kept(c) && Validated(c) && Next(c, ev, c') ensures Kept(c') && Validated(c') {
      StepKeeps(c, ev, c');
      ValidatedKept(c, ev, c');
    }
    Invariant(Initial, Next, (c: Control) => Kept(c) && Validated(c), states, events, n);
  }

  /** Over every run, every command that was ever requested is for a first-tier proposal, rests on a report
      about exactly its two versions, and, if it goes live, on one that is eligible, has fifty samples on both
      sides and no worse outcome rate; and whatever is not a shadow release was approved for exactly that. */
  lemma EveryCommandEvidenced(states: seq<Control>, events: seq<Event>, n: nat, i: nat)
    requires IsRun(Initial, Next, states, events) && n < |states| && i < |states[n].audit|
    ensures
      var k := states[n].audit[i].command;
      && states[n].firstTier
      && k.snapshot.report.baselineRef == (k.snapshot.skill, k.snapshot.baseline)
      && k.snapshot.report.candidateRef == (k.snapshot.skill, k.snapshot.candidate)
      && (k.action == ToCanary || k.action == Promote ==>
            && k.snapshot.report.eligible
            && k.snapshot.report.baselineSamples >= 50 && k.snapshot.report.candidateSamples >= 50
            && k.snapshot.report.candidateRate >= k.snapshot.report.baselineRate)
      && (k.action != ToShadow ==>
            && k.approval.Some? && k.approval.value < |states[n].approvals|
            && states[n].approvals[k.approval.value].decision == Decision(k.deployment, k.snapshot, k.action))
  {
    ReachableValidated(states, events, n);
    ReachableKept(states, events, n);
    var k := states[n].audit[i].command;
    PolicyIs(true, None, k.action, k.snapshot);
  }

  /** The pending command would be allowed again where the release was last acknowledged. */
  lemma PendingStaysAllowed(states: seq<Control>, events: seq<Event>, n: nat)
    requires IsRun(Initial, Next, states, events) && n < |states|
    requires states[n].row.Some? && states[n].row.value.state == Pending
    ensures
      var row := states[n].row.value;
      && states[n].firstTier && Evidenced(row.command.action, row.command.snapshot)
      && Leads(if row.ack.Some? then Some(row.ack.value.stage) else None, row.command.action)
  {
    PendingIsValid(states, events, n);
    var row := states[n].row.value;
    PolicyIs(states[n].firstTier, row.Acknowledged(), row.command.action, row.command.snapshot);
  }
}
