/** The control-plane side of skill releases: prepare, acknowledge and expired-command recovery for
    one evolution proposal. */
module ReleaseControl {
  import opened Basics
  import opened Sequences

  // ---------------------------------------------------------------- policy

  datatype Stage = Shadow | Canary | Active | RolledBack
  datatype Action = ToShadow | ToCanary | Promote | Rollback

  function Target(a: Action): Stage {
    match a
    case ToShadow => Shadow
    case ToCanary => Canary
    case Promote => Active
    case Rollback => RolledBack
  }

  /** The actions a deployment admits at each stage; `None` is a proposal never deployed. */
  predicate Allowed(stage: Option<Stage>, a: Action) {
    match stage
    case None => a == ToShadow
    case Some(Shadow) => a == ToCanary || a == Rollback
    case Some(Canary) => a == Promote || a == Rollback
    case Some(Active) => a == Rollback
    case Some(RolledBack) => false
  }

  datatype Rollout = Proposed | Rejected | Rolled(stage: Stage)

  /** The proposal's own rollout life cycle, which an operator may also move by hand. */
  predicate CanRoll(from: Rollout, to: Rollout) {
    match from
    case Proposed => to == Rolled(Shadow) || to == Rolled(Canary) || to == Rejected
    case Rolled(Shadow) => to == Rolled(Canary) || to == Rolled(RolledBack)
    case Rolled(Canary) => to == Rolled(Active) || to == Rolled(RolledBack)
    case Rolled(Active) => to == Rolled(RolledBack)
    case _ => false
  }

  /** An evaluation report; references name a skill and a version. */
  datatype Report = Report(
    baselineRef: (Id, nat), candidateRef: (Id, nat), eligible: bool,
    baselineSamples: nat, candidateSamples: nat, baselineRate: real, candidateRate: real)

  /** What a release is frozen to. The hash of the report is taken to be injective. */
  datatype Snapshot = Snapshot(
    reportId: Id, report: Report, skill: Id, agent: Id, baseline: nat, candidate: nat,
    baselineHash: string, candidateHash: string)

  datatype Refusal =
    | EvidenceNotFound | FrozenChanged | RecoveryNeeded | ApprovalRevoked | ApprovalRequired
    | OnlyFirstTier | InvalidTransition | VersionMismatch | GatesFailed | SamplesRequired | OutcomeRegression
    | PendingNotFound | OwnerLost | NotExpired | StateMissing | StateInvalid
    | StateMismatch | RolloutBlocked

  const MIN_SAMPLES: nat := 50
  const COMMAND_TIME: Time := 3_600_000_000
  const REVIEW_TIME: Time := 86_400_000_000

  /** The evidence an action needs, whatever the stage. */
  function Gates(a: Action, s: Snapshot): Option<Refusal> {
    if s.report.baselineRef != (s.skill, s.baseline) || s.report.candidateRef != (s.skill, s.candidate) then
      Some(VersionMismatch)
    else if a == ToCanary || a == Promote then
      if !s.report.eligible then Some(GatesFailed)
      else if Min(s.report.baselineSamples, s.report.candidateSamples) < MIN_SAMPLES then Some(SamplesRequired)
      else if s.report.candidateRate < s.report.baselineRate then Some(OutcomeRegression)
      else None
    else None
  }

  /** `validate_release`, for a stage that is not pending. */
  function ValidateRelease(firstTier: bool, stage: Option<Stage>, a: Action, s: Snapshot): Option<Refusal> {
    if !firstTier then Some(OnlyFirstTier)
    else if !Allowed(stage, a) then Some(InvalidTransition)
    else Gates(a, s)
  }

  // ---------------------------------------------------------------- tables

  datatype Command = Command(
    id: Id, deployment: Id, snapshot: Snapshot, action: Action, approval: Option<nat>, expires: Time)

  /** The receiver's answer, as far as the control plane reads it. */
  datatype Receipt = Receipt(deployment: Id, stage: Stage)

  datatype RowState = Pending | At(stage: Stage)

  datatype Row = Row(
    deployment: Id, state: RowState, desired: Action, command: Command, ack: Option<Receipt>)
  {
    /** The last acknowledged stage. */
    function Acknowledged(): Option<Stage> {
      if ack.None? then None else Some(ack.value.stage)
    }
  }

  datatype Decision = Decision(deployment: Id, snapshot: Snapshot, action: Action)

  datatype Approval = Approval(decision: Decision, approved: bool, waiting: bool, expires: Option<Time>)

  /** The audit entries the release store appends. */
  datatype Entry = Requested(command: Command) | Applied(command: Command, receipt: Receipt) | Superseded(command: Command)

  /** Everything about one proposal. */
  datatype Control = Control(
    clock: Time, firstTier: bool, reports: map<Id, Report>, row: Option<Row>, rollout: Rollout,
    approvals: seq<Approval>, audit: seq<Entry>)

  /** The parameters of a release request. */
  datatype Order = Order(
    reportId: Id, skill: Id, agent: Id, baseline: nat, candidate: nat, baselineHash: string,
    candidateHash: string, action: Action)

  function SnapshotOf(o: Order, report: Report): Snapshot {
    Snapshot(o.reportId, report, o.skill, o.agent, o.baseline, o.candidate, o.baselineHash, o.candidateHash)
  }

  /** The order a stored command was prepared from. */
  function OrderOf(k: Command): Order {
    var s := k.snapshot;
    Order(s.reportId, s.skill, s.agent, s.baseline, s.candidate, s.baselineHash, s.candidateHash, k.action)
  }

  /** Freshly generated identifiers. */
  datatype Ids = Ids(command: Id, deployment: Id)

  predicate Unexpired(a: Approval, now: Time) {
    a.expires.Some? && a.expires.value > now
  }

  function FindGrant(approvals: seq<Approval>, d: Decision, now: Time): (r: Option<nat>)
    ensures r.Some? ==> r.value < |approvals| && approvals[r.value].decision == d && approvals[r.value].approved
                        && Unexpired(approvals[r.value], now)
    ensures r.None? ==> forall i | 0 <= i < |approvals| ::
              !(approvals[i].decision == d && Unexpired(approvals[i], now) && approvals[i].approved)
  {
    Find(approvals, (a: Approval) => a.decision == d && Unexpired(a, now) && a.approved)
  }

  // ---------------------------------------------------------------- prepare

  /** The stage that a new command is validated against. */
  function StageOf(row: Option<Row>): Option<Stage> {
    if row.Some? && row.value.state.At? then Some(row.value.state.stage) else None
  }

  /** Does the approval that a pending command carries still stand? */
  predicate StillApproved(c: Control, k: Command) {
    k.approval.Some? ==>
      k.approval.value < |c.approvals| && c.approvals[k.approval.value].approved
      && Unexpired(c.approvals[k.approval.value], c.clock)
  }

  /** `prepare`. The only refusal that leaves something behind is the one that asks for approval. */
  function Prepare(c: Control, o: Order, deployment: Option<Id>, ids: Ids): (Control, Result<Command, Refusal>) {
    if o.reportId !in c.reports then (c, Err(EvidenceNotFound))
    else
      var s := SnapshotOf(o, c.reports[o.reportId]);
      if c.row.Some? && c.row.value.command.snapshot != s then (c, Err(FrozenChanged))
      else if c.row.Some? && c.row.value.state == Pending then (c, Resume(c, c.row.value, o.action))
      else
        var invalid := ValidateRelease(c.firstTier, StageOf(c.row), o.action, s);
        if invalid.Some? then (c, Err(invalid.value))
        else
          var d := if c.row.Some? then c.row.value.deployment
                   else if deployment.Some? then deployment.value else ids.deployment;
          Issue(c, s, o.action, d, ids.command)
  }

  /** A pending command is handed out again for the same action; any other action is refused. */
  function Resume(c: Control, row: Row, a: Action): Result<Command, Refusal> {
    if row.desired != a then Err(if c.firstTier then InvalidTransition else OnlyFirstTier)
    else if row.command.expires <= c.clock then Err(RecoveryNeeded)
    else if !StillApproved(c, row.command) then Err(ApprovalRevoked)
    else Ok(row.command)
  }

  /** Find the approval the action needs, or ask for it; then write the command. */
  function Issue(c: Control, s: Snapshot, a: Action, deployment: Id, id: Id): (Control, Result<Command, Refusal>) {
    var d := Decision(deployment, s, a);
    var grant := if a == ToShadow then None else FindGrant(c.approvals, d, c.clock);
    if a != ToShadow && grant.None? then
      var asked := exists x | x in c.approvals :: x.decision == d && Unexpired(x, c.clock) && x.waiting;
      (if asked then c
       else c.(approvals := c.approvals + [Approval(d, false, true, Some(c.clock + REVIEW_TIME))]),
       Err(ApprovalRequired))
    else
      var k := Command(id, deployment, s, a, grant, c.clock + COMMAND_TIME);
      var ack := if c.row.Some? then c.row.value.ack else None;
      (c.(row := Some(Row(deployment, Pending, a, k, ack)), audit := c.audit + [Requested(k)]), Ok(k))
  }

  // ---------------------------------------------------------------- acknowledge and recover

  /** Is this the pending command of the row? */
  predicate Owns(c: Control, k: Command) {
    c.row.Some? && c.row.value.state == Pending && c.row.value.command == k
  }

  function Acknowledge(c: Control, k: Command, r: Receipt): Result<Control, Refusal> {
    if r.stage != Target(k.action) || r.deployment != k.deployment then Err(StateMismatch)
    else if !Owns(c, k) || c.row.value.deployment != k.deployment then Err(OwnerLost)
    else if c.rollout != Rolled(r.stage) && !CanRoll(c.rollout, Rolled(r.stage)) then Err(RolloutBlocked)
    else Ok(c.(row := Some(c.row.value.(state := At(r.stage), ack := Some(r))),
               rollout := Rolled(r.stage), audit := c.audit + [Applied(k, r)]))
  }

  /** The row as it was before the pending command, or no row if nothing was acknowledged yet. */
  function Restored(row: Row): Result<Option<Row>, Refusal> {
    match row.Acknowledged()
    case None => if row.command.action == ToShadow then Ok(None) else Err(StateMissing)
    case Some(RolledBack) => Err(StateInvalid)
    case Some(stage) => Ok(Some(row.(state := At(stage))))
  }

  /** `recover_expired_pending`: supersede the command, restore the acknowledged state and prepare
      the same action again. Only an approval request is committed on refusal. */
  function RecoverExpired(c: Control, k: Command, ids: Ids): (Control, Result<Command, Refusal>) {
    if c.row.None? then (c, Err(PendingNotFound))
    else if !Owns(c, k) then (c, Err(OwnerLost))
    else if k.expires > c.clock then (c, Err(NotExpired))
    else
      var restored := Restored(c.row.value);
      if restored.Err? then (c, Err(restored.error))
      else
        var cleared := c.(row := restored.value, audit := c.audit + [Superseded(k)]);
        var (c', r) := Prepare(cleared, OrderOf(k), Some(c.row.value.deployment), ids);
        if r.Ok? || r.error == ApprovalRequired then (c', r) else (c, r)
  }
}
