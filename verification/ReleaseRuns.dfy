/** What holds over every run of prepare, acknowledge and recovery. */
module ReleaseRuns {
  import opened Basics
  import opened TransitionSystems
  import opened ReleaseControl

  datatype Event =
    | Ask(order: Order, ids: Ids)
    | Confirm(command: Command, receipt: Receipt)
    | Renew(command: Command, ids: Ids)
    | Elsewhere

  /** A generated command identifier is new. */
  predicate NewId(c: Control, id: Id) {
    forall i | 0 <= i < |c.audit| :: c.audit[i].command.id != id
  }

  /** What else happens to a proposal: time passes, reports are added, approvals are asked for and
      decided, and the rollout state is moved by hand. */
  predicate Interferes(c: Control, c': Control) {
    && c.clock <= c'.clock && c'.firstTier == c.firstTier && c'.row == c.row && c'.audit == c.audit
    && (forall id | id in c.reports :: id in c'.reports && c'.reports[id] == c.reports[id])
    && |c.approvals| <= |c'.approvals|
    && (forall i | 0 <= i < |c.approvals| :: c'.approvals[i].decision == c.approvals[i].decision)
    && (c'.rollout == c.rollout || CanRoll(c.rollout, c'.rollout))
  }

  predicate Next(c: Control, ev: Event, c': Control) {
    match ev
    case Ask(o, ids) => NewId(c, ids.command) && c' == Prepare(c, o, None, ids).0
    case Confirm(k, r) => var a := Acknowledge(c, k, r); c' == if a.Ok? then a.value else c
    case Renew(k, ids) => NewId(c, ids.command) && c' == RecoverExpired(c, k, ids).0
    case Elsewhere => Interferes(c, c')
  }

  predicate Initial(c: Control) {
    c.row.None? && c.audit == [] && c.rollout == Proposed
  }

  // ---------------------------------------------------------------- the invariant

  /** The acknowledged stages, in order. */
  function Stages(audit: seq<Entry>): seq<Stage> {
    if audit == [] then []
    else
      var rest, last := Stages(audit[..|audit| - 1]), audit[|audit| - 1];
      if last.Applied? then rest + [last.receipt.stage] else rest
  }

  function Last(stages: seq<Stage>): Option<Stage> {
    if stages == [] then None else Some(stages[|stages| - 1])
  }

  /** One stage may follow another when an allowed action leads there. */
  predicate Follows(from: Option<Stage>, to: Stage) {
    exists a: Action :: Allowed(from, a) && Target(a) == to
  }

  predicate LegalPath(stages: seq<Stage>) {
    forall i | 0 <= i < |stages| :: Follows(Last(stages[..i]), stages[i])
  }

  predicate Logged(audit: seq<Entry>, k: Command) {
    exists i | 0 <= i < |audit| :: audit[i] == Requested(k)
  }

  /** Every entry is about one deployment and one snapshot, and was requested. */
  predicate Frozen(c: Control) {
    && (c.row.None? <==> c.audit == [])
    && (c.row.Some? ==>
          && c.row.value.command.deployment == c.row.value.deployment
          && c.row.value.desired == c.row.value.command.action
          && Logged(c.audit, c.row.value.command)
          && forall i | 0 <= i < |c.audit| ::
               && c.audit[i].command.deployment == c.row.value.deployment
               && c.audit[i].command.snapshot == c.row.value.command.snapshot
               && Logged(c.audit, c.audit[i].command))
  }

  /** A command is requested once, and applied or superseded at most once and not both. */
  predicate Once(c: Control) {
    && (forall i, j | 0 <= i < j < |c.audit| && c.audit[i].command.id == c.audit[j].command.id ::
          c.audit[i].Requested? && !c.audit[j].Requested?)
    && (c.row.Some? && c.row.value.state == Pending ==>
          forall i | 0 <= i < |c.audit| && !c.audit[i].Requested? :: c.audit[i].command.id != c.row.value.command.id)
  }

  /** The row is pending on a legal command or stands where it was last acknowledged. */
  predicate Tracks(c: Control) {
    && LegalPath(Stages(c.audit))
    && (c.row.None? ==> Stages(c.audit) == [])
    && (c.row.Some? ==>
          && c.row.value.Acknowledged() == Last(Stages(c.audit))
          && (match c.row.value.state
              case Pending => Allowed(c.row.value.Acknowledged(), c.row.value.command.action)
              case At(stage) => c.row.value.Acknowledged() == Some(stage)))
  }

  /** A command that goes live carries an approval of exactly its deployment, snapshot and action. */
  predicate Approved(c: Control) {
    forall i | 0 <= i < |c.audit| && c.audit[i].command.action != ToShadow ::
      var k := c.audit[i].command;
      k.approval.Some? && k.approval.value < |c.approvals|
      && c.approvals[k.approval.value].decision == Decision(k.deployment, k.snapshot, k.action)
  }

  predicate Inv(c: Control) {
    Frozen(c) && Once(c) && Tracks(c) && Approved(c)
  }

  // ---------------------------------------------------------------- shapes

  lemma StagesAppend(audit: seq<Entry>, e: Entry)
    ensures Stages(audit + [e]) == if e.Applied? then Stages(audit) + [e.receipt.stage] else Stages(audit)
  {
    assert (audit + [e])[..|audit|] == audit;
  }

  lemma PathAppend(stages: seq<Stage>, next: Stage)
    requires LegalPath(stages) && Follows(Last(stages), next)
    ensures LegalPath(stages + [next])
  {
    var more := stages + [next];
    forall i | 0 <= i < |more| ensures Follows(Last(more[..i]), more[i]) {
      assert more[..i] == stages[..i];
      if i == |stages| {
        assert stages[..i] == stages;
      } else {
        assert Follows(Last(stages[..i]), stages[i]);
      }
    }
  }

  /** `mid` is what a fresh command is issued from: the row at rest, or none. */
  predicate AtRest(c: Control) {
    c.row.Some? ==> c.row.value.state.At?
  }

  /** What issuing does, seen from a control at rest. */
  predicate Issues(c: Control, c': Control, k: Command) {
    && c' == c.(row := Some(Row(k.deployment, Pending, k.action, k, if c.row.Some? then c.row.value.ack else None)),
                audit := c.audit + [Requested(k)])
    && Allowed(StageOf(c.row), k.action)
    && (c.row.Some? ==> k.deployment == c.row.value.deployment && k.snapshot == c.row.value.command.snapshot)
    && (k.action != ToShadow ==>
          k.approval.Some? && k.approval.value < |c.approvals|
          && c.approvals[k.approval.value].decision == Decision(k.deployment, k.snapshot, k.action))
  }

  /** What preparing can do: hand out the pending command, issue a new one, or at most ask. */
  lemma PrepareShape(c: Control, o: Order, deployment: Option<Id>, ids: Ids)
    ensures
      var (c', r) := Prepare(c, o, deployment, ids);
      && (r.Ok? && !AtRest(c) ==> c' == c && r.value == c.row.value.command)
      && (r.Ok? && AtRest(c) ==>
            && Issues(c, c', r.value) && r.value.id == ids.command && r.value.expires == c.clock + COMMAND_TIME
            && r.value.action == o.action && o.reportId in c.reports
            && r.value.snapshot == SnapshotOf(o, c.reports[o.reportId])
            && (c.row.None? ==> r.value.deployment == if deployment.Some? then deployment.value else ids.deployment))
      && (r.Err? ==>
            && c' == c.(approvals := c'.approvals) && c.approvals <= c'.approvals
            && (r.error != ApprovalRequired ==> c' == c)
            && (r.error == ApprovalRequired ==> AtRest(c) && o.action != ToShadow && Allowed(StageOf(c.row), o.action)))
  {
  }

  // ---------------------------------------------------------------- every step keeps it

  lemma IssueKeeps(c: Control, c': Control, k: Command)
    requires Inv(c) && AtRest(c) && Issues(c, c', k) && NewId(c, k.id)
    ensures Inv(c')
  {
    StagesAppend(c.audit, Requested(k));
    IssueKeepsFrozen(c, c', k);
    IssueKeepsOnce(c, c', k);
    assert Approved(c');
  }

  lemma IssueKeepsOnce(c: Control, c': Control, k: Command)
    requires Once(c) && NewId(c, k.id)
    requires c'.audit == c.audit + [Requested(k)] && c'.row.Some? && c'.row.value.command == k
    ensures Once(c')
  {
  }

  lemma IssueKeepsFrozen(c: Control, c': Control, k: Command)
    requires Frozen(c) && Issues(c, c', k)
    ensures Frozen(c')
  {
    assert c'.audit[|c.audit|] == Requested(k);
    LoggedGrows(c, c', Requested(k));
  }

  lemma LoggedGrows(c: Control, c': Control, e: Entry)
    requires c'.audit == c.audit + [e]
    ensures forall k | Logged(c.audit, k) :: Logged(c'.audit, k)
  {
    forall k | Logged(c.audit, k) ensures Logged(c'.audit, k) {
      var i :| 0 <= i < |c.audit| && c.audit[i] == Requested(k);
      assert c'.audit[i] == Requested(k);
    }
  }

  lemma AskOnlyKeeps(c: Control, c': Control)
    requires Inv(c) && c' == c.(approvals := c'.approvals) && c.approvals <= c'.approvals
    ensures Inv(c')
  {
  }

  lemma ConfirmKeeps(c: Control, k: Command, r: Receipt)
    requires Inv(c) && Acknowledge(c, k, r).Ok?
    ensures Inv(Acknowledge(c, k, r).value)
  {
    ConfirmKeepsTrail(c, k, r);
    ConfirmKeepsTracks(c, k, r);
  }

  lemma ConfirmKeepsTrail(c: Control, k: Command, r: Receipt)
    requires Frozen(c) && Once(c) && Approved(c) && Acknowledge(c, k, r).Ok?
    ensures var c' := Acknowledge(c, k, r).value; Frozen(c') && Once(c') && Approved(c')
  {
    LoggedGrows(c, Acknowledge(c, k, r).value, Applied(k, r));
    var i :| 0 <= i < |c.audit| && c.audit[i] == Requested(k);
  }

  lemma ConfirmKeepsTracks(c: Control, k: Command, r: Receipt)
    requires Tracks(c) && Acknowledge(c, k, r).Ok?
    ensures Tracks(Acknowledge(c, k, r).value)
  {
    StagesAppend(c.audit, Applied(k, r));
    assert Follows(Last(Stages(c.audit)), r.stage) by {
      assert Allowed(c.row.value.Acknowledged(), k.action) && Target(k.action) == r.stage;
    }
    PathAppend(Stages(c.audit), r.stage);
  }

  /** Recovery after a first acknowledgement: the row goes back to rest, the command is closed. */
  lemma RestoreKeeps(c: Control, k: Command, cleared: Control)
    requires Inv(c) && Owns(c, k) && c.row.value.ack.Some?
    requires cleared == c.(row := Some(c.row.value.(state := At(c.row.value.ack.value.stage))), audit := c.audit + [Superseded(k)])
    ensures Inv(cleared)
  {
    StagesAppend(c.audit, Superseded(k));
    LoggedGrows(c, cleared, Superseded(k));
  }

  /** Recovery before any acknowledgement: the row is deleted and written again with the same
      deployment and snapshot. */
  lemma RewriteKeeps(c: Control, k: Command, cleared: Control, c': Control, k': Command)
    requires Inv(c) && Owns(c, k) && c.row.value.ack.None?
    requires cleared == c.(row := None, audit := c.audit + [Superseded(k)])
    requires Issues(cleared, c', k') && NewId(c, k'.id)
    requires k'.deployment == k.deployment && k'.snapshot == k.snapshot
    ensures Inv(c')
  {
    RewriteKeepsFrozen(c, k, cleared, c', k');
    RewriteKeepsOnce(c, k, c', k');
    StagesAppend(c.audit, Superseded(k));
    StagesAppend(cleared.audit, Requested(k'));
    RewriteKeepsApproved(c, k, cleared, c', k');
  }

  lemma RewriteKeepsFrozen(c: Control, k: Command, cleared: Control, c': Control, k': Command)
    requires Frozen(c) && Owns(c, k) && Issues(cleared, c', k')
    requires cleared == c.(row := None, audit := c.audit + [Superseded(k)])
    requires k'.deployment == k.deployment && k'.snapshot == k.snapshot
    ensures Frozen(c')
  {
    LoggedGrows(c, cleared, Superseded(k));
    LoggedGrows(cleared, c', Requested(k'));
    assert c'.audit[|cleared.audit|] == Requested(k');
  }

  lemma RewriteKeepsOnce(c: Control, k: Command, c': Control, k': Command)
    requires Once(c) && Owns(c, k) && NewId(c, k'.id)
    requires c'.audit == c.audit + [Superseded(k)] + [Requested(k')] && c'.row.Some? && c'.row.value.command == k'
    requires Logged(c.audit, k)
    ensures Once(c')
  {
    var i :| 0 <= i < |c.audit| && c.audit[i] == Requested(k);
  }

  lemma RewriteKeepsApproved(c: Control, k: Command, cleared: Control, c': Control, k': Command)
    requires Approved(c) && Logged(c.audit, k) && Issues(cleared, c', k')
    requires cleared == c.(row := None, audit := c.audit + [Superseded(k)])
    ensures Approved(c')
  {
    var i :| 0 <= i < |c.audit| && c.audit[i] == Requested(k);
    assert Approved(cleared);
  }

  /** The evidence behind a command is still there, unchanged. */
  predicate EvidenceStands(c: Control) {
    forall i | 0 <= i < |c.audit| ::
      var s := c.audit[i].command.snapshot;
      s.reportId in c.reports && c.reports[s.reportId] == s.report
  }

  /** What a recovery does. */
  lemma RenewShape(c: Control, k: Command, ids: Ids)
    requires Inv(c) && EvidenceStands(c)
    ensures
      var (c', r) := RecoverExpired(c, k, ids);
      && (r.Ok? ==>
            && Owns(c, k) && k.expires <= c.clock && r.value.id == ids.command
            && r.value.deployment == k.deployment && r.value.snapshot == k.snapshot && r.value.action == k.action
            && (if c.row.value.ack.None? then
                  k.action == ToShadow && Issues(c.(row := None, audit := c.audit + [Superseded(k)]), c', r.value)
                else
                  Issues(c.(row := Some(c.row.value.(state := At(c.row.value.ack.value.stage))),
                            audit := c.audit + [Superseded(k)]), c', r.value)))
      && (r.Err? && r.error != ApprovalRequired ==> c' == c)
      && (r == Err(ApprovalRequired) ==>
            && Owns(c, k) && k.expires <= c.clock && c.row.value.ack.Some?
            && c' == c.(row := Some(c.row.value.(state := At(c.row.value.ack.value.stage))),
                        audit := c.audit + [Superseded(k)], approvals := c'.approvals)
            && c.approvals <= c'.approvals)
  {
    if c.row.Some? && Owns(c, k) && k.expires <= c.clock && Restored(c.row.value).Ok? {
      var cleared := c.(row := Restored(c.row.value).value, audit := c.audit + [Superseded(k)]);
      PrepareShape(cleared, OrderOf(k), Some(c.row.value.deployment), ids);
      var i :| 0 <= i < |c.audit| && c.audit[i] == Requested(k);
      assert SnapshotOf(OrderOf(k), k.snapshot.report) == k.snapshot;
    }
  }

  lemma RenewKeeps(c: Control, k: Command, ids: Ids)
    requires Inv(c) && EvidenceStands(c) && NewId(c, ids.command)
    ensures Inv(RecoverExpired(c, k, ids).0)
  {
    RenewShape(c, k, ids);
    var (c', r) := RecoverExpired(c, k, ids);
    if r.Ok? && c.row.value.ack.None? {
      RewriteKeeps(c, k, c.(row := None, audit := c.audit + [Superseded(k)]), c', r.value);
    } else if r.Ok? || r == Err(ApprovalRequired) {
      var cleared := c.(row := Some(c.row.value.(state := At(c.row.value.ack.value.stage))), audit := c.audit + [Superseded(k)]);
      RestoreKeeps(c, k, cleared);
      if r.Ok? {
        assert NewId(cleared, r.value.id);
        IssueKeeps(cleared, c', r.value);
      } else {
        AskOnlyKeeps(cleared, c');
      }
    }
  }

  lemma AskKeeps(c: Control, o: Order, ids: Ids)
    requires Inv(c) && NewId(c, ids.command)
    ensures Inv(Prepare(c, o, None, ids).0)
  {
    PrepareShape(c, o, None, ids);
    var (c', r) := Prepare(c, o, None, ids);
    if r.Err? {
      AskOnlyKeeps(c, c');
    } else if AtRest(c) {
      IssueKeeps(c, c', r.value);
    }
  }

  predicate Kept(c: Control) {
    Inv(c) && EvidenceStands(c)
  }

  lemma EvidenceKept(c: Control, ev: Event, c': Control)
    requires Kept(c) && Next(c, ev, c')
    ensures EvidenceStands(c')
  {
    match ev
    case Ask(o, ids) => PrepareShape(c, o, None, ids);
    case Confirm(k, r) =>
      if Owns(c, k) {
        var i :| 0 <= i < |c.audit| && c.audit[i] == Requested(k);
      }
    case Renew(k, ids) => RenewKeepsEvidence(c, k, ids);
    case Elsewhere =>
  }

  lemma RenewKeepsEvidence(c: Control, k: Command, ids: Ids)
    requires Kept(c)
    ensures EvidenceStands(RecoverExpired(c, k, ids).0)
  {
    RenewShape(c, k, ids);
    if Owns(c, k) {
      var i :| 0 <= i < |c.audit| && c.audit[i] == Requested(k);
    }
  }

  lemma StepKeeps(c: Control, ev: Event, c': Control)
    requires Kept(c) && Next(c, ev, c')
    ensures Kept(c')
  {
    EvidenceKept(c, ev, c');
    match ev
    case Ask(o, ids) => AskKeeps(c, o, ids);
    case Confirm(k, r) =>
      if Acknowledge(c, k, r).Ok? {
        ConfirmKeeps(c, k, r);
      }
    case Renew(k, ids) => RenewKeeps(c, k, ids);
    case Elsewhere =>
  }

  // ---------------------------------------------------------------- the theorems

  lemma ReachableKept(states: seq<Control>, events: seq<Event>, n: nat)
    requires IsRun(Initial, Next, states, events) && n < |states|
    ensures Kept(states[n])
  {
    forall c, ev, c' | Kept(c) && Next(c, ev, c') ensures Kept(c') {
      StepKeeps(c, ev, c');
    }
    Invariant(Initial, Next, Kept, states, events, n);
  }

  /** The acknowledged stages of a proposal always follow the release policy, starting undeployed,
      and the row is pending or stands at the last of them. */
  lemma LegalHistory(states: seq<Control>, events: seq<Event>, n: nat)
    requires IsRun(Initial, Next, states, events) && n < |states|
    ensures LegalPath(Stages(states[n].audit))
    ensures states[n].row.Some? && states[n].row.value.state.At? ==>
      Last(Stages(states[n].audit)) == Some(states[n].row.value.state.stage)
  {
    ReachableKept(states, events, n);
  }

  /** Every command ever requested for a proposal carries the same deployment and the same snapshot,
      even across the deletion of its row, and identifiers are not reused. */
  lemma FrozenIdentity(states: seq<Control>, events: seq<Event>, n: nat, i: nat, j: nat)
    requires IsRun(Initial, Next, states, events) && n < |states|
    requires i < |states[n].audit| && j < |states[n].audit|
    ensures
      var a, b := states[n].audit[i], states[n].audit[j];
      && a.command.deployment == b.command.deployment && a.command.snapshot == b.command.snapshot
      && (a.command.id == b.command.id ==> a.command == b.command)
      && (a.Requested? && b.Requested? && a.command.id == b.command.id ==> i == j)
  {
    ReachableKept(states, events, n);
    if states[n].audit[i].command.id == states[n].audit[j].command.id {
      SameId(states[n], i, j);
    }
  }

  lemma SameId(c: Control, i: nat, j: nat)
    requires Frozen(c) && Once(c) && i < |c.audit| && j < |c.audit| && c.audit[i].command.id == c.audit[j].command.id
    ensures c.audit[i].command == c.audit[j].command
  {
    assert Logged(c.audit, c.audit[i].command) && Logged(c.audit, c.audit[j].command);
    var x :| 0 <= x < |c.audit| && c.audit[x] == Requested(c.audit[i].command);
    var y :| 0 <= y < |c.audit| && c.audit[y] == Requested(c.audit[j].command);
    assert x == y;
  }

  /** At most one command can be acknowledged at a time, and it is neither superseded nor applied. */
  lemma OneAcknowledgeable(states: seq<Control>, events: seq<Event>, n: nat, k: Command, r: Receipt)
    requires IsRun(Initial, Next, states, events) && n < |states| && Acknowledge(states[n], k, r).Ok?
    ensures states[n].row.Some? && k == states[n].row.value.command
    ensures forall i | 0 <= i < |states[n].audit| && states[n].audit[i].command.id == k.id :: states[n].audit[i].Requested?
  {
    ReachableKept(states, events, n);
  }

  /** A superseded command is never acknowledged, before or after. */
  lemma SupersededNeverApplied(states: seq<Control>, events: seq<Event>, n: nat, i: nat, j: nat)
    requires IsRun(Initial, Next, states, events) && n < |states| && i < |states[n].audit| && j < |states[n].audit|
    requires states[n].audit[i].Superseded? && states[n].audit[j].Applied?
    ensures states[n].audit[i].command.id != states[n].audit[j].command.id
  {
    ReachableKept(states, events, n);
  }

  /** Recovery of an owned, expired command is never refused for a missing or impossible
      acknowledged state, nor on the release policy: it renews the same action, or waits for an
      approval with the row back where it was acknowledged. It renews exactly when the action needs
      no approval or one stands. */
  lemma RecoveryRestores(states: seq<Control>, events: seq<Event>, n: nat, ids: Ids)
    requires IsRun(Initial, Next, states, events) && n < |states|
    requires states[n].row.Some? && states[n].row.value.state == Pending && states[n].row.value.command.expires <= states[n].clock
    ensures
      var c, k := states[n], states[n].row.value.command;
      var (c', r) := RecoverExpired(c, k, ids);
      && (r.Ok? <==> k.action == ToShadow
                     || FindGrant(c.approvals, Decision(k.deployment, k.snapshot, k.action), c.clock).Some?)
      && (r.Err? ==> r.error == ApprovalRequired && c'.row == Some(c.row.value.(state := At(c.row.value.ack.value.stage))))
      && (r.Ok? ==> c'.row == Some(c.row.value.(state := Pending, command := r.value))
                    && OrderOf(r.value) == OrderOf(k) && r.value.deployment == k.deployment)
  {
    ReachableKept(states, events, n);
    PendingIsValid(states, events, n);
    RenewShape(states[n], states[n].row.value.command, ids);
  }

  /** Every command passed the tier check and the evidence gates, which never change for it. */
  predicate Validated(c: Control) {
    forall i | 0 <= i < |c.audit| :: c.firstTier && Gates(c.audit[i].command.action, c.audit[i].command.snapshot).None?
  }

  /** The pending command would pass the release policy again at the acknowledged stage. */
  lemma PendingIsValid(states: seq<Control>, events: seq<Event>, n: nat)
    requires IsRun(Initial, Next, states, events) && n < |states|
    ensures
      var c := states[n];
      c.row.Some? && c.row.value.state == Pending ==>
        ValidateRelease(c.firstTier, c.row.value.Acknowledged(), c.row.value.command.action, c.row.value.command.snapshot).None?
  {
    ReachableKept(states, events, n);
    forall c, ev, c' | Kept(c) && Validated(c) && Next(c, ev, c') ensures Kept(c') && Validated(c') {
      StepKeeps(c, ev, c');
      ValidatedKept(c, ev, c');
    }
    Invariant(Initial, Next, (c: Control) => Kept(c) && Validated(c), states, events, n);
    if states[n].row.Some? {
      var i :| 0 <= i < |states[n].audit| && states[n].audit[i] == Requested(states[n].row.value.command);
    }
  }

  lemma ValidatedKept(c: Control, ev: Event, c': Control)
    requires Kept(c) && Validated(c) && Next(c, ev, c')
    ensures Validated(c')
  {
    match ev
    case Ask(o, ids) => PrepareValidates(c, o, None, ids);
    case Confirm(k, r) =>
      if Owns(c, k) {
        var i :| 0 <= i < |c.audit| && c.audit[i] == Requested(k);
      }
    case Renew(k, ids) => RenewValidates(c, k, ids);
    case Elsewhere =>
  }

  lemma RenewValidates(c: Control, k: Command, ids: Ids)
    requires Kept(c) && Validated(c)
    ensures Validated(RecoverExpired(c, k, ids).0)
  {
    RenewShape(c, k, ids);
    if Owns(c, k) {
      var i :| 0 <= i < |c.audit| && c.audit[i] == Requested(k);
      assert c.audit[i].command == k;
    }
  }

  lemma PrepareValidates(c: Control, o: Order, deployment: Option<Id>, ids: Ids)
    requires Validated(c)
    ensures Validated(Prepare(c, o, deployment, ids).0)
  {
    PrepareShape(c, o, deployment, ids);
    var (c', r) := Prepare(c, o, deployment, ids);
    if r.Ok? && AtRest(c) {
      assert ValidateRelease(c.firstTier, StageOf(c.row), o.action, r.value.snapshot).None?;
    }
  }

  /** An acknowledgement of the pending command is refused only when the rollout state was moved by
      hand to where the release policy cannot go on. */
  lemma AcknowledgeIff(c: Control, k: Command, r: Receipt)
    requires Frozen(c) && Owns(c, k) && r == Receipt(k.deployment, Target(k.action))
    ensures Acknowledge(c, k, r).Ok? <==> c.rollout == Rolled(r.stage) || CanRoll(c.rollout, Rolled(r.stage))
  {
  }

  /** Nobody moves the rollout state by hand. */
  predicate HandsOff(states: seq<Control>, events: seq<Event>) {
    |states| == |events| + 1
    && forall m {:trigger events[m]} | 0 <= m < |events| && events[m].Elsewhere? :: states[m + 1].rollout == states[m].rollout
  }

  /** While nobody moves the rollout state by hand it follows the acknowledgements, and no
      acknowledgement is blocked. */
  lemma UntouchedRolloutNeverBlocks(states: seq<Control>, events: seq<Event>, n: nat, k: Command, r: Receipt)
    requires IsRun(Initial, Next, states, events) && n < |states|
    requires HandsOff(states, events)
    ensures Acknowledge(states[n], k, r) != Err(RolloutBlocked)
  {
    ReachableKept(states, events, n);
    RolloutFollows(states, events, n);
    FollowedNeverBlocks(states[n], k, r);
  }

  lemma FollowedNeverBlocks(c: Control, k: Command, r: Receipt)
    requires Tracks(c) && c.rollout == RolloutAfter(Stages(c.audit))
    ensures Acknowledge(c, k, r) != Err(RolloutBlocked)
  {
    if Owns(c, k) {
      assert Allowed(Last(Stages(c.audit)), k.action);
    }
  }

  function RolloutAfter(stages: seq<Stage>): Rollout {
    if stages == [] then Proposed else Rolled(stages[|stages| - 1])
  }

  lemma {:induction false} RolloutFollows(states: seq<Control>, events: seq<Event>, n: nat)
    requires IsRun(Initial, Next, states, events) && n < |states|
    requires HandsOff(states, events)
    ensures states[n].rollout == RolloutAfter(Stages(states[n].audit))
  {
    if n > 0 {
      RolloutFollows(states, events, n - 1);
      ReachableKept(states, events, n - 1);
      assert Next(states[n - 1], events[n - 1], states[n]);
      FollowOne(states[n - 1], events[n - 1], states[n]);
    }
  }

  lemma FollowOne(c: Control, ev: Event, c': Control)
    requires Kept(c) && Next(c, ev, c')
    requires ev.Elsewhere? ==> c'.rollout == c.rollout
    ensures if ev.Confirm? && Acknowledge(c, ev.command, ev.receipt).Ok?
            then Stages(c'.audit) == Stages(c.audit) + [ev.receipt.stage] && c'.rollout == Rolled(ev.receipt.stage)
            else Stages(c'.audit) == Stages(c.audit) && c'.rollout == c.rollout
  {
    match ev
    case Ask(o, ids) =>
      PrepareShape(c, o, None, ids);
      var r := Prepare(c, o, None, ids).1;
      if r.Ok? {
        StagesAppend(c.audit, Requested(r.value));
      }
    case Confirm(k, r) => StagesAppend(c.audit, Applied(k, r));
    case Renew(k, ids) =>
      RenewShape(c, k, ids);
      StagesAppend(c.audit, Superseded(k));
      var r := RecoverExpired(c, k, ids).1;
      if r.Ok? {
        StagesAppend(c.audit + [Superseded(k)], Requested(r.value));
      }
    case Elsewhere =>
  }
}
