/** The control plane and the evolution runtime together: commands, receipts and "not found" answers
    cross a network that may lose, delay and repeat them. */
module ReleaseProtocol {
  import opened Basics
  import opened TransitionSystems
  import opened ReleaseControl
  import opened ReleaseRuns

  // ---------------------------------------------------------------- the receiver

  datatype Release = Release(snapshot: Snapshot, stage: Stage, version: nat)

  /** The runtime's release ledger and its record of applied commands. */
  datatype Receiver = Receiver(releases: map<Id, Release>, commands: map<Id, (Command, Receipt)>)

  /** The runtime's own life cycle of a release. */
  function Transition(current: Option<Release>, k: Command): Option<Release> {
    match current
    case None => if k.action == ToShadow then Some(Release(k.snapshot, Shadow, 1)) else None
    case Some(r) =>
      if r.snapshot != k.snapshot then None
      else if k.action == ToCanary && r.stage == Shadow then Some(r.(stage := Canary, version := r.version + 1))
      else if k.action == Promote && r.stage == Canary then Some(r.(stage := Active, version := r.version + 1))
      else if k.action == Rollback && r.stage != RolledBack then Some(r.(stage := RolledBack, version := r.version + 1))
      else if k.action == ToShadow && r.stage == Shadow then Some(r)
      else None
  }

  function ReleaseOf(m: Receiver, deployment: Id): Option<Release> {
    if deployment in m.releases then Some(m.releases[deployment]) else None
  }

  /** `apply`: an expired command is refused, a known one answered from the record. `fit` stands for
      the skill versions, experiment and quality data the runtime also checks. */
  function Apply(m: Receiver, k: Command, now: Time, fit: bool): (Receiver, Option<Receipt>) {
    if k.expires <= now then (m, None)
    else if k.id in m.commands then (m, if m.commands[k.id].0 == k then Some(m.commands[k.id].1) else None)
    else if k.action != ToShadow && k.approval.None? then (m, None)
    else
      var next := Transition(ReleaseOf(m, k.deployment), k);
      if next.None? || !fit then (m, None)
      else
        var receipt := Receipt(k.deployment, next.value.stage);
        (Receiver(m.releases[k.deployment := next.value], m.commands[k.id := (k, receipt)]), Some(receipt))
  }

  /** `lookup`: the recorded answer; `None` is the authoritative "not found". */
  function Lookup(m: Receiver, k: Command): Option<Receipt> {
    if k.id in m.commands && m.commands[k.id].0 == k then Some(m.commands[k.id].1) else None
  }

  /** How a command moves a release at the runtime: to which stage, and whether that counts as a change. */
  predicate Moved(before: Option<Stage>, a: Action, after: Stage, changed: bool) {
    || (a == ToShadow && after == Shadow && ((before.None? && changed) || (before == Some(Shadow) && !changed)))
    || (changed && (before, a, after) in {
          (Some(Shadow), ToCanary, Canary), (Some(Canary), Promote, Active),
          (Some(Shadow), Rollback, RolledBack), (Some(Canary), Rollback, RolledBack), (Some(Active), Rollback, RolledBack)})
  }

  /** What the runtime does with a command, field by field: an expired one and one whose identifier is known
      for something else are refused, a known one is answered from the record, and a new one is applied exactly
      if it carries an approval where it needs one, is of the frozen snapshot, moves the release, and is fit. */
  lemma ApplyIs(m: Receiver, k: Command, now: Time, fit: bool)
    ensures
      var (m', answer) := Apply(m, k, now, fit);
      var before := if k.deployment in m.releases then Some(m.releases[k.deployment].stage) else None;
      && (k.expires <= now ==> m' == m && answer.None?)
      && (now < k.expires && k.id in m.commands ==>
            m' == m && answer == if m.commands[k.id].0 == k then Some(m.commands[k.id].1) else None)
      && (now < k.expires && k.id !in m.commands ==>
            && (answer.Some? <==>
                  && fit && (k.action == ToShadow || k.approval.Some?)
                  && (k.deployment in m.releases ==> m.releases[k.deployment].snapshot == k.snapshot)
                  && exists after, changed :: Moved(before, k.action, after, changed))
            && (answer.None? ==> m' == m)
            && (answer.Some? ==>
                  && answer.value.deployment == k.deployment
                  && m'.commands == m.commands[k.id := (k, answer.value)]
                  && k.deployment in m'.releases && var r := m'.releases[k.deployment];
                     m'.releases == m.releases[k.deployment := r] && r.snapshot == k.snapshot && r.stage == answer.value.stage
                     && Moved(before, k.action, r.stage,
                              r.version != if k.deployment in m.releases then m.releases[k.deployment].version else 0)))
  {
    var before := if k.deployment in m.releases then Some(m.releases[k.deployment].stage) else None;
    var next := Transition(ReleaseOf(m, k.deployment), k);
    if next.Some? {
      assert Moved(before, k.action, next.value.stage,
                   next.value.version != if k.deployment in m.releases then m.releases[k.deployment].version else 0);
    }
  }

  // ---------------------------------------------------------------- both sides

  datatype World = World(control: Control, receiver: Receiver, receipts: set<(Command, Receipt)>, absences: set<(Command, Time)>)

  datatype Event = Local(step: ReleaseRuns.Event) | Deliver(command: Command, fit: bool) | Query(command: Command)

  predicate Moves(w: World, ev: Event, w': World) {
    match ev
    case Local(step) =>
      && ReleaseRuns.Next(w.control, step, w'.control) && w' == w.(control := w'.control)
      && (step.Confirm? ==> (step.command, step.receipt) in w.receipts)
      && (step.Renew? ==> exists t | t in w.absences :: t.0 == step.command)
    case Deliver(k, fit) =>
      && Logged(w.control.audit, k)
      && var (m, answer) := Apply(w.receiver, k, w.control.clock, fit);
         w' == w.(receiver := m, receipts := w.receipts + if answer.Some? then {(k, answer.value)} else {})
    case Query(k) =>
      && Logged(w.control.audit, k)
      && var answer := Lookup(w.receiver, k);
         w' == if answer.Some? then w.(receipts := w.receipts + {(k, answer.value)})
               else w.(absences := w.absences + {(k, w.control.clock)})
  }

  /** A recovery is careful when the "not found" it relies on was given after the command expired. */
  predicate Careful(w: World, ev: Event) {
    ev.Local? && ev.step.Renew? ==> exists t | t in w.absences :: t.0 == ev.step.command && t.1 >= t.0.expires
  }

  predicate CarefulMoves(w: World, ev: Event, w': World) {
    Moves(w, ev, w') && Careful(w, ev)
  }

  predicate Begins(w: World) {
    Initial(w.control) && w.receiver == Receiver(map[], map[]) && w.receipts == {} && w.absences == {}
  }

  // ---------------------------------------------------------------- every command is accounted for

  predicate Closed(audit: seq<Entry>, k: Command) {
    exists i | 0 <= i < |audit| :: !audit[i].Requested? && audit[i].command == k
  }

  /** A requested command is pending, applied or superseded; only expired ones are superseded. */
  predicate Accounted(c: Control) {
    && (forall i | 0 <= i < |c.audit| && c.audit[i].Requested? ::
          Owns(c, c.audit[i].command) || Closed(c.audit, c.audit[i].command))
    && (forall i | 0 <= i < |c.audit| && c.audit[i].Superseded? :: c.audit[i].command.expires <= c.clock)
  }

  lemma ClosedGrows(audit: seq<Entry>, added: seq<Entry>, k: Command)
    requires Closed(audit, k)
    ensures Closed(audit + added, k)
  {
    var i :| 0 <= i < |audit| && !audit[i].Requested? && audit[i].command == k;
    assert (audit + added)[i] == audit[i];
  }

  /** A step closes the pending command, keeps it pending, or only adds a request. */
  lemma AccountedStep(c: Control, c': Control, added: seq<Entry>)
    requires Accounted(c) && c'.clock >= c.clock && c'.audit == c.audit + added
    requires forall i | 0 <= i < |added| && added[i].Requested? :: Owns(c', added[i].command)
    requires forall i | 0 <= i < |added| && added[i].Superseded? :: added[i].command.expires <= c'.clock
    requires forall k | Owns(c, k) :: Owns(c', k) || Closed(c'.audit, k)
    ensures Accounted(c')
  {
    forall i | 0 <= i < |c'.audit| && c'.audit[i].Requested?
      ensures Owns(c', c'.audit[i].command) || Closed(c'.audit, c'.audit[i].command)
    {
      if i < |c.audit| {
        if Closed(c.audit, c.audit[i].command) {
          ClosedGrows(c.audit, added, c.audit[i].command);
        }
      } else {
        assert c'.audit[i] == added[i - |c.audit|];
      }
    }
  }

  lemma AskAccounted(c: Control, o: Order, ids: Ids)
    requires Accounted(c)
    ensures Accounted(Prepare(c, o, None, ids).0)
  {
    PrepareShape(c, o, None, ids);
    var (c', r) := Prepare(c, o, None, ids);
    if r.Ok? && AtRest(c) {
      AccountedStep(c, c', [Requested(r.value)]);
    } else {
      AccountedStep(c, c', []);
    }
  }

  lemma ConfirmAccounted(c: Control, k: Command, r: Receipt)
    requires Accounted(c) && Acknowledge(c, k, r).Ok?
    ensures Accounted(Acknowledge(c, k, r).value)
  {
    var c' := Acknowledge(c, k, r).value;
    assert c'.audit[|c.audit|] == Applied(k, r);
    AccountedStep(c, c', [Applied(k, r)]);
  }

  lemma RenewAccounted(c: Control, k: Command, ids: Ids)
    requires Kept(c) && Accounted(c)
    ensures Accounted(RecoverExpired(c, k, ids).0)
  {
    RenewShape(c, k, ids);
    var (c', r) := RecoverExpired(c, k, ids);
    if r.Ok? {
      assert c'.audit == c.audit + [Superseded(k), Requested(r.value)];
      assert c'.audit[|c.audit|] == Superseded(k);
      AccountedStep(c, c', [Superseded(k), Requested(r.value)]);
    } else if r.error == ApprovalRequired {
      assert c'.audit[|c.audit|] == Superseded(k);
      AccountedStep(c, c', [Superseded(k)]);
    }
  }

  lemma StepAccounted(c: Control, ev: ReleaseRuns.Event, c': Control)
    requires Kept(c) && Accounted(c) && ReleaseRuns.Next(c, ev, c')
    ensures Accounted(c')
  {
    match ev
    case Ask(o, ids) => AskAccounted(c, o, ids);
    case Confirm(k, r) =>
      if Acknowledge(c, k, r).Ok? {
        ConfirmAccounted(c, k, r);
      }
    case Renew(k, ids) => RenewAccounted(c, k, ids);
    case Elsewhere => AccountedStep(c, c', []);
  }

  // ---------------------------------------------------------------- agreement

  /** The runtime's record holds only requested commands, none superseded, each applied one, and
      answers and absences are true. */
  predicate Honest(w: World) {
    && (forall id | id in w.receiver.commands ::
          var (k, r) := w.receiver.commands[id];
          k.id == id && Logged(w.control.audit, k) && r == Receipt(k.deployment, Target(k.action)))
    && (forall x | x in w.receipts :: x.0.id in w.receiver.commands && w.receiver.commands[x.0.id] == x)
    && (forall t | t in w.absences ::
          && Logged(w.control.audit, t.0) && t.1 <= w.control.clock
          && (t.1 >= t.0.expires ==> t.0.id !in w.receiver.commands))
  }

  predicate Consistent(w: World) {
    forall i | 0 <= i < |w.control.audit| ::
      && (w.control.audit[i].Superseded? ==> w.control.audit[i].command.id !in w.receiver.commands)
      && (w.control.audit[i].Applied? ==> w.control.audit[i].command.id in w.receiver.commands)
  }

  /** The stage the runtime should be at: that of the pending command once it has been applied, and
      otherwise the acknowledged one. */
  function Expected(w: World): Option<Stage> {
    if w.control.row.None? then None
    else
      var row := w.control.row.value;
      if row.state == Pending && row.command.id in w.receiver.commands then Some(Target(row.command.action))
      else row.Acknowledged()
  }

  /** The runtime is where the control plane says it is. */
  predicate Agrees(w: World) {
    w.control.row.Some? ==>
      var row := w.control.row.value;
      var release := ReleaseOf(w.receiver, row.deployment);
      && Expected(w) == (if release.Some? then Some(release.value.stage) else None)
      && (release.Some? ==> release.value.snapshot == row.command.snapshot)
  }

  predicate NothingYet(w: World) {
    w.control.row.None? ==> w.receiver == Receiver(map[], map[])
  }

  predicate Together(w: World) {
    Kept(w.control) && Accounted(w.control) && Honest(w) && Consistent(w) && Agrees(w) && NothingYet(w)
  }

  /** Two requested commands with one identifier are the same command. */
  lemma LoggedOnce(c: Control, k: Command, k': Command)
    requires Once(c) && Logged(c.audit, k) && Logged(c.audit, k') && k.id == k'.id
    ensures k == k'
  {
    var i :| 0 <= i < |c.audit| && c.audit[i] == Requested(k);
    var j :| 0 <= j < |c.audit| && c.audit[j] == Requested(k');
    assert i == j;
  }

  /** A closed command is known to the runtime or expired. */
  lemma ClosedCannotApply(w: World, k: Command)
    requires Accounted(w.control) && Consistent(w) && Closed(w.control.audit, k)
    ensures k.id in w.receiver.commands || k.expires <= w.control.clock
  {
    var j :| 0 <= j < |w.control.audit| && !w.control.audit[j].Requested? && w.control.audit[j].command == k;
  }

  /** Only the pending command can still be applied. */
  lemma OnlyPendingApplies(w: World, k: Command)
    requires Accounted(w.control) && Consistent(w) && Logged(w.control.audit, k)
    requires k.id !in w.receiver.commands && k.expires > w.control.clock
    ensures Owns(w.control, k)
  {
    var i :| 0 <= i < |w.control.audit| && w.control.audit[i] == Requested(k);
    if Closed(w.control.audit, k) {
      ClosedCannotApply(w, k);
    }
  }

  /** And when it is, the two life cycles agree on where it leads. */
  lemma PendingTransition(w: World, k: Command)
    requires Together(w) && Owns(w.control, k) && k.id !in w.receiver.commands
    ensures
      var next := Transition(ReleaseOf(w.receiver, k.deployment), k);
      next.Some? && next.value.stage == Target(k.action) && next.value.snapshot == k.snapshot
    ensures k.action != ToShadow ==> k.approval.Some?
  {
    assert Logged(w.control.audit, k);
    var i :| 0 <= i < |w.control.audit| && w.control.audit[i] == Requested(k);
  }

  lemma DeliverTogether(w: World, k: Command, fit: bool, w': World)
    requires Together(w) && Moves(w, Deliver(k, fit), w')
    ensures Together(w')
  {
    if k.expires <= w.control.clock || k.id in w.receiver.commands {
      AnswerTogether(w, k, w');
    } else {
      OnlyPendingApplies(w, k);
      PendingTransition(w, k);
      if fit {
        var next := Transition(ReleaseOf(w.receiver, k.deployment), k).value;
        assert Records(w, k, next, w');
        RecordHonest(w, k, next, w');
        RecordAgrees(w, k, next, w');
      }
    }
  }

  /** Answering from the record, or not at all. */
  predicate Answers(w: World, k: Command, w': World) {
    && w' == w.(receipts := w'.receipts)
    && (w'.receipts == w.receipts
        || (k.id in w.receiver.commands && w.receiver.commands[k.id].0 == k
            && w'.receipts == w.receipts + {(k, w.receiver.commands[k.id].1)}))
  }

  lemma AnswerHonest(w: World, k: Command, w': World)
    requires Honest(w) && Answers(w, k, w')
    ensures Honest(w')
  {
  }

  lemma AnswerTogether(w: World, k: Command, w': World)
    requires Together(w) && Answers(w, k, w')
    ensures Together(w')
  {
    AnswerHonest(w, k, w');
  }

  /** The runtime applies the command and records its answer. */
  predicate Records(w: World, k: Command, next: Release, w': World) {
    var receipt := Receipt(k.deployment, next.stage);
    w' == w.(receiver := Receiver(w.receiver.releases[k.deployment := next], w.receiver.commands[k.id := (k, receipt)]),
             receipts := w.receipts + {(k, receipt)})
  }

  lemma RecordHonest(w: World, k: Command, next: Release, w': World)
    requires Once(w.control) && Honest(w) && Records(w, k, next, w') && Logged(w.control.audit, k)
    requires next.stage == Target(k.action) && k.expires > w.control.clock && k.id !in w.receiver.commands
    ensures Honest(w')
  {
    AbsencesStayTrue(w, k, w');
  }

  lemma RecordAgrees(w: World, k: Command, next: Release, w': World)
    requires Frozen(w.control) && Once(w.control) && Consistent(w) && Agrees(w)
    requires Records(w, k, next, w') && Owns(w.control, k) && next.stage == Target(k.action) && next.snapshot == k.snapshot
    ensures Consistent(w') && Agrees(w')
  {
  }

  lemma AbsencesStayTrue(w: World, k: Command, w': World)
    requires Once(w.control) && Honest(w) && Logged(w.control.audit, k) && k.expires > w.control.clock
    requires w'.receiver.commands.Keys <= w.receiver.commands.Keys + {k.id}
    ensures forall t | t in w.absences && t.1 >= t.0.expires :: t.0.id !in w'.receiver.commands
  {
    forall t | t in w.absences && t.1 >= t.0.expires ensures t.0.id !in w'.receiver.commands {
      if t.0.id == k.id {
        LoggedOnce(w.control, t.0, k);
        assert false;
      }
    }
  }

  lemma QueryTogether(w: World, k: Command, w': World)
    requires Together(w) && Moves(w, Query(k), w')
    ensures Together(w')
  {
    if k.id in w.receiver.commands {
      LoggedOnce(w.control, k, w.receiver.commands[k.id].0);
      AnswerTogether(w, k, w');
    } else {
      assert w' == w.(absences := w.absences + {(k, w.control.clock)});
      assert Honest(w');
    }
  }

  /** The audit trail only grows. */
  lemma AuditGrows(c: Control, ev: ReleaseRuns.Event, c': Control)
    requires Kept(c) && ReleaseRuns.Next(c, ev, c')
    ensures c.audit <= c'.audit && c.clock <= c'.clock
  {
    match ev
    case Ask(o, ids) => PrepareShape(c, o, None, ids);
    case Confirm(k, r) =>
    case Renew(k, ids) => RenewShape(c, k, ids);
    case Elsewhere =>
  }

  lemma StaysLogged(a: seq<Entry>, b: seq<Entry>, k: Command)
    requires a <= b && Logged(a, k)
    ensures Logged(b, k)
  {
    var i :| 0 <= i < |a| && a[i] == Requested(k);
    assert b[i] == a[i];
  }

  lemma LocalHonest(w: World, ev: ReleaseRuns.Event, w': World)
    requires Kept(w.control) && Honest(w) && Moves(w, Local(ev), w')
    ensures Honest(w')
  {
    AuditGrows(w.control, ev, w'.control);
    forall k | Logged(w.control.audit, k) ensures Logged(w'.control.audit, k) {
      StaysLogged(w.control.audit, w'.control.audit, k);
    }
  }

  /** The identifier of a command not requested yet is unknown to the runtime. */
  lemma NewIsUnknown(w: World, id: Id)
    requires Honest(w) && NewId(w.control, id)
    ensures id !in w.receiver.commands
  {
  }

  lemma AskTogether(w: World, o: Order, ids: Ids, w': World)
    requires Together(w) && Moves(w, Local(Ask(o, ids)), w')
    ensures Consistent(w') && Agrees(w') && NothingYet(w')
  {
    PrepareShape(w.control, o, None, ids);
    NewIsUnknown(w, ids.command);
  }

  lemma ConfirmTogether(w: World, k: Command, r: Receipt, w': World)
    requires Together(w) && Moves(w, Local(Confirm(k, r)), w')
    ensures Consistent(w') && Agrees(w') && NothingYet(w')
  {
    if Acknowledge(w.control, k, r).Ok? {
      assert k.id in w.receiver.commands;
      ConfirmedAgrees(w, k, r, w');
    }
  }

  lemma ConfirmedAgrees(w: World, k: Command, r: Receipt, w': World)
    requires Consistent(w) && Agrees(w) && Owns(w.control, k) && k.id in w.receiver.commands
    requires w'.receiver == w.receiver && w'.control.audit == w.control.audit + [Applied(k, r)] && r.stage == Target(k.action)
    requires w'.control.row == Some(w.control.row.value.(state := At(r.stage), ack := Some(r)))
    ensures Consistent(w') && Agrees(w') && NothingYet(w')
  {
  }

  lemma RenewTogether(w: World, k: Command, ids: Ids, w': World)
    requires Together(w) && CarefulMoves(w, Local(Renew(k, ids)), w')
    ensures Consistent(w') && Agrees(w') && NothingYet(w')
  {
    RenewShape(w.control, k, ids);
    NewIsUnknown(w, ids.command);
    var t :| t in w.absences && t.0 == k && t.1 >= k.expires;
    var r := RecoverExpired(w.control, k, ids).1;
    if r.Ok? {
      RenewedAgrees(w, k, w', r.value);
    } else if r.error == ApprovalRequired {
      RestoredAgrees(w, k, w');
    }
  }

  lemma RestoredAgrees(w: World, k: Command, w': World)
    requires Consistent(w) && Agrees(w) && Owns(w.control, k) && k.id !in w.receiver.commands
    requires w'.receiver == w.receiver && w'.control.audit == w.control.audit + [Superseded(k)]
    requires w.control.row.value.ack.Some?
    requires w'.control.row == Some(w.control.row.value.(state := At(w.control.row.value.ack.value.stage)))
    ensures Consistent(w') && Agrees(w') && NothingYet(w')
  {
  }

  lemma RenewedAgrees(w: World, k: Command, w': World, k': Command)
    requires Consistent(w) && Agrees(w) && Owns(w.control, k) && k.id !in w.receiver.commands && k'.id !in w.receiver.commands
    requires w'.receiver == w.receiver && w'.control.audit == w.control.audit + [Superseded(k)] + [Requested(k')]
    requires k'.snapshot == k.snapshot
    requires w'.control.row == Some(Row(w.control.row.value.deployment, Pending, k'.action, k', w.control.row.value.ack))
    ensures Consistent(w') && Agrees(w') && NothingYet(w')
  {
  }

  lemma MoveTogether(w: World, ev: Event, w': World)
    requires Together(w) && CarefulMoves(w, ev, w')
    ensures Together(w')
  {
    match ev
    case Deliver(k, fit) => DeliverTogether(w, k, fit, w');
    case Query(k) => QueryTogether(w, k, w');
    case Local(step) =>
      StepKeeps(w.control, step, w'.control);
      StepAccounted(w.control, step, w'.control);
      LocalHonest(w, step, w');
      match step
      case Ask(o, ids) => AskTogether(w, o, ids, w');
      case Confirm(k, r) => ConfirmTogether(w, k, r, w');
      case Renew(k, ids) => RenewTogether(w, k, ids, w');
      case Elsewhere =>
  }

  /** Over every run whose recoveries are careful: no superseded command was or will be applied,
      every acknowledged one was, and the runtime stands at the acknowledged stage or, once the
      pending command is applied, at its target. */
  lemma CarefulRunsAgree(states: seq<World>, events: seq<Event>, n: nat)
    requires IsRun(Begins, CarefulMoves, states, events) && n < |states|
    ensures Agrees(states[n]) && Consistent(states[n])
  {
    forall w, ev, w' | Together(w) && CarefulMoves(w, ev, w') ensures Together(w') {
      MoveTogether(w, ev, w');
    }
    Invariant(Begins, CarefulMoves, Together, states, events, n);
  }

  /** Over such runs the runtime never refuses the pending command on life-cycle grounds: delivered
      in time to a runtime that finds it fit, it is applied, and reaches its target. */
  lemma PendingCanBeApplied(states: seq<World>, events: seq<Event>, n: nat)
    requires IsRun(Begins, CarefulMoves, states, events) && n < |states|
    requires states[n].control.row.Some? && states[n].control.row.value.state == Pending
    requires states[n].control.row.value.command.expires > states[n].control.clock
    ensures
      var w, k := states[n], states[n].control.row.value.command;
      Apply(w.receiver, k, w.control.clock, true).1 == Some(Receipt(k.deployment, Target(k.action)))
  {
    forall w, ev, w' | Together(w) && CarefulMoves(w, ev, w') ensures Together(w') {
      MoveTogether(w, ev, w');
    }
    Invariant(Begins, CarefulMoves, Together, states, events, n);
    var w, k := states[n], states[n].control.row.value.command;
    assert Logged(w.control.audit, k);
    if k.id in w.receiver.commands {
      LoggedOnce(w.control, k, w.receiver.commands[k.id].0);
    } else {
      PendingTransition(w, k);
    }
  }

  /** What a "not found" is worth: it rules out that the command is ever applied exactly when it was
      given at or after the command's expiry. */
  lemma AbsenceIff(m: Receiver, k: Command, t: Time)
    requires k.id !in m.commands && Transition(ReleaseOf(m, k.deployment), k).Some?
    requires k.action != ToShadow ==> k.approval.Some?
    ensures (forall later: Time, fit: bool | later >= t :: Apply(m, k, later, fit).0 == m) <==> t >= k.expires
  {
    if t < k.expires {
      assert k.id in Apply(m, k, t, true).0.commands;
    }
  }
}
