/** The one way the two sides of a release come apart: a recovery that relies on a "not found" given
    before the command expired. */
module ReleaseLimits {
  import opened Basics
  import opened TransitionSystems
  import opened ReleaseControl
  import opened ReleaseRuns
  import opened ReleaseProtocol

  const REPORT := Report(("skill", 1), ("skill", 2), true, 50, 50, 0.5, 0.75)
  const SNAPSHOT := Snapshot("report", REPORT, "skill", "agent", 1, 2, "a", "b")

  function OrderFor(a: Action): Order {
    Order("report", "skill", "agent", 1, 2, "a", "b", a)
  }

  const FIRST := Command("c1", "d", SNAPSHOT, ToShadow, None, COMMAND_TIME)
  const SECOND := Command("c2", "d", SNAPSHOT, ToCanary, Some(0), COMMAND_TIME)
  const THIRD := Command("c3", "d", SNAPSHOT, ToCanary, Some(0), 2 * COMMAND_TIME)

  const GRANT := Approval(Decision("d", SNAPSHOT, ToCanary), true, false, Some(REVIEW_TIME))

  function ControlAt(now: Time, row: Option<Row>, rollout: Rollout, approvals: seq<Approval>, audit: seq<Entry>): Control {
    Control(now, true, map["report" := REPORT], row, rollout, approvals, audit)
  }

  const IN_SHADOW := Receiver(map["d" := Release(SNAPSHOT, Shadow, 1)], map["c1" := (FIRST, Receipt("d", Shadow))])
  const IN_CANARY := Receiver(
    map["d" := Release(SNAPSHOT, Canary, 2)],
    map["c1" := (FIRST, Receipt("d", Shadow)), "c2" := (SECOND, Receipt("d", Canary))])

  const ROW1 := Row("d", Pending, ToShadow, FIRST, None)
  const ROW2 := Row("d", At(Shadow), ToShadow, FIRST, Some(Receipt("d", Shadow)))
  const ROW3 := Row("d", Pending, ToCanary, SECOND, Some(Receipt("d", Shadow)))
  const ROW4 := Row("d", Pending, ToCanary, THIRD, Some(Receipt("d", Shadow)))

  const AUDIT1 := [Requested(FIRST)]
  const AUDIT2 := AUDIT1 + [Applied(FIRST, Receipt("d", Shadow))]
  const AUDIT3 := AUDIT2 + [Requested(SECOND)]
  const AUDIT4 := AUDIT3 + [Superseded(SECOND)] + [Requested(THIRD)]

  const R1 := {(FIRST, Receipt("d", Shadow))}
  const R2 := R1 + {(SECOND, Receipt("d", Canary))}

  const START := World(ControlAt(0, None, Proposed, [], []), Receiver(map[], map[]), {}, {})
  const ASKED := World(ControlAt(0, Some(ROW1), Proposed, [], AUDIT1), Receiver(map[], map[]), {}, {})
  const APPLIED := World(ASKED.control, IN_SHADOW, R1, {})
  const CONFIRMED := World(ControlAt(0, Some(ROW2), Rolled(Shadow), [], AUDIT2), IN_SHADOW, R1, {})
  const GRANTED := World(ControlAt(0, Some(ROW2), Rolled(Shadow), [GRANT], AUDIT2), IN_SHADOW, R1, {})
  const PENDING := World(ControlAt(0, Some(ROW3), Rolled(Shadow), [GRANT], AUDIT3), IN_SHADOW, R1, {})
  const QUERIED := World(PENDING.control, IN_SHADOW, R1, {(SECOND, 0)})
  const LATE := World(PENDING.control, IN_CANARY, R2, {(SECOND, 0)})
  const EXPIRED := World(ControlAt(COMMAND_TIME, Some(ROW3), Rolled(Shadow), [GRANT], AUDIT3), IN_CANARY, R2, {(SECOND, 0)})
  const RENEWED := World(ControlAt(COMMAND_TIME, Some(ROW4), Rolled(Shadow), [GRANT], AUDIT4), IN_CANARY, R2, {(SECOND, 0)})

  lemma ToShadowSteps()
    ensures Moves(START, Local(Ask(OrderFor(ToShadow), Ids("c1", "d"))), ASKED)
    ensures Moves(ASKED, Deliver(FIRST, true), APPLIED)
    ensures Moves(APPLIED, Local(Confirm(FIRST, Receipt("d", Shadow))), CONFIRMED)
    ensures Moves(CONFIRMED, Local(Elsewhere), GRANTED)
  {
    assert AUDIT1[0] == Requested(FIRST);
  }

  lemma ToCanaryStep()
    ensures Moves(GRANTED, Local(Ask(OrderFor(ToCanary), Ids("c2", "d"))), PENDING)
  {
    assert FindGrant([GRANT], Decision("d", SNAPSHOT, ToCanary), 0) == Some(0);
  }

  lemma LateSteps()
    ensures Moves(PENDING, Query(SECOND), QUERIED)
    ensures Moves(QUERIED, Deliver(SECOND, true), LATE)
    ensures Moves(LATE, Local(Elsewhere), EXPIRED)
  {
    assert AUDIT3[2] == Requested(SECOND);
  }

  lemma RenewStep()
    ensures Moves(EXPIRED, Local(Renew(SECOND, Ids("c3", "d"))), RENEWED)
  {
    assert FindGrant([GRANT], Decision("d", SNAPSHOT, ToCanary), COMMAND_TIME) == Some(0);
    assert (SECOND, 0) in EXPIRED.absences;
    assert NewId(EXPIRED.control, "c3");
  }

  const STATES1 := [START] + [ASKED] + [APPLIED] + [CONFIRMED] + [GRANTED]
  const EVENTS1: seq<ReleaseProtocol.Event> :=
    [] + [Local(Ask(OrderFor(ToShadow), Ids("c1", "d")))] + [Deliver(FIRST, true)]
    + [Local(Confirm(FIRST, Receipt("d", Shadow)))] + [Local(Elsewhere)]

  const STATES2 := STATES1 + [PENDING] + [QUERIED] + [LATE]
  const EVENTS2 :=
    EVENTS1 + [Local(Ask(OrderFor(ToCanary), Ids("c2", "d")))] + [Query(SECOND)] + [Deliver(SECOND, true)]

  const STATES3 := STATES2 + [EXPIRED] + [RENEWED]
  const EVENTS3 := EVENTS2 + [Local(Elsewhere)] + [Local(Renew(SECOND, Ids("c3", "d")))]

  const ASK: ReleaseProtocol.Event := Local(Ask(OrderFor(ToShadow), Ids("c1", "d")))
  const CONFIRM: ReleaseProtocol.Event := Local(Confirm(FIRST, Receipt("d", Shadow)))

  lemma RunToApplied()
    ensures IsRun(Begins, Moves, [START] + [ASKED] + [APPLIED], [] + [ASK] + [Deliver(FIRST, true)])
  {
    ToShadowSteps();
    var e: seq<ReleaseProtocol.Event> := [];
    Extend(Begins, Moves, [START], e, ASK, ASKED);
    Extend(Begins, Moves, [START] + [ASKED], e + [ASK], Deliver(FIRST, true), APPLIED);
  }

  lemma RunToGranted()
    ensures IsRun(Begins, Moves, STATES1, EVENTS1) && STATES1[|STATES1| - 1] == GRANTED
  {
    RunToApplied();
    ToShadowSteps();
    var states, events := [START] + [ASKED] + [APPLIED], [] + [ASK] + [Deliver(FIRST, true)];
    Extend(Begins, Moves, states, events, CONFIRM, CONFIRMED);
    Extend(Begins, Moves, states + [CONFIRMED], events + [CONFIRM], Local(Elsewhere), GRANTED);
  }

  lemma RunToLate()
    ensures IsRun(Begins, Moves, STATES2, EVENTS2) && STATES2[|STATES2| - 1] == LATE
  {
    RunToGranted();
    ToCanaryStep();
    LateSteps();
    Extend(Begins, Moves, STATES1, EVENTS1, Local(Ask(OrderFor(ToCanary), Ids("c2", "d"))), PENDING);
    Extend(Begins, Moves, STATES1 + [PENDING], EVENTS1 + [Local(Ask(OrderFor(ToCanary), Ids("c2", "d")))], Query(SECOND), QUERIED);
    Extend(Begins, Moves, STATES1 + [PENDING] + [QUERIED],
           EVENTS1 + [Local(Ask(OrderFor(ToCanary), Ids("c2", "d")))] + [Query(SECOND)], Deliver(SECOND, true), LATE);
  }

  lemma RunToRenewed()
    ensures IsRun(Begins, Moves, STATES3, EVENTS3) && STATES3[|STATES3| - 1] == RENEWED
  {
    RunToLate();
    LateSteps();
    RenewStep();
    Extend(Begins, Moves, STATES2, EVENTS2, Local(Elsewhere), EXPIRED);
    Extend(Begins, Moves, STATES2 + [EXPIRED], EVENTS2 + [Local(Elsewhere)], Local(Renew(SECOND, Ids("c3", "d"))), RENEWED);
  }

  /** A canary command is looked up before it arrives, applied in time, and then recovered on the
      strength of that lookup: the superseded command is live at the runtime, the control plane still
      says shadow, and the runtime can never apply the replacement. */
  lemma EarlyLookupDiverges()
    ensures IsRun(Begins, Moves, STATES3, EVENTS3) && STATES3[|STATES3| - 1] == RENEWED
    ensures Superseded(SECOND) in RENEWED.control.audit && SECOND.id in RENEWED.receiver.commands
    ensures Expected(RENEWED) == Some(Shadow) && RENEWED.receiver.releases["d"].stage == Canary
    ensures forall now: Time, fit: bool :: Apply(RENEWED.receiver, THIRD, now, fit).1.None?
  {
    RunToRenewed();
    assert AUDIT4[3] == Superseded(SECOND);
  }
}
