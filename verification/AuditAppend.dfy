/** Idempotent audit appends racing with the retention purge, for one company. */
module AuditAppend {
  import opened Basics
  import opened Sequences
  import opened TransitionSystems

  /** An audit event; `domain` says that it carries a domain event for the outbox. */
  datatype Event = Event(id: Id, key: Option<Id>, domain: bool, created: Time)

  function FindKey(rows: seq<Event>, key: Option<Id>): (r: Option<nat>)
    ensures r.Some? ==> key.Some? && r.value < |rows| && rows[r.value].key == key
    ensures r.None? ==> key.None? || forall i | 0 <= i < |rows| :: rows[i].key != key
  {
    if key.None? then None else Find(rows, (x: Event) => x.key == key)
  }

  // ---------------------------------------------------------------- one append

  class AuditStore {
    var live: seq<Event>
    var tombstones: seq<Event>
    /** Events staged for the outbox, oldest first. */
    var staged: seq<Id>

    constructor ()
      ensures live == [] && tombstones == [] && staged == []
    {
      live, tombstones, staged := [], [], [];
    }

    /** Without interference: a known key gives back the recorded event, anything else is recorded
        and, if it carries a domain event, staged once. */
    method Append(e: Event) returns (recorded: Id)
      modifies this`live, this`staged
      ensures FindKey(tombstones, e.key).Some? ==>
        live == old(live) && staged == old(staged) && recorded == tombstones[FindKey(tombstones, e.key).value].id
      ensures FindKey(tombstones, e.key).None? && FindKey(old(live), e.key).Some? ==>
        live == old(live) && staged == old(staged) && recorded == live[FindKey(old(live), e.key).value].id
      ensures FindKey(tombstones, e.key).None? && FindKey(old(live), e.key).None? ==>
        && live == old(live) + [e] && recorded == e.id
        && staged == old(staged) + if e.domain then [e.id] else []
    {
      if e.key.Some? {
        var compact := FindKey(tombstones, e.key);
        if compact.Some? {
          return tombstones[compact.value].id;
        }
        var existing := FindKey(live, e.key);
        if existing.Some? {
          return live[existing.value].id;
        }
      }
      live := live + [e];
      if e.domain {
        staged := staged + [e.id];
      }
      return e.id;
    }
  }

  // ---------------------------------------------------------------- many writers and a purge

  /** Where a writer is: before its first read, after the tombstone read, after the live read, after
      the second tombstone read, or done. */
  datatype Phase = Begun | First | Second | Armed | Returned(id: Id) | Refused

  /** `since` is the time of the live read. */
  datatype Writer = Writer(event: Event, phase: Phase, since: Time)

  datatype State = State(clock: Time, live: seq<Event>, tombstones: seq<Event>, staged: seq<Id>, writers: seq<Writer>)

  datatype Step = ReadTombstone(w: nat) | ReadLive(w: nat) | Reread(w: nat) | Insert(w: nat) | Purge(row: nat) | Tick

  /** The shortest retention is ninety days. */
  const RETENTION: Time := 7_776_000_000_000
  const PATIENCE: Time := 3_888_000_000_000

  function Move(s: State, w: nat, phase: Phase): State
    requires w < |s.writers|
  {
    s.(writers := s.writers[w := s.writers[w].(phase := phase)])
  }

  /** A read that finds the key returns the recorded event. */
  function Look(s: State, w: nat, rows: seq<Event>, next: Phase): State
    requires w < |s.writers|
  {
    var found := FindKey(rows, s.writers[w].event.key);
    Move(s, w, if found.Some? then Returned(rows[found.value].id) else next)
  }

  /** The insert, under the unique constraint on live keys. */
  function Write(s: State, w: nat): State
    requires w < |s.writers|
  {
    var e := s.writers[w].event;
    if FindKey(s.live, e.key).Some? then Move(s, w, Refused)
    else
      Move(s, w, Returned(e.id)).(live := s.live + [e], staged := s.staged + if e.domain then [e.id] else [])
  }

  predicate Next(s: State, step: Step, s': State) {
    match step
    case ReadTombstone(w) =>
      w < |s.writers| && s.writers[w].phase == Begun && s' == Look(s, w, s.tombstones, First)
    case ReadLive(w) =>
      && w < |s.writers| && s.writers[w].phase == First
      && s' == Look(s.(writers := s.writers[w := s.writers[w].(since := s.clock)]), w, s.live, Second)
    case Reread(w) =>
      w < |s.writers| && s.writers[w].phase == Second && s' == Look(s, w, s.tombstones, Armed)
    case Insert(w) =>
      w < |s.writers| && s.writers[w].phase == Armed && s' == Write(s, w)
    case Purge(i) =>
      && i < |s.live| && s.live[i].created + RETENTION < s.clock
      && s' == s.(live := s.live[..i] + s.live[i + 1..], tombstones := s.tombstones + [s.live[i]])
    case Tick => s.clock <= s'.clock && s' == s.(clock := s'.clock)
  }

  /** Writers insert within half the shortest retention, both of their live read and of the creation
      of their event. */
  predicate Prompt(s: State, step: Step) {
    step.Insert? && step.w < |s.writers| ==>
      var w := s.writers[step.w];
      s.clock < w.since + PATIENCE && s.clock < w.event.created + PATIENCE
  }

  predicate PromptNext(s: State, step: Step, s': State) {
    Next(s, step, s') && Prompt(s, step)
  }

  predicate Starts(s: State) {
    && s.live == [] && s.tombstones == [] && s.staged == []
    && (forall w | 0 <= w < |s.writers| :: s.writers[w].phase == Begun)
    && (forall v, w | 0 <= v < w < |s.writers| :: s.writers[v].event.id != s.writers[w].event.id)
  }

  // ---------------------------------------------------------------- the invariant

  /** Live and purged records together. */
  function Records(s: State): seq<Event> {
    s.tombstones + s.live
  }

  predicate UniqueKeys(rows: seq<Event>) {
    forall i, j | 0 <= i < j < |rows| && rows[i].key.Some? :: rows[i].key != rows[j].key
  }

  /** A writer past its live read missed only recent rows; and if such a row is already purged, the
      writer is too late to insert. */
  predicate Aware(s: State) {
    && (forall w | 0 <= w < |s.writers| && s.writers[w].phase in {Second, Armed} :: s.writers[w].since <= s.clock)
    && (forall w, i | 0 <= w < |s.writers| && s.writers[w].phase in {Second, Armed} && 0 <= i < |s.live|
                      && s.writers[w].event.key.Some? && s.live[i].key == s.writers[w].event.key ::
          s.live[i].created + PATIENCE > s.writers[w].since)
    && (forall w, i | 0 <= w < |s.writers| && s.writers[w].phase == Armed && 0 <= i < |s.tombstones|
                      && s.writers[w].event.key.Some? && s.tombstones[i].key == s.writers[w].event.key ::
          s.clock >= s.writers[w].since + PATIENCE)
  }

  lemma FindInRecords(s: State, key: Option<Id>)
    requires key.Some?
    ensures FindKey(s.live, key).None? && FindKey(s.tombstones, key).None? ==>
      forall i | 0 <= i < |Records(s)| :: Records(s)[i].key != key
  {
  }

  lemma PurgedKeysStayUnique(s: State, i: nat, s': State)
    requires UniqueKeys(Records(s)) && i < |s.live|
    requires s' == s.(live := s.live[..i] + s.live[i + 1..], tombstones := s.tombstones + [s.live[i]])
    ensures UniqueKeys(Records(s'))
  {
    var n, rows, more := |s.tombstones|, Records(s), Records(s');
    forall k | 0 <= k < |more|
      ensures more[k] == rows[if k < n then k else if k == n then n + i else if k <= n + i then k - 1 else k]
    {
    }
  }

  lemma StepKeepsUnique(s: State, step: Step, s': State)
    requires UniqueKeys(Records(s)) && Aware(s) && PromptNext(s, step, s')
    ensures UniqueKeys(Records(s'))
  {
    CleanStepIff(s, step, s');
  }

  lemma StepKeepsAware(s: State, step: Step, s': State)
    requires Aware(s) && PromptNext(s, step, s')
    ensures Aware(s')
  {
    match step
    case Purge(i) => PurgeKeepsAware(s, i, s');
    case Insert(w) => InsertKeepsAware(s, w, s');
    case _ =>
  }

  lemma PurgeKeepsAware(s: State, i: nat, s': State)
    requires Aware(s) && Next(s, Purge(i), s')
    ensures Aware(s')
  {
    forall k | 0 <= k < |s'.live| ensures s'.live[k] == s.live[if k < i then k else k + 1] {
    }
  }

  lemma InsertKeepsAware(s: State, w: nat, s': State)
    requires Aware(s) && PromptNext(s, Insert(w), s')
    ensures Aware(s')
  {
  }

  /** Over every run of prompt writers and purges, each idempotency key has at most one record, live
      or purged. */
  lemma OneRecordPerKey(states: seq<State>, steps: seq<Step>, n: nat)
    requires IsRun(Starts, PromptNext, states, steps) && n < |states|
    ensures UniqueKeys(Records(states[n]))
  {
    var inv := (s: State) => UniqueKeys(Records(s)) && Aware(s);
    forall s, step, s' | inv(s) && PromptNext(s, step, s') ensures inv(s') {
      StepKeepsUnique(s, step, s');
      StepKeepsAware(s, step, s');
    }
    Invariant(Starts, PromptNext, inv, states, steps, n);
  }

  // ---------------------------------------------------------------- what appends return

  /** A keyed writer that returned has the identifier of the record with its key. */
  predicate Faithful(s: State) {
    forall w | 0 <= w < |s.writers| && s.writers[w].phase.Returned? && s.writers[w].event.key.Some? ::
      ReturnsKey(Records(s), s.writers[w].event.key, s.writers[w].phase.id)
  }

  predicate ReturnsKey(rows: seq<Event>, key: Option<Id>, id: Id) {
    exists i | 0 <= i < |rows| :: rows[i].key == key && rows[i].id == id
  }

  /** Records are never lost. */
  lemma RecordsStay(s: State, step: Step, s': State, r: Event)
    requires Next(s, step, s') && r in Records(s)
    ensures r in Records(s')
  {
    if step.Purge? {
      assert s.live == s.live[..step.row] + [s.live[step.row]] + s.live[step.row + 1..];
      assert s'.tombstones[|s.tombstones|] == s.live[step.row];
    }
  }

  lemma StepKeepsFaithful(s: State, step: Step, s': State)
    requires Faithful(s) && Next(s, step, s')
    ensures Faithful(s')
  {
    forall w | 0 <= w < |s'.writers| && s'.writers[w].phase.Returned? && s'.writers[w].event.key.Some?
      ensures ReturnsKey(Records(s'), s'.writers[w].event.key, s'.writers[w].phase.id)
    {
      var key, id := s'.writers[w].event.key, s'.writers[w].phase.id;
      if s.writers[w].phase.Returned? {
        var i :| 0 <= i < |Records(s)| && Records(s)[i].key == key && Records(s)[i].id == id;
        RecordsStay(s, step, s', Records(s)[i]);
      } else if step.Insert? {
        assert Records(s')[|Records(s)|] == s.writers[w].event;
      } else {
        FoundReturns(s, if step.ReadLive? then s.live else s.tombstones, key);
      }
    }
  }

  lemma FoundReturns(s: State, rows: seq<Event>, key: Option<Id>)
    requires rows == s.live || rows == s.tombstones
    ensures var f := FindKey(rows, key); f.Some? ==> ReturnsKey(Records(s), key, rows[f.value].id)
  {
    var f := FindKey(rows, key);
    if f.Some? {
      var i := if rows == s.tombstones then f.value else |s.tombstones| + f.value;
      assert Records(s)[i] == rows[f.value];
    }
  }

  /** Over any run, as long as a key has one record all its appends return the same identifier: the
      recorded one. */
  lemma SameIdForKey(states: seq<State>, steps: seq<Step>, n: nat, v: nat, w: nat)
    requires IsRun(Starts, Next, states, steps) && n < |states| && UniqueKeys(Records(states[n]))
    requires v < |states[n].writers| && w < |states[n].writers|
    ensures
      var a, b := states[n].writers[v], states[n].writers[w];
      a.phase.Returned? && b.phase.Returned? && a.event.key.Some? && a.event.key == b.event.key ==> a.phase == b.phase
  {
    forall s, step, s' | Faithful(s) && Next(s, step, s') ensures Faithful(s') {
      StepKeepsFaithful(s, step, s');
    }
    Invariant(Starts, Next, Faithful, states, steps, n);
    var s, a, b := states[n], states[n].writers[v], states[n].writers[w];
    if a.phase.Returned? && b.phase.Returned? && a.event.key.Some? && a.event.key == b.event.key {
      var i :| 0 <= i < |Records(s)| && Records(s)[i].key == a.event.key && Records(s)[i].id == a.phase.id;
      var j :| 0 <= j < |Records(s)| && Records(s)[j].key == b.event.key && Records(s)[j].id == b.phase.id;
      assert i == j;
    }
  }

  // ---------------------------------------------------------------- the outbox

  function StagedWeight(id: Id): Id -> int {
    (x: Id) => if x == id then 1 else 0
  }

  function RecordWeight(id: Id): Event -> int {
    (e: Event) => if e.id == id && e.domain then 1 else 0
  }

  /** As often as an event is recorded with a domain event, it is staged. */
  ghost predicate Staged(s: State) {
    forall id: Id :: Sum(s.staged, StagedWeight(id)) == Sum(Records(s), RecordWeight(id))
  }

  lemma PurgeMovesWeight(s: State, i: nat, s': State, id: Id)
    requires i < |s.live|
    requires s' == s.(live := s.live[..i] + s.live[i + 1..], tombstones := s.tombstones + [s.live[i]])
    ensures Sum(Records(s'), RecordWeight(id)) == Sum(Records(s), RecordWeight(id))
  {
    var f := RecordWeight(id);
    assert s.live == s.live[..i] + [s.live[i]] + s.live[i + 1..];
    SumAppend(s.live[..i] + [s.live[i]], s.live[i + 1..], f);
    SumAppend(s.live[..i], [s.live[i]], f);
    SumAppend(s.live[..i], s.live[i + 1..], f);
    SumAppend(s.tombstones, [s.live[i]], f);
    SumAppend(s.tombstones, s.live, f);
    SumAppend(s'.tombstones, s'.live, f);
  }

  lemma StepKeepsStaged(s: State, step: Step, s': State)
    requires Staged(s) && Next(s, step, s')
    ensures Staged(s')
  {
    forall id: Id ensures Sum(s'.staged, StagedWeight(id)) == Sum(Records(s'), RecordWeight(id)) {
      if step.Purge? {
        PurgeMovesWeight(s, step.row, s', id);
      } else if step.Insert? && FindKey(s.live, s.writers[step.w].event.key).None? {
        var e := s.writers[step.w].event;
        assert Records(s') == Records(s) + [e];
        SumAppend(Records(s), [e], RecordWeight(id));
        SumOne(e, RecordWeight(id));
        if e.domain {
          SumAppend(s.staged, [e.id], StagedWeight(id));
          SumOne(e.id, StagedWeight(id));
        } else {
          assert s'.staged == s.staged;
        }
      }
    }
  }

  /** Over every run whatever, each recorded domain event is staged exactly once and nothing else is. */
  lemma StagedOncePerRecord(states: seq<State>, steps: seq<Step>, n: nat, id: Id)
    requires IsRun(Starts, Next, states, steps) && n < |states|
    ensures Sum(states[n].staged, StagedWeight(id)) == Sum(Records(states[n]), RecordWeight(id))
  {
    forall s, step, s' | Staged(s) && Next(s, step, s') ensures Staged(s') {
      StepKeepsStaged(s, step, s');
    }
    Invariant(Starts, Next, (s: State) => Staged(s), states, steps, n);
  }

  // ---------------------------------------------------------------- when promptness matters

  /** An armed writer whose key is not live makes a second record exactly when the key has been
      purged meanwhile. */
  lemma InsertDuplicatesIff(s: State, w: nat)
    requires w < |s.writers| && s.writers[w].phase == Armed && s.writers[w].event.key.Some?
    requires UniqueKeys(Records(s)) && FindKey(s.live, s.writers[w].event.key).None?
    ensures UniqueKeys(Records(Write(s, w))) <==> FindKey(s.tombstones, s.writers[w].event.key).None?
  {
    var key, t := s.writers[w].event.key, FindKey(s.tombstones, s.writers[w].event.key);
    var rows := Records(Write(s, w));
    assert rows == Records(s) + [s.writers[w].event];
    if t.Some? {
      assert rows[t.value].key == key && rows[|rows| - 1].key == key;
    } else {
      FindInRecords(s, key);
    }
  }

  /** An insert finds no tombstone of its key, or is refused by the live row. */
  predicate CleanStep(s: State, step: Step) {
    step.Insert? && step.w < |s.writers| && s.writers[step.w].event.key.Some?
    && FindKey(s.live, s.writers[step.w].event.key).None? ==>
      FindKey(s.tombstones, s.writers[step.w].event.key).None?
  }

  lemma CleanStepIff(s: State, step: Step, s': State)
    requires UniqueKeys(Records(s)) && Next(s, step, s')
    ensures UniqueKeys(Records(s')) <==> CleanStep(s, step)
  {
    if step.Purge? {
      PurgedKeysStayUnique(s, step.row, s');
    } else if step.Insert? && FindKey(s.live, s.writers[step.w].event.key).None? {
      if s.writers[step.w].event.key.Some? {
        InsertDuplicatesIff(s, step.w);
      } else {
        assert Records(s') == Records(s) + [s.writers[step.w].event];
      }
    }
  }

  lemma {:induction false} CleanUpTo(states: seq<State>, steps: seq<Step>, n: nat)
    requires IsRun(Starts, Next, states, steps) && n < |states|
    requires forall k | 0 <= k < n :: CleanStep(states[k], steps[k])
    ensures UniqueKeys(Records(states[n]))
  {
    if n > 0 {
      CleanUpTo(states, steps, n - 1);
      assert Next(states[n - 1], steps[n - 1], states[n]);
      CleanStepIff(states[n - 1], steps[n - 1], states[n]);
    }
  }

  /** Over any run whatever, each key has at most one record in every state if and only if no insert
      finds a tombstone of its key. */
  lemma OneRecordIff(states: seq<State>, steps: seq<Step>)
    requires IsRun(Starts, Next, states, steps)
    ensures (forall n | 0 <= n < |states| :: UniqueKeys(Records(states[n])))
       <==> (forall n | 0 <= n < |steps| :: CleanStep(states[n], steps[n]))
  {
    if forall n | 0 <= n < |states| :: UniqueKeys(Records(states[n])) {
      forall n | 0 <= n < |steps| ensures CleanStep(states[n], steps[n]) {
        assert Next(states[n], steps[n], states[n + 1]);
        CleanStepIff(states[n], steps[n], states[n + 1]);
      }
    }
    if forall n | 0 <= n < |steps| :: CleanStep(states[n], steps[n]) {
      forall n | 0 <= n < |states| ensures UniqueKeys(Records(states[n])) {
        CleanUpTo(states, steps, n);
      }
    }
  }

  // Two writers of one key; the second one's event is older than the retention.

  const NOW: Time := RETENTION + 1
  const SLOW := Event("slow", Some("key"), false, NOW)
  const OLD := Event("old", Some("key"), false, 0)

  function At(a: Phase, b: Phase, live: seq<Event>, tombstones: seq<Event>): State {
    State(NOW, live, tombstones, [], [Writer(SLOW, a, NOW), Writer(OLD, b, NOW)])
  }

  const SLOW_STATES := [
    At(Begun, Begun, [], []), At(First, Begun, [], []), At(Second, Begun, [], []), At(Armed, Begun, [], []),
    At(Armed, First, [], []), At(Armed, Second, [], []), At(Armed, Armed, [], []),
    At(Armed, Returned("old"), [OLD], []), At(Armed, Returned("old"), [], [OLD]),
    At(Returned("slow"), Returned("old"), [SLOW], [OLD])]

  const SLOW_STEPS := [
    ReadTombstone(0), ReadLive(0), Reread(0), ReadTombstone(1), ReadLive(1), Reread(1), Insert(1), Purge(0), Insert(0)]

  lemma SlowReads()
    ensures forall k | 0 <= k < 6 :: Next(SLOW_STATES[k], SLOW_STEPS[k], SLOW_STATES[k + 1])
  {
    forall k | 0 <= k < 6 ensures Next(SLOW_STATES[k], SLOW_STEPS[k], SLOW_STATES[k + 1]) {
      assert k == 0 || k == 1 || k == 2 || k == 3 || k == 4 || k == 5;
    }
  }

  lemma SlowWrites()
    ensures forall k | 6 <= k < 9 :: Next(SLOW_STATES[k], SLOW_STEPS[k], SLOW_STATES[k + 1])
  {
    assert Next(SLOW_STATES[6], Insert(1), SLOW_STATES[7]);
    assert Next(SLOW_STATES[7], Purge(0), SLOW_STATES[8]);
    assert Next(SLOW_STATES[8], Insert(0), SLOW_STATES[9]);
  }

  /** Without promptness a key can be recorded twice: a writer passes all three reads, the other's
      event is inserted and purged, and the first insert finds no live row in its way. */
  lemma SlowWriterDuplicates()
    ensures IsRun(Starts, Next, SLOW_STATES, SLOW_STEPS) && !UniqueKeys(Records(SLOW_STATES[9]))
  {
    SlowReads();
    SlowWrites();
    assert Starts(SLOW_STATES[0]);
    var rows := Records(SLOW_STATES[9]);
    assert rows[0] == OLD && rows[1] == SLOW;
  }
}
