/** Company knowledge: unlocked reads, version checks at the write, tombstones and the retention
    purge, for one company. */
module Knowledge {
  import opened Basics
  import opened Sequences
  import opened TransitionSystems

  datatype Row = Row(owner: Id, artifact: Id, readers: set<Id>, version: nat, until: Option<Time>, deleted: bool)
  {
    predicate Accessible(now: Time) {
      !deleted && (until.Some? ==> until.value > now)
    }
  }

  datatype Entry = Published(id: Id) | Revised(id: Id, version: nat) | Deleted(id: Id)

  datatype Refusal = PermanentlyDeleted | AlreadyExists | NotFound | OwnerRequired | ProvenanceImmutable | Conflict
                   | SourceArtifactMissing | RoleNotFound

  /** The knowledge tables, and the company's roles and artifacts that publishing looks up. */
  datatype Shelf = Shelf(rows: map<Id, Row>, tombstones: set<Id>, audit: seq<Entry>, roles: set<Id>, artifacts: set<Id>)

  // ---------------------------------------------------------------- the store

  function Create(s: Shelf, id: Id, row: Row): Result<Shelf, Refusal> {
    if id in s.tombstones then Err(PermanentlyDeleted)
    else if id in s.rows then Err(AlreadyExists)
    else Ok(s.(rows := s.rows[id := row.(version := 1, deleted := false)], audit := s.audit + [Published(id)]))
  }

  /** The conditional update: it writes what the reader computed, but keeps owner and provenance. */
  function Replace(s: Shelf, id: Id, next: Row, expected: nat): Result<Shelf, Refusal> {
    if id !in s.rows || s.rows[id].version != expected || s.rows[id].deleted then Err(Conflict)
    else Ok(s.(rows := s.rows[id := next.(owner := s.rows[id].owner, artifact := s.rows[id].artifact)],
               audit := s.audit + [Revised(id, next.version)]))
  }

  function Bury(s: Shelf, id: Id, version: nat): Result<Shelf, Refusal> {
    if id !in s.rows || s.rows[id].version != version || s.rows[id].deleted then Err(Conflict)
    else Ok(s.(rows := s.rows[id := s.rows[id].(deleted := true)], tombstones := s.tombstones + {id},
               audit := s.audit + [Deleted(id)]))
  }

  // ---------------------------------------------------------------- the use cases

  datatype Policy = Policy(readers: set<Id>, until: Option<Time>)

  /** `publish_knowledge` on an existing entry, decided on a copy read earlier. */
  function Revise(s: Shelf, id: Id, copy: Row, actor: Id, artifact: Id, expected: nat, p: Policy, now: Time):
    Result<Shelf, Refusal>
  {
    if artifact !in s.artifacts then Err(SourceArtifactMissing)
    else if copy.owner != actor then Err(OwnerRequired)
    else if copy.artifact != artifact then Err(ProvenanceImmutable)
    else if !(p.readers <= s.roles) then Err(RoleNotFound)
    else if !copy.Accessible(now) then Err(NotFound)
    else if copy.version != expected then Err(Conflict)
    else Replace(s, id, copy.(readers := p.readers, until := p.until, version := copy.version + 1), expected)
  }

  /** `delete_knowledge`, decided on a copy read earlier. */
  function Delete(s: Shelf, id: Id, copy: Row, actor: Id, now: Time): Result<Shelf, Refusal> {
    if !copy.Accessible(now) then Err(NotFound)
    else if copy.owner != actor then Err(OwnerRequired)
    else Bury(s, id, copy.version)
  }

  /** A revision succeeds exactly for the owner of an accessible copy, with its provenance and known readers,
      at the expected version, which must still be that of a live row; and then it writes only readers,
      retention and the next version. */
  lemma RevisedIff(s: Shelf, id: Id, copy: Row, actor: Id, artifact: Id, expected: nat, p: Policy, now: Time)
    ensures
      var r := Revise(s, id, copy, actor, artifact, expected, p, now);
      && (r.Ok? <==>
            && artifact in s.artifacts && copy.owner == actor && copy.artifact == artifact
            && (forall reader | reader in p.readers :: reader in s.roles)
            && !copy.deleted && (copy.until.None? || now < copy.until.value) && copy.version == expected
            && id in s.rows && !s.rows[id].deleted && s.rows[id].version == expected)
      && (r.Ok? ==>
            r.value == s.(rows := s.rows[id := Row(s.rows[id].owner, s.rows[id].artifact, p.readers, expected + 1, p.until, false)],
                          audit := s.audit + [Revised(id, expected + 1)]))
  {
  }

  /** A deletion succeeds exactly for the owner of an accessible copy that is still current; it only marks the
      row and buries the identifier. */
  lemma DeletedIff(s: Shelf, id: Id, copy: Row, actor: Id, now: Time)
    ensures
      var r := Delete(s, id, copy, actor, now);
      && (r.Ok? <==>
            && copy.owner == actor && !copy.deleted && (copy.until.None? || now < copy.until.value)
            && id in s.rows && !s.rows[id].deleted && s.rows[id].version == copy.version)
      && (r.Ok? ==>
            r.value == s.(rows := s.rows[id := s.rows[id].(deleted := true)], tombstones := s.tombstones + {id},
                          audit := s.audit + [Deleted(id)]))
  {
  }

  /** An identifier is used exactly once. */
  lemma CreatedIff(s: Shelf, id: Id, row: Row)
    ensures
      var r := Create(s, id, row);
      && (r.Ok? <==> id !in s.tombstones && id !in s.rows)
      && (r.Ok? ==>
            r.value == s.(rows := s.rows[id := Row(row.owner, row.artifact, row.readers, 1, row.until, false)],
                          audit := s.audit + [Published(id)]))
  {
  }

  class KnowledgeStore {
    var rows: map<Id, Row>
    var tombstones: set<Id>
    var audit: seq<Entry>
    var roles: set<Id>
    var artifacts: set<Id>

    function State(): Shelf
      reads this
    {
      Shelf(rows, tombstones, audit, roles, artifacts)
    }

    constructor (companyRoles: set<Id>, companyArtifacts: set<Id>)
      ensures State() == Shelf(map[], {}, [], companyRoles, companyArtifacts)
    {
      rows, tombstones, audit, roles, artifacts := map[], {}, [], companyRoles, companyArtifacts;
    }

    method CreateKnowledge(id: Id, row: Row) returns (refused: Option<Refusal>)
      modifies this
      ensures
        var r := Create(old(State()), id, row);
        if refused.None? then r == Ok(State()) else r == Err(refused.value) && State() == old(State())
    {
      if id in tombstones {
        return Some(PermanentlyDeleted);
      }
      if id in rows {
        return Some(AlreadyExists);
      }
      rows := rows[id := row.(version := 1, deleted := false)];
      audit := audit + [Published(id)];
      return None;
    }

    /** The conditional update of a deletion, decided on a copy read earlier. */
    method DeleteKnowledge(id: Id, copy: Row, actor: Id, now: Time) returns (refused: Option<Refusal>)
      modifies this
      ensures
        var r := Delete(old(State()), id, copy, actor, now);
        if refused.None? then r == Ok(State()) else r == Err(refused.value) && State() == old(State())
    {
      if !copy.Accessible(now) {
        return Some(NotFound);
      }
      if copy.owner != actor {
        return Some(OwnerRequired);
      }
      if id !in rows || rows[id].version != copy.version || rows[id].deleted {
        return Some(Conflict);
      }
      rows := rows[id := rows[id].(deleted := true)];
      tombstones := tombstones + {id};
      audit := audit + [Deleted(id)];
      return None;
    }

    /** Read and revise without interference. */
    method Publish(id: Id, actor: Id, artifact: Id, expected: nat, p: Policy, now: Time) returns (refused: Option<Refusal>)
      modifies this
      ensures id !in old(rows) ==>
        refused == Some(if artifact in artifacts then NotFound else SourceArtifactMissing) && State() == old(State())
      ensures id in old(rows) ==>
        var r := Revise(old(State()), id, old(rows)[id], actor, artifact, expected, p, now);
        if refused.None? then r == Ok(State()) else r == Err(refused.value) && State() == old(State())
    {
      if artifact !in artifacts {
        return Some(SourceArtifactMissing);
      }
      if id !in rows {
        return Some(NotFound);
      }
      var current := rows[id];
      if current.owner != actor {
        return Some(OwnerRequired);
      }
      if current.artifact != artifact {
        return Some(ProvenanceImmutable);
      }
      if !(p.readers <= roles) {
        return Some(RoleNotFound);
      }
      if !current.Accessible(now) {
        return Some(NotFound);
      }
      if current.version != expected {
        return Some(Conflict);
      }
      var revised := current.(readers := p.readers, until := p.until, version := current.version + 1);
      var saved := Replace(State(), id, revised, expected);
      if saved.Ok? {
        rows, audit := saved.value.rows, saved.value.audit;
      }
      return if saved.Ok? then None else Some(Conflict);
    }
  }

  // ---------------------------------------------------------------- concurrent use

  /** Copies that were read and may still be acted on. */
  datatype State = State(shelf: Shelf, copies: set<(Id, Row)>)

  datatype Step =
    | Make(id: Id, row: Row)
    | Read(id: Id)
    | Publish(id: Id, copy: Row, actor: Id, artifact: Id, expected: nat, policy: Policy, now: Time)
    | Remove(id: Id, copy: Row, actor: Id, now: Time)
    | Purge(id: Id)
    | Staff(roles: set<Id>, artifacts: set<Id>)

  function Commit(s: Shelf, r: Result<Shelf, Refusal>): Shelf {
    if r.Ok? then r.value else s
  }

  predicate Next(s: State, step: Step, s': State) {
    match step
    case Make(id, row) => s' == s.(shelf := Commit(s.shelf, Create(s.shelf, id, row)))
    case Read(id) => id in s.shelf.rows && s' == s.(copies := s.copies + {(id, s.shelf.rows[id])})
    case Publish(id, copy, actor, artifact, expected, p, now) =>
      (id, copy) in s.copies && s' == s.(shelf := Commit(s.shelf, Revise(s.shelf, id, copy, actor, artifact, expected, p, now)))
    case Remove(id, copy, actor, now) =>
      (id, copy) in s.copies && s' == s.(shelf := Commit(s.shelf, Delete(s.shelf, id, copy, actor, now)))
    case Purge(id) =>
      && id in s.shelf.rows
      && s' == s.(shelf := s.shelf.(rows := s.shelf.rows - {id}, tombstones := s.shelf.tombstones + {id}))
    case Staff(roles, artifacts) => s' == s.(shelf := s.shelf.(roles := roles, artifacts := artifacts))
  }

  predicate Opens(s: State) {
    s == State(Shelf(map[], {}, [], s.shelf.roles, s.shelf.artifacts), {})
  }

  function RevisedWeight(id: Id): Entry -> int {
    (e: Entry) => if e.Revised? && e.id == id then 1 else 0
  }

  /** How often an entry has been revised. */
  function Revisions(s: Shelf, id: Id): int {
    Sum(s.audit, RevisedWeight(id))
  }

  predicate Known(s: Shelf, id: Id) {
    id in s.rows || id in s.tombstones
  }

  /** Deleted means buried, and only known entries appear in the audit trail. */
  predicate Buried(s: Shelf) {
    && (forall id | id in s.rows :: s.rows[id].deleted <==> id in s.tombstones)
    && (forall i | 0 <= i < |s.audit| :: Known(s, s.audit[i].id))
  }

  /** Versions count revisions, and every recorded version is one of them, in order. */
  predicate Counted(s: Shelf) {
    && (forall id | id in s.rows :: s.rows[id].version == 1 + Revisions(s, id))
    && (forall i | 0 <= i < |s.audit| && s.audit[i].Revised? ::
          s.audit[i].version == 2 + Sum(s.audit[..i], RevisedWeight(s.audit[i].id)))
  }

  /** A copy is of a known entry, has its owner and provenance, is not ahead of it, and is exact
      while the version has not moved on. */
  predicate Fresh(s: State) {
    forall c | c in s.copies ::
      && Known(s.shelf, c.0)
      && (c.0 in s.shelf.rows ==>
            var row := s.shelf.rows[c.0];
            && c.1.owner == row.owner && c.1.artifact == row.artifact && c.1.version <= row.version
            && (c.1.version == row.version && !row.deleted ==> c.1 == row))
  }

  predicate Inv(s: State) {
    Buried(s.shelf) && Counted(s.shelf) && Fresh(s)
  }

  lemma {:induction false} NeverRevised(audit: seq<Entry>, id: Id)
    requires forall i | 0 <= i < |audit| :: audit[i].id != id
    ensures Sum(audit, RevisedWeight(id)) == 0
  {
    if audit != [] {
      NeverRevised(audit[..|audit| - 1], id);
    }
  }

  /** One more entry in the audit trail. */
  lemma OneMore(audit: seq<Entry>, e: Entry, id: Id)
    ensures Sum(audit + [e], RevisedWeight(id)) == Sum(audit, RevisedWeight(id)) + RevisedWeight(id)(e)
    ensures forall i | 0 <= i <= |audit| :: (audit + [e])[..i] == audit[..i]
  {
    SumAppend(audit, [e], RevisedWeight(id));
    SumOne(e, RevisedWeight(id));
    assert audit[..|audit|] == audit;
  }

  /** A write to one entry, recorded in the audit trail, keeps the count. */
  lemma WriteKeepsCounted(s: Shelf, s': Shelf, id: Id, row: Row, e: Entry)
    requires Counted(s) && e.id == id && s'.rows == s.rows[id := row] && s'.audit == s.audit + [e]
    requires row.version == 1 + Revisions(s, id) + if e.Revised? then 1 else 0
    requires e.Revised? ==> e.version == row.version
    ensures Counted(s')
  {
    forall k | k in s'.rows ensures s'.rows[k].version == 1 + Revisions(s', k) {
      OneMore(s.audit, e, k);
    }
    OneMore(s.audit, e, id);
    forall i | 0 <= i < |s'.audit| && s'.audit[i].Revised?
      ensures s'.audit[i].version == 2 + Sum(s'.audit[..i], RevisedWeight(s'.audit[i].id))
    {
      assert s'.audit[..i] == s.audit[..i];
      if i < |s.audit| {
        assert s'.audit[i] == s.audit[i];
      } else {
        assert s.audit[..i] == s.audit;
      }
    }
  }

  lemma MakeKeeps(s: State, id: Id, row: Row)
    requires Inv(s) && Create(s.shelf, id, row).Ok?
    ensures Inv(s.(shelf := Create(s.shelf, id, row).value))
  {
    NeverRevised(s.shelf.audit, id);
    var s' := Create(s.shelf, id, row).value;
    WriteKeepsCounted(s.shelf, s', id, row.(version := 1, deleted := false), Published(id));
  }

  lemma PublishKeeps(s: State, id: Id, copy: Row, actor: Id, artifact: Id, expected: nat, p: Policy, now: Time)
    requires Inv(s) && (id, copy) in s.copies && Revise(s.shelf, id, copy, actor, artifact, expected, p, now).Ok?
    ensures Inv(s.(shelf := Revise(s.shelf, id, copy, actor, artifact, expected, p, now).value))
  {
    var s' := Revise(s.shelf, id, copy, actor, artifact, expected, p, now).value;
    WriteKeepsCounted(s.shelf, s', id, s'.rows[id], Revised(id, copy.version + 1));
  }

  lemma RemoveKeeps(s: State, id: Id, copy: Row, actor: Id, now: Time)
    requires Inv(s) && Delete(s.shelf, id, copy, actor, now).Ok?
    ensures Inv(s.(shelf := Delete(s.shelf, id, copy, actor, now).value))
  {
    var s' := Delete(s.shelf, id, copy, actor, now).value;
    WriteKeepsCounted(s.shelf, s', id, s'.rows[id], Deleted(id));
  }

  lemma StepKeeps(s: State, step: Step, s': State)
    requires Inv(s) && Next(s, step, s')
    ensures Inv(s')
  {
    match step
    case Make(id, row) =>
      if Create(s.shelf, id, row).Ok? {
        MakeKeeps(s, id, row);
      }
    case Publish(id, copy, actor, artifact, expected, p, now) =>
      if Revise(s.shelf, id, copy, actor, artifact, expected, p, now).Ok? {
        PublishKeeps(s, id, copy, actor, artifact, expected, p, now);
      }
    case Remove(id, copy, actor, now) =>
      if Delete(s.shelf, id, copy, actor, now).Ok? {
        RemoveKeeps(s, id, copy, actor, now);
      }
    case _ =>
  }

  /** From one state to a later one: owner and provenance stay, versions do not fall, and what was
      buried stays buried and is not revised again. */
  predicate Evolves(s: State, s': State) {
    var a, b := s.shelf, s'.shelf;
    && a.tombstones <= b.tombstones && a.audit <= b.audit
    && (forall id | id in a.rows :: Known(b, id))
    && (forall id | id in a.tombstones && id !in a.rows :: id !in b.rows)
    && (forall id | id in a.rows && id in b.rows ::
          a.rows[id].owner == b.rows[id].owner && a.rows[id].artifact == b.rows[id].artifact
          && a.rows[id].version <= b.rows[id].version)
    && (forall i | |a.audit| <= i < |b.audit| :: b.audit[i].id !in a.tombstones)
  }

  lemma StepEvolves(s: State, step: Step, s': State)
    requires Inv(s) && Next(s, step, s')
    ensures Evolves(s, s')
  {
  }

  lemma EvolvesTransitive(s: State, t: State, u: State)
    requires Evolves(s, t) && Evolves(t, u) && Inv(u)
    ensures Evolves(s, u)
  {
    assert forall i | 0 <= i < |t.shelf.audit| :: u.shelf.audit[i] == t.shelf.audit[i];
    forall id | id in s.shelf.rows && id in u.shelf.rows
      ensures s.shelf.rows[id].owner == u.shelf.rows[id].owner && s.shelf.rows[id].artifact == u.shelf.rows[id].artifact
              && s.shelf.rows[id].version <= u.shelf.rows[id].version
    {
    }
  }

  // ---------------------------------------------------------------- the theorems

  lemma ReachableInv(states: seq<State>, steps: seq<Step>, n: nat)
    requires IsRun(Opens, Next, states, steps) && n < |states|
    ensures Inv(states[n])
  {
    forall s, step, s' | Inv(s) && Next(s, step, s') ensures Inv(s') {
      StepKeeps(s, step, s');
    }
    Invariant(Opens, Next, Inv, states, steps, n);
  }

  /** A version is one plus the number of successful revisions; a version is reached at most once, so
      of any number of revisions that expect the same version at most one succeeds. */
  lemma LinearHistory(states: seq<State>, steps: seq<Step>, n: nat, id: Id, i: nat, j: nat)
    requires IsRun(Opens, Next, states, steps) && n < |states|
    ensures id in states[n].shelf.rows ==> states[n].shelf.rows[id].version == 1 + Revisions(states[n].shelf, id)
    ensures
      var audit := states[n].shelf.audit;
      i < j < |audit| && audit[i].Revised? && audit[j].Revised? && audit[i].id == audit[j].id ==>
        audit[i].version < audit[j].version
  {
    ReachableInv(states, steps, n);
    var audit := states[n].shelf.audit;
    if i < j < |audit| && audit[i].Revised? && audit[j].Revised? && audit[i].id == audit[j].id {
      var f := RevisedWeight(audit[i].id);
      assert audit[..j] == audit[..i] + [audit[i]] + audit[i + 1..j];
      SumAppend(audit[..i] + [audit[i]], audit[i + 1..j], f);
      OneMore(audit[..i], audit[i], audit[i].id);
      CountsAreNatural(audit[i + 1..j], audit[i].id);
    }
  }

  lemma {:induction false} CountsAreNatural(audit: seq<Entry>, id: Id)
    ensures Sum(audit, RevisedWeight(id)) >= 0
  {
    if audit != [] {
      CountsAreNatural(audit[..|audit| - 1], id);
    }
  }

  /** A revision that succeeds replaces exactly the row its author read. */
  lemma NoLostUpdate(states: seq<State>, steps: seq<Step>, n: nat, id: Id, copy: Row, actor: Id, artifact: Id,
                     expected: nat, p: Policy, now: Time)
    requires IsRun(Opens, Next, states, steps) && n < |states| && (id, copy) in states[n].copies
    requires Revise(states[n].shelf, id, copy, actor, artifact, expected, p, now).Ok?
    ensures id in states[n].shelf.rows && states[n].shelf.rows[id] == copy
    ensures p.readers <= states[n].shelf.roles
    ensures Revise(states[n].shelf, id, copy, actor, artifact, expected, p, now).value.rows[id]
         == copy.(readers := p.readers, until := p.until, version := expected + 1)
  {
    ReachableInv(states, steps, n);
  }

  /** What is deleted or purged stays so: no later state has it live, none of its copies can be
      revised, and its identifier cannot be used again. */
  lemma NoResurrection(states: seq<State>, steps: seq<Step>, m: nat, n: nat, id: Id)
    requires IsRun(Opens, Next, states, steps) && m <= n < |states| && id in states[m].shelf.tombstones
    ensures id in states[n].shelf.tombstones && (id in states[n].shelf.rows ==> states[n].shelf.rows[id].deleted)
    ensures forall i | |states[m].shelf.audit| <= i < |states[n].shelf.audit| :: states[n].shelf.audit[i].id != id
    ensures forall row :: Create(states[n].shelf, id, row).Err?
    ensures forall copy, actor, artifact, expected, p, now ::
      Revise(states[n].shelf, id, copy, actor, artifact, expected, p, now).Err?
  {
    LaterEvolves(states, steps, m, n);
    ReachableInv(states, steps, n);
  }

  lemma {:induction false} LaterEvolves(states: seq<State>, steps: seq<Step>, m: nat, n: nat)
    requires IsRun(Opens, Next, states, steps) && m <= n < |states|
    ensures Evolves(states[m], states[n])
  {
    if m < n {
      LaterEvolves(states, steps, m, n - 1);
      ReachableInv(states, steps, n - 1);
      ReachableInv(states, steps, n);
      assert Next(states[n - 1], steps[n - 1], states[n]);
      StepEvolves(states[n - 1], steps[n - 1], states[n]);
      EvolvesTransitive(states[m], states[n - 1], states[n]);
    }
  }

  /** Owner and provenance of an entry never change. */
  lemma OwnerNeverChanges(states: seq<State>, steps: seq<Step>, m: nat, n: nat, id: Id)
    requires IsRun(Opens, Next, states, steps) && m <= n < |states|
    requires id in states[m].shelf.rows && id in states[n].shelf.rows
    ensures states[n].shelf.rows[id].owner == states[m].shelf.rows[id].owner
    ensures states[n].shelf.rows[id].artifact == states[m].shelf.rows[id].artifact
  {
    LaterEvolves(states, steps, m, n);
  }

  /** Over every run only the owner of the row as it is now revises or deletes it, however old the copy they
      decided on. */
  lemma OnlyOwnerWrites(states: seq<State>, steps: seq<Step>, n: nat, id: Id, copy: Row, actor: Id, artifact: Id,
                        expected: nat, p: Policy, now: Time)
    requires IsRun(Opens, Next, states, steps) && n < |states| && (id, copy) in states[n].copies
    requires Revise(states[n].shelf, id, copy, actor, artifact, expected, p, now).Ok? || Delete(states[n].shelf, id, copy, actor, now).Ok?
    ensures id in states[n].shelf.rows && states[n].shelf.rows[id].owner == actor
  {
    ReachableInv(states, steps, n);
    RevisedIff(states[n].shelf, id, copy, actor, artifact, expected, p, now);
    DeletedIff(states[n].shelf, id, copy, actor, now);
  }
}
