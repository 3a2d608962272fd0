/** Importing a portable company template: validate it, then create budgets, roles and goals with
    every local key replaced by a fresh identifier. */
module TemplateImport {
  import opened Basics
  import opened Hierarchy

  datatype Role = Role(key: Id, reportsTo: Option<Id>, budget: Option<Id>, title: string, permissions: seq<string>)
  datatype Goal = Goal(key: Id, parent: Option<Id>, owner: Option<Id>, title: string)
  datatype Scope = CompanyScope | GoalScope | AgentScope
  datatype Terms = Terms(period: string, ceiling: real, warning: real, models: seq<string>)
  datatype Budget = Budget(key: Id, scope: Scope, scopeKey: Option<Id>, terms: Terms)
  datatype Playbook = Playbook(key: Id, steps: seq<Id>)
  datatype Template = Template(goals: seq<Goal>, roles: seq<Role>, budgets: seq<Budget>, playbooks: seq<Playbook>)

  /** The rows the import creates. Roles and budgets are paused, and what a role asks to be permitted is
      only noted. */
  datatype RoleRow = RoleRow(
    localKey: Id, agent: Id, manager: Option<Id>, budget: Option<Id>, title: string,
    permissions: seq<string>, requested: seq<string>, paused: bool)
  datatype GoalRow = GoalRow(localKey: Id, goal: Id, parent: Option<Id>, owner: Option<Id>, title: string)
  datatype BudgetRow = BudgetRow(localKey: Id, id: Id, scope: Scope, scopeId: Option<Id>, terms: Terms, paused: bool)

  /** Generated identifiers by local key. */
  datatype Ids = Ids(agents: map<Id, Id>, goals: map<Id, Id>, budgets: map<Id, Id>)

  function RoleNodes(t: Template): seq<Node> {
    seq(|t.roles|, i requires 0 <= i < |t.roles| => Node(t.roles[i].key, t.roles[i].reportsTo))
  }

  function GoalNodes(t: Template): seq<Node> {
    seq(|t.goals|, i requires 0 <= i < |t.goals| => Node(t.goals[i].key, t.goals[i].parent))
  }

  function RoleKeys(t: Template): set<Id> { set r | r in t.roles :: r.key }
  function GoalKeys(t: Template): set<Id> { set g | g in t.goals :: g.key }
  function BudgetKeys(t: Template): set<Id> { set b | b in t.budgets :: b.key }

  // ---------------------------------------------------------------- validation

  predicate DistinctBudgets(t: Template) {
    forall i, j | 0 <= i < j < |t.budgets| :: t.budgets[i].key != t.budgets[j].key
  }

  predicate DistinctPlaybooks(t: Template) {
    forall i, j | 0 <= i < j < |t.playbooks| :: t.playbooks[i].key != t.playbooks[j].key
  }

  /** A role linked to an agent budget must be the agent that budget is for. The link is looked up
      only for a non-blank key. */
  predicate BudgetMatches(t: Template, r: Role) {
    r.budget.Some? ==>
      && r.budget.value in BudgetKeys(t)
      && (r.budget.value != "" ==> forall b | b in t.budgets && b.key == r.budget.value && b.scope == AgentScope ::
            b.scopeKey == Some(r.key))
  }

  predicate ScopeResolves(t: Template, b: Budget) {
    match b.scope
    case CompanyScope => b.scopeKey.None?
    case GoalScope => b.scopeKey.Some? && b.scopeKey.value in GoalKeys(t)
    case AgentScope => b.scopeKey.Some? && b.scopeKey.value in RoleKeys(t)
  }

  predicate ReferencesResolve(t: Template) {
    && (forall g | g in t.goals && g.owner.Some? :: g.owner.value in RoleKeys(t))
    && (forall r | r in t.roles :: BudgetMatches(t, r))
    && (forall b | b in t.budgets :: ScopeResolves(t, b))
    && (forall p | p in t.playbooks :: forall step | step in p.steps :: step in RoleKeys(t))
  }

  ghost predicate Valid(t: Template) {
    && Distinct(GoalNodes(t)) && Distinct(RoleNodes(t)) && DistinctBudgets(t) && DistinctPlaybooks(t)
    && Closed(GoalNodes(t)) && Acyclic(Table(GoalNodes(t)))
    && Closed(RoleNodes(t)) && Acyclic(Table(RoleNodes(t)))
    && ReferencesResolve(t)
  }

  /** The validator's loops over owners, budget links, scopes and playbook steps. */
  method CheckReferences(t: Template) returns (ok: bool)
    ensures ok <==> ReferencesResolve(t)
  {
    var roleKeys, goalKeys, budgetKeys := RoleKeys(t), GoalKeys(t), BudgetKeys(t);
    for i := 0 to |t.goals|
      invariant forall k | 0 <= k < i && t.goals[k].owner.Some? :: t.goals[k].owner.value in roleKeys
    {
      if t.goals[i].owner.Some? && t.goals[i].owner.value !in roleKeys {
        assert t.goals[i] in t.goals;
        return false;
      }
    }
    for i := 0 to |t.roles|
      invariant forall k | 0 <= k < i :: BudgetMatches(t, t.roles[k])
    {
      var r := t.roles[i];
      assert r in t.roles;
      if r.budget.Some? && r.budget.value !in budgetKeys {
        return false;
      }
      if r.budget.Some? && r.budget.value != "" {
        for j := 0 to |t.budgets|
          invariant forall k | 0 <= k < j && t.budgets[k].key == r.budget.value && t.budgets[k].scope == AgentScope ::
            t.budgets[k].scopeKey == Some(r.key)
        {
          if t.budgets[j].key == r.budget.value && t.budgets[j].scope == AgentScope && t.budgets[j].scopeKey != Some(r.key) {
            assert t.budgets[j] in t.budgets;
            return false;
          }
        }
      }
    }
    for i := 0 to |t.budgets|
      invariant forall k | 0 <= k < i :: ScopeResolves(t, t.budgets[k])
    {
      var b := t.budgets[i];
      assert b in t.budgets;
      if b.scope == CompanyScope && b.scopeKey.Some? {
        return false;
      }
      if b.scope == GoalScope && (b.scopeKey.None? || b.scopeKey.value !in goalKeys) {
        return false;
      }
      if b.scope == AgentScope && (b.scopeKey.None? || b.scopeKey.value !in roleKeys) {
        return false;
      }
    }
    ok := CheckPlaybooks(t);
  }

  method CheckPlaybooks(t: Template) returns (ok: bool)
    ensures ok <==> forall p | p in t.playbooks :: forall step | step in p.steps :: step in RoleKeys(t)
  {
    var roleKeys := RoleKeys(t);
    for i := 0 to |t.playbooks|
      invariant forall k | 0 <= k < i :: forall step | step in t.playbooks[k].steps :: step in roleKeys
    {
      var p := t.playbooks[i];
      assert p in t.playbooks;
      for j := 0 to |p.steps|
        invariant forall k | 0 <= k < j :: p.steps[k] in roleKeys
      {
        if p.steps[j] !in roleKeys {
          assert p.steps[j] in p.steps;
          return false;
        }
      }
    }
    return true;
  }

  method Validate(t: Template) returns (ok: bool)
    ensures ok <==> Valid(t)
  {
    if !Distinct(GoalNodes(t)) || !Distinct(RoleNodes(t)) || !DistinctBudgets(t) || !DistinctPlaybooks(t) {
      return false;
    }
    var goals := CheckHierarchy(GoalNodes(t));
    if !goals {
      return false;
    }
    var roles := CheckHierarchy(RoleNodes(t));
    if !roles {
      return false;
    }
    ok := CheckReferences(t);
  }

  // ---------------------------------------------------------------- references

  predicate Injective(ids: map<Id, Id>) {
    forall a, b | a in ids && b in ids && ids[a] == ids[b] :: a == b
  }

  /** One generated identifier for every local key, no two the same. */
  predicate Covers(ids: Ids, t: Template) {
    && ids.agents.Keys == RoleKeys(t) && ids.goals.Keys == GoalKeys(t) && ids.budgets.Keys == BudgetKeys(t)
    && Injective(ids.agents) && Injective(ids.goals) && Injective(ids.budgets)
  }

  /** A reference as it is written: a blank key counts as no reference. */
  function Link(ids: map<Id, Id>, reference: Option<Id>): Option<Id>
    requires reference.Some? ==> reference.value in ids
  {
    if reference.Some? && reference.value != "" then Some(ids[reference.value]) else None
  }

  function RoleRowOf(r: Role, ids: Ids): RoleRow
    requires r.key in ids.agents
    requires r.reportsTo.Some? ==> r.reportsTo.value in ids.agents
    requires r.budget.Some? ==> r.budget.value in ids.budgets
  {
    RoleRow(r.key, ids.agents[r.key], Link(ids.agents, r.reportsTo), Link(ids.budgets, r.budget), r.title, [], r.permissions, true)
  }

  function GoalRowOf(g: Goal, ids: Ids): GoalRow
    requires g.key in ids.goals
    requires g.parent.Some? ==> g.parent.value in ids.goals
    requires g.owner.Some? ==> g.owner.value in ids.agents
  {
    GoalRow(g.key, ids.goals[g.key], Link(ids.goals, g.parent), Link(ids.agents, g.owner), g.title)
  }

  /** The scope of a budget is looked up whether or not its key is blank. */
  function BudgetRowOf(b: Budget, ids: Ids): BudgetRow
    requires b.key in ids.budgets
    requires b.scope == GoalScope ==> b.scopeKey.Some? && b.scopeKey.value in ids.goals
    requires b.scope == AgentScope ==> b.scopeKey.Some? && b.scopeKey.value in ids.agents
  {
    BudgetRow(b.key, ids.budgets[b.key], b.scope,
      match b.scope
      case CompanyScope => None
      case GoalScope => Some(ids.goals[b.scopeKey.value])
      case AgentScope => Some(ids.agents[b.scopeKey.value]),
      b.terms, true)
  }

  lemma KeysOf(t: Template, ids: Ids)
    requires Valid(t) && Covers(ids, t)
    ensures forall i | 0 <= i < |t.roles| ::
      var r := t.roles[i];
      r.key in ids.agents && (r.reportsTo.Some? ==> r.reportsTo.value in ids.agents) && (r.budget.Some? ==> r.budget.value in ids.budgets)
    ensures forall i | 0 <= i < |t.goals| ::
      var g := t.goals[i];
      g.key in ids.goals && (g.parent.Some? ==> g.parent.value in ids.goals) && (g.owner.Some? ==> g.owner.value in ids.agents)
  {
    forall i | 0 <= i < |t.roles| && t.roles[i].reportsTo.Some? ensures t.roles[i].reportsTo.value in ids.agents {
      assert Resolved(RoleNodes(t), i);
      var k :| 0 <= k < |t.roles| && RoleNodes(t)[k].key == t.roles[i].reportsTo.value;
      assert t.roles[k] in t.roles;
    }
    forall i | 0 <= i < |t.goals| && t.goals[i].parent.Some? ensures t.goals[i].parent.value in ids.goals {
      assert Resolved(GoalNodes(t), i);
      var k :| 0 <= k < |t.goals| && GoalNodes(t)[k].key == t.goals[i].parent.value;
      assert t.goals[k] in t.goals;
    }
    forall i | 0 <= i < |t.roles| ensures BudgetMatches(t, t.roles[i]) {
      assert t.roles[i] in t.roles;
    }
    forall i | 0 <= i < |t.goals| && t.goals[i].owner.Some? ensures t.goals[i].owner.value in RoleKeys(t) {
      assert t.goals[i] in t.goals;
    }
  }

  // ---------------------------------------------------------------- the import

  datatype Failure = InvalidTemplate | ReviewRequired | NameCollision

  /** The rows of the roles, one per role, managers first. */
  predicate RolesBuilt(t: Template, ids: Ids, order: seq<nat>, rows: seq<RoleRow>)
    requires forall i | 0 <= i < |t.roles| ::
      var r := t.roles[i];
      r.key in ids.agents && (r.reportsTo.Some? ==> r.reportsTo.value in ids.agents) && (r.budget.Some? ==> r.budget.value in ids.budgets)
  {
    && |rows| == |order|
    && forall k | 0 <= k < |order| :: order[k] < |t.roles| && rows[k] == RoleRowOf(t.roles[order[k]], ids)
  }

  predicate GoalsBuilt(t: Template, ids: Ids, order: seq<nat>, rows: seq<GoalRow>)
    requires forall i | 0 <= i < |t.goals| ::
      var g := t.goals[i];
      g.key in ids.goals && (g.parent.Some? ==> g.parent.value in ids.goals) && (g.owner.Some? ==> g.owner.value in ids.agents)
  {
    && |rows| == |order|
    && forall k | 0 <= k < |order| :: order[k] < |t.goals| && rows[k] == GoalRowOf(t.goals[order[k]], ids)
  }

  predicate BudgetsBuilt(t: Template, ids: Ids, rows: seq<BudgetRow>)
    requires ReferencesResolve(t) && Covers(ids, t)
  {
    |rows| == |t.budgets| && forall k | 0 <= k < |rows| :: BudgetRowed(t, ids, rows, k)
  }

  predicate BudgetRowed(t: Template, ids: Ids, rows: seq<BudgetRow>, k: nat)
    requires ReferencesResolve(t) && Covers(ids, t)
  {
    k < |rows| && k < |t.budgets| && t.budgets[k] in t.budgets && ScopeResolves(t, t.budgets[k])
    && rows[k] == BudgetRowOf(t.budgets[k], ids)
  }

  ghost predicate RolesMirrored(t: Template, ids: Ids, rows: seq<RoleRow>)
    requires Valid(t) && Covers(ids, t)
  {
    KeysOf(t, ids);
    exists order :: ParentsFirst(RoleNodes(t), order) && RolesBuilt(t, ids, order, rows)
  }

  ghost predicate GoalsMirrored(t: Template, ids: Ids, rows: seq<GoalRow>)
    requires Valid(t) && Covers(ids, t)
  {
    KeysOf(t, ids);
    exists order :: ParentsFirst(GoalNodes(t), order) && GoalsBuilt(t, ids, order, rows)
  }

  /** The created company is the template: every entry once, parents first, references mapped. */
  ghost predicate Mirrors(t: Template, ids: Ids, roles: seq<RoleRow>, goals: seq<GoalRow>, budgets: seq<BudgetRow>)
    requires Valid(t) && Covers(ids, t)
  {
    RolesMirrored(t, ids, roles) && GoalsMirrored(t, ids, goals) && BudgetsBuilt(t, ids, budgets)
  }

  class Company {
    var roles: seq<RoleRow>
    var goals: seq<GoalRow>
    var budgets: seq<BudgetRow>

    constructor ()
      ensures roles == [] && goals == [] && budgets == []
    {
      roles, goals, budgets := [], [], [];
    }

    method CreateBudgets(t: Template, ids: Ids)
      requires ReferencesResolve(t) && Covers(ids, t) && budgets == []
      modifies this`budgets
      ensures BudgetsBuilt(t, ids, budgets)
    {
      for i := 0 to |t.budgets|
        invariant |budgets| == i && forall k | 0 <= k < i :: BudgetRowed(t, ids, budgets, k)
      {
        ghost var before := budgets;
        assert t.budgets[i] in t.budgets && ScopeResolves(t, t.budgets[i]);
        budgets := budgets + [BudgetRowOf(t.budgets[i], ids)];
        forall k | 0 <= k < i ensures BudgetRowed(t, ids, budgets, k) {
          assert BudgetRowed(t, ids, before, k);
        }
      }
    }

    method CreateRoles(t: Template, ids: Ids)
      requires Valid(t) && Covers(ids, t) && roles == []
      modifies this`roles
      ensures RolesMirrored(t, ids, roles)
    {
      KeysOf(t, ids);
      var order := OrderRoles(RoleNodes(t));
      for k := 0 to |order.value|
        invariant RolesBuilt(t, ids, order.value[..k], roles)
      {
        roles := roles + [RoleRowOf(t.roles[order.value[k]], ids)];
      }
      assert order.value[..|order.value|] == order.value;
    }

    method CreateGoals(t: Template, ids: Ids)
      requires Valid(t) && Covers(ids, t) && goals == []
      modifies this`goals
      ensures GoalsMirrored(t, ids, goals)
    {
      KeysOf(t, ids);
      var order := OrderGoals(GoalNodes(t));
      for k := 0 to |order.value|
        invariant GoalsBuilt(t, ids, order.value[..k], goals)
      {
        goals := goals + [GoalRowOf(t.goals[order.value[k]], ids)];
      }
      assert order.value[..|order.value|] == order.value;
    }

    /** The import succeeds exactly on a valid, reviewed template with a new name, and then the
        company mirrors it; the two cycle errors of the loops are never raised. */
    method Import(t: Template, ids: Ids, reviewed: bool, taken: bool) returns (r: Option<Failure>)
      requires Covers(ids, t) && roles == [] && goals == [] && budgets == []
      modifies this
      ensures r.None? <==> Valid(t) && reviewed && !taken
      ensures r.None? ==> Mirrors(t, ids, roles, goals, budgets)
      ensures r.None? ==> (SameReferences(t, roles, goals, budgets) <==> NoBlankReference(t))
      ensures r.Some? ==> roles == [] && goals == [] && budgets == []
    {
      var ok := Validate(t);
      if !ok {
        return Some(InvalidTemplate);
      }
      if !reviewed {
        return Some(ReviewRequired);
      }
      if taken {
        return Some(NameCollision);
      }
      CreateBudgets(t, ids);
      CreateRoles(t, ids);
      CreateGoals(t, ids);
      IsomorphicIff(t, ids, roles, goals, budgets);
      return None;
    }
  }

  // ---------------------------------------------------------------- is the company the template?

  /** The entry a row was created from. */
  predicate FromRole(t: Template, row: RoleRow, r: Role) {
    r in t.roles && r.key == row.localKey
  }

  predicate FromGoal(t: Template, row: GoalRow, g: Goal) {
    g in t.goals && g.key == row.localKey
  }

  /** Rows refer to each other exactly where their entries do: managers and budgets of roles, parents and
      owners of goals. */
  ghost predicate SameReferences(t: Template, roles: seq<RoleRow>, goals: seq<GoalRow>, budgets: seq<BudgetRow>) {
    && (forall k, j, r | 0 <= k < |roles| && 0 <= j < |roles| && FromRole(t, roles[k], r) ::
          roles[k].manager == Some(roles[j].agent) <==> r.reportsTo == Some(roles[j].localKey))
    && (forall k, j, r | 0 <= k < |roles| && 0 <= j < |budgets| && FromRole(t, roles[k], r) ::
          roles[k].budget == Some(budgets[j].id) <==> r.budget == Some(budgets[j].localKey))
    && (forall k, j, g | 0 <= k < |goals| && 0 <= j < |goals| && FromGoal(t, goals[k], g) ::
          goals[k].parent == Some(goals[j].goal) <==> g.parent == Some(goals[j].localKey))
    && (forall k, j, g | 0 <= k < |goals| && 0 <= j < |roles| && FromGoal(t, goals[k], g) ::
          goals[k].owner == Some(roles[j].agent) <==> g.owner == Some(roles[j].localKey))
  }

  /** No reference names the blank key. */
  predicate NoBlankReference(t: Template) {
    && (forall r | r in t.roles :: r.reportsTo != Some("") && r.budget != Some(""))
    && (forall g | g in t.goals :: g.parent != Some("") && g.owner != Some(""))
  }

  // Which row is which entry.

  lemma RoleOfRow(t: Template, ids: Ids, rows: seq<RoleRow>, k: nat) returns (r: Role)
    requires Valid(t) && Covers(ids, t) && RolesMirrored(t, ids, rows) && k < |rows|
    ensures FromRole(t, rows[k], r) && r.key in ids.agents && rows[k].agent == ids.agents[r.key]
    ensures (r.reportsTo.Some? ==> r.reportsTo.value in ids.agents) && rows[k].manager == Link(ids.agents, r.reportsTo)
    ensures (r.budget.Some? ==> r.budget.value in ids.budgets) && rows[k].budget == Link(ids.budgets, r.budget)
    ensures rows[k].permissions == [] && rows[k].requested == r.permissions && rows[k].paused && rows[k].title == r.title
    ensures forall other | FromRole(t, rows[k], other) :: other == r
  {
    KeysOf(t, ids);
    var nodes := RoleNodes(t);
    var order :| ParentsFirst(nodes, order) && RolesBuilt(t, ids, order, rows);
    r := t.roles[order[k]];
    forall other | FromRole(t, rows[k], other) ensures other == r {
      var i :| 0 <= i < |t.roles| && t.roles[i] == other;
      assert nodes[i].key == nodes[order[k]].key;
    }
  }

  lemma GoalOfRow(t: Template, ids: Ids, rows: seq<GoalRow>, k: nat) returns (g: Goal)
    requires Valid(t) && Covers(ids, t) && GoalsMirrored(t, ids, rows) && k < |rows|
    ensures FromGoal(t, rows[k], g) && g.key in ids.goals && rows[k].goal == ids.goals[g.key]
    ensures (g.parent.Some? ==> g.parent.value in ids.goals) && rows[k].parent == Link(ids.goals, g.parent)
    ensures (g.owner.Some? ==> g.owner.value in ids.agents) && rows[k].owner == Link(ids.agents, g.owner)
    ensures rows[k].title == g.title
    ensures forall other | FromGoal(t, rows[k], other) :: other == g
  {
    KeysOf(t, ids);
    var nodes := GoalNodes(t);
    var order :| ParentsFirst(nodes, order) && GoalsBuilt(t, ids, order, rows);
    g := t.goals[order[k]];
    forall other | FromGoal(t, rows[k], other) ensures other == g {
      var i :| 0 <= i < |t.goals| && t.goals[i] == other;
      assert nodes[i].key == nodes[order[k]].key;
    }
  }

  /** Rows of one key or one agent are the same row. */
  lemma RoleRowsDiffer(t: Template, ids: Ids, rows: seq<RoleRow>, j: nat, k: nat)
    requires Valid(t) && Covers(ids, t) && RolesMirrored(t, ids, rows) && j < |rows| && k < |rows|
    requires rows[j].localKey == rows[k].localKey || rows[j].agent == rows[k].agent
    ensures j == k
  {
    KeysOf(t, ids);
    var nodes := RoleNodes(t);
    var order :| ParentsFirst(nodes, order) && RolesBuilt(t, ids, order, rows);
    assert rows[j] == RoleRowOf(t.roles[order[j]], ids) && rows[k] == RoleRowOf(t.roles[order[k]], ids);
    assert nodes[order[j]].key == nodes[order[k]].key;
  }

  lemma GoalRowsDiffer(t: Template, ids: Ids, rows: seq<GoalRow>, j: nat, k: nat)
    requires Valid(t) && Covers(ids, t) && GoalsMirrored(t, ids, rows) && j < |rows| && k < |rows|
    requires rows[j].localKey == rows[k].localKey || rows[j].goal == rows[k].goal
    ensures j == k
  {
    KeysOf(t, ids);
    var nodes := GoalNodes(t);
    var order :| ParentsFirst(nodes, order) && GoalsBuilt(t, ids, order, rows);
    assert rows[j] == GoalRowOf(t.goals[order[j]], ids) && rows[k] == GoalRowOf(t.goals[order[k]], ids);
    assert nodes[order[j]].key == nodes[order[k]].key;
  }

  /** Every role has exactly one row, and no two rows share an agent. */
  lemma OneRowPerRole(t: Template, ids: Ids, rows: seq<RoleRow>, r: Role) returns (k: nat)
    requires Valid(t) && Covers(ids, t) && RolesMirrored(t, ids, rows) && r in t.roles
    ensures |rows| == |t.roles| && k < |rows| && FromRole(t, rows[k], r)
    ensures forall j | 0 <= j < |rows| :: (FromRole(t, rows[j], r) || rows[j].agent == rows[k].agent) ==> j == k
  {
    KeysOf(t, ids);
    var nodes := RoleNodes(t);
    var order :| ParentsFirst(nodes, order) && RolesBuilt(t, ids, order, rows);
    var i :| 0 <= i < |t.roles| && t.roles[i] == r;
    assert i in order;
    k :| 0 <= k < |order| && order[k] == i;
    OrderIsLong(nodes, order);
    forall j | 0 <= j < |rows| && (FromRole(t, rows[j], r) || rows[j].agent == rows[k].agent) ensures j == k {
      RoleRowsDiffer(t, ids, rows, j, k);
    }
  }

  /** Every goal has exactly one row, and no two rows share an identifier. */
  lemma OneRowPerGoal(t: Template, ids: Ids, rows: seq<GoalRow>, g: Goal) returns (k: nat)
    requires Valid(t) && Covers(ids, t) && GoalsMirrored(t, ids, rows) && g in t.goals
    ensures |rows| == |t.goals| && k < |rows| && FromGoal(t, rows[k], g)
    ensures forall j | 0 <= j < |rows| :: (FromGoal(t, rows[j], g) || rows[j].goal == rows[k].goal) ==> j == k
  {
    KeysOf(t, ids);
    var nodes := GoalNodes(t);
    var order :| ParentsFirst(nodes, order) && GoalsBuilt(t, ids, order, rows);
    var i :| 0 <= i < |t.goals| && t.goals[i] == g;
    assert i in order;
    k :| 0 <= k < |order| && order[k] == i;
    OrderIsLong(nodes, order);
    forall j | 0 <= j < |rows| && (FromGoal(t, rows[j], g) || rows[j].goal == rows[k].goal) ensures j == k {
      GoalRowsDiffer(t, ids, rows, j, k);
    }
  }

  // The created references.

  /** A written reference names an identifier exactly when the template's names its key, unless that is blank. */
  lemma LinkIff(ids: map<Id, Id>, reference: Option<Id>, key: Id)
    requires Injective(ids) && key in ids && (reference.Some? ==> reference.value in ids)
    ensures (Link(ids, reference) == Some(ids[key]) <==> reference == Some(key)) <==> !(reference == Some("") && key == "")
  {
  }

  lemma RoleReferencesAgree(t: Template, ids: Ids, roles: seq<RoleRow>, budgets: seq<BudgetRow>, k: nat, j: nat, r: Role)
    requires Valid(t) && Covers(ids, t) && RolesMirrored(t, ids, roles) && BudgetsBuilt(t, ids, budgets)
    requires k < |roles| && FromRole(t, roles[k], r)
    ensures j < |roles| && r.reportsTo != Some("") ==>
      (roles[k].manager == Some(roles[j].agent) <==> r.reportsTo == Some(roles[j].localKey))
    ensures j < |budgets| && r.budget != Some("") ==>
      (roles[k].budget == Some(budgets[j].id) <==> r.budget == Some(budgets[j].localKey))
    ensures r.reportsTo == Some("") ==> roles[k].manager == None
    ensures r.budget == Some("") ==> roles[k].budget == None
  {
    var own := RoleOfRow(t, ids, roles, k);
    if j < |roles| {
      var other := RoleOfRow(t, ids, roles, j);
      LinkIff(ids.agents, r.reportsTo, other.key);
    }
    if j < |budgets| {
      assert BudgetRowed(t, ids, budgets, j);
      LinkIff(ids.budgets, r.budget, budgets[j].localKey);
    }
  }

  lemma GoalReferencesAgree(t: Template, ids: Ids, roles: seq<RoleRow>, goals: seq<GoalRow>, k: nat, j: nat, g: Goal)
    requires Valid(t) && Covers(ids, t) && RolesMirrored(t, ids, roles) && GoalsMirrored(t, ids, goals)
    requires k < |goals| && FromGoal(t, goals[k], g)
    ensures j < |goals| && g.parent != Some("") ==>
      (goals[k].parent == Some(goals[j].goal) <==> g.parent == Some(goals[j].localKey))
    ensures j < |roles| && g.owner != Some("") ==>
      (goals[k].owner == Some(roles[j].agent) <==> g.owner == Some(roles[j].localKey))
    ensures g.parent == Some("") ==> goals[k].parent == None
    ensures g.owner == Some("") ==> goals[k].owner == None
  {
    var own := GoalOfRow(t, ids, goals, k);
    if j < |goals| {
      var other := GoalOfRow(t, ids, goals, j);
      LinkIff(ids.goals, g.parent, other.key);
    }
    if j < |roles| {
      var other := RoleOfRow(t, ids, roles, j);
      LinkIff(ids.agents, g.owner, other.key);
    }
  }

  lemma NoBlankIsSame(t: Template, ids: Ids, roles: seq<RoleRow>, goals: seq<GoalRow>, budgets: seq<BudgetRow>)
    requires Valid(t) && Covers(ids, t) && Mirrors(t, ids, roles, goals, budgets) && NoBlankReference(t)
    ensures SameReferences(t, roles, goals, budgets)
  {
    forall k, j, r | 0 <= k < |roles| && 0 <= j < |roles| && FromRole(t, roles[k], r)
      ensures roles[k].manager == Some(roles[j].agent) <==> r.reportsTo == Some(roles[j].localKey)
    {
      RoleReferencesAgree(t, ids, roles, budgets, k, j, r);
    }
    forall k, j, r | 0 <= k < |roles| && 0 <= j < |budgets| && FromRole(t, roles[k], r)
      ensures roles[k].budget == Some(budgets[j].id) <==> r.budget == Some(budgets[j].localKey)
    {
      RoleReferencesAgree(t, ids, roles, budgets, k, j, r);
    }
    forall k, j, g | 0 <= k < |goals| && 0 <= j < |goals| && FromGoal(t, goals[k], g)
      ensures goals[k].parent == Some(goals[j].goal) <==> g.parent == Some(goals[j].localKey)
    {
      GoalReferencesAgree(t, ids, roles, goals, k, j, g);
    }
    forall k, j, g | 0 <= k < |goals| && 0 <= j < |roles| && FromGoal(t, goals[k], g)
      ensures goals[k].owner == Some(roles[j].agent) <==> g.owner == Some(roles[j].localKey)
    {
      GoalReferencesAgree(t, ids, roles, goals, k, j, g);
    }
  }

  /** The blank key, if a reference names it, is some entry's. */
  lemma BlankRoleDiffers(t: Template, ids: Ids, roles: seq<RoleRow>, goals: seq<GoalRow>, budgets: seq<BudgetRow>, r: Role)
    requires Valid(t) && Covers(ids, t) && Mirrors(t, ids, roles, goals, budgets)
    requires r in t.roles && (r.reportsTo == Some("") || r.budget == Some(""))
    ensures !SameReferences(t, roles, goals, budgets)
  {
    KeysOf(t, ids);
    var k := OneRowPerRole(t, ids, roles, r);
    var own := RoleOfRow(t, ids, roles, k);
    if r.reportsTo == Some("") {
      var other :| other in t.roles && other.key == "";
      var j := OneRowPerRole(t, ids, roles, other);
      RoleReferencesAgree(t, ids, roles, budgets, k, j, r);
    } else {
      var b :| b in t.budgets && b.key == "";
      var j :| 0 <= j < |t.budgets| && t.budgets[j] == b;
      assert BudgetRowed(t, ids, budgets, j);
      RoleReferencesAgree(t, ids, roles, budgets, k, j, r);
    }
  }

  lemma BlankGoalDiffers(t: Template, ids: Ids, roles: seq<RoleRow>, goals: seq<GoalRow>, budgets: seq<BudgetRow>, g: Goal)
    requires Valid(t) && Covers(ids, t) && Mirrors(t, ids, roles, goals, budgets)
    requires g in t.goals && (g.parent == Some("") || g.owner == Some(""))
    ensures !SameReferences(t, roles, goals, budgets)
  {
    KeysOf(t, ids);
    var k := OneRowPerGoal(t, ids, goals, g);
    var own := GoalOfRow(t, ids, goals, k);
    if g.parent == Some("") {
      var other :| other in t.goals && other.key == "";
      var j := OneRowPerGoal(t, ids, goals, other);
      GoalReferencesAgree(t, ids, roles, goals, k, j, g);
    } else {
      var other :| other in t.roles && other.key == "";
      var j := OneRowPerRole(t, ids, roles, other);
      GoalReferencesAgree(t, ids, roles, goals, k, j, g);
    }
  }

  /** The rows of a successful import form the template's own graph of managers, budgets, parents and
      owners, if and only if no reference names the blank key. A key of blanks passes validation and is
      stripped to the blank key. */
  lemma IsomorphicIff(t: Template, ids: Ids, roles: seq<RoleRow>, goals: seq<GoalRow>, budgets: seq<BudgetRow>)
    requires Valid(t) && Covers(ids, t) && Mirrors(t, ids, roles, goals, budgets)
    ensures SameReferences(t, roles, goals, budgets) <==> NoBlankReference(t)
  {
    if NoBlankReference(t) {
      NoBlankIsSame(t, ids, roles, goals, budgets);
    } else if r :| r in t.roles && (r.reportsTo == Some("") || r.budget == Some("")) {
      BlankRoleDiffers(t, ids, roles, goals, budgets, r);
    } else {
      var g :| g in t.goals && (g.parent == Some("") || g.owner == Some(""));
      BlankGoalDiffers(t, ids, roles, goals, budgets, g);
    }
  }

  /** The scope of a budget is kept whatever its key: its goal's or its agent's row. */
  lemma ScopesAgree(t: Template, ids: Ids, roles: seq<RoleRow>, goals: seq<GoalRow>, budgets: seq<BudgetRow>, k: nat, j: nat)
    requires Valid(t) && Covers(ids, t) && Mirrors(t, ids, roles, goals, budgets) && k < |budgets|
    ensures |budgets| == |t.budgets| && budgets[k].localKey == t.budgets[k].key && budgets[k].scope == t.budgets[k].scope
    ensures budgets[k].terms == t.budgets[k].terms && budgets[k].paused
    ensures budgets[k].scope == GoalScope && j < |goals| ==>
      (budgets[k].scopeId == Some(goals[j].goal) <==> t.budgets[k].scopeKey == Some(goals[j].localKey))
    ensures budgets[k].scope == AgentScope && j < |roles| ==>
      (budgets[k].scopeId == Some(roles[j].agent) <==> t.budgets[k].scopeKey == Some(roles[j].localKey))
  {
    assert BudgetRowed(t, ids, budgets, k);
    if j < |goals| {
      var g := GoalOfRow(t, ids, goals, j);
    }
    if j < |roles| {
      var r := RoleOfRow(t, ids, roles, j);
    }
  }

  const BLANK := Template([Goal("", None, None, "top"), Goal("child", Some(""), None, "below")], [], [], [])
  const BLANK_IDS := Ids(map[], map["" := "g1", "child" := "g2"], map[])

  lemma BlankHierarchy()
    ensures Distinct(GoalNodes(BLANK)) && Closed(GoalNodes(BLANK)) && Acyclic(Table(GoalNodes(BLANK)))
  {
    var nodes := GoalNodes(BLANK);
    assert nodes == [Node("", None), Node("child", Some(""))];
    assert nodes[0].key == "" && IsKey(nodes, "");
    assert Resolved(nodes, 0) && Resolved(nodes, 1);
    ChildAfterRoot(nodes);
  }

  lemma NoRolesAreFine()
    ensures Distinct(RoleNodes(BLANK)) && Closed(RoleNodes(BLANK)) && Acyclic(Table(RoleNodes(BLANK)))
  {
    assert RoleNodes(BLANK) == [];
  }

  /** Two goals, the second below the first, whose key is blank: the template is valid, but the created
      child has no parent. */
  lemma BlankKeyLosesParent()
    ensures Valid(BLANK) && Covers(BLANK_IDS, BLANK)
    ensures BLANK.goals[1].parent == Some(BLANK.goals[0].key) && GoalRowOf(BLANK.goals[1], BLANK_IDS).parent == None
  {
    BlankHierarchy();
    NoRolesAreFine();
    assert BLANK.goals[0] in BLANK.goals && BLANK.goals[1] in BLANK.goals;
  }

  lemma ChildAfterRoot(nodes: seq<Node>)
    requires |nodes| == 2 && nodes[0].parent.None? && nodes[1].parent == Some(nodes[0].key) && Distinct(nodes)
    ensures Acyclic(Table(nodes))
  {
    var order: seq<nat> := [0, 1];
    assert order[0] == 0 && order[1] == 1;
    assert Placed(nodes, order, 0);
    assert Placed(nodes, order, 1) by {
      assert CreatedBefore(nodes, order, 1, nodes[0].key);
    }
    OrderedIsAcyclic(nodes, order);
  }

  /** In the rows themselves: a manager was created earlier. */
  lemma ManagersCreatedFirst(t: Template, ids: Ids, rows: seq<RoleRow>, k: nat)
    requires Valid(t) && Covers(ids, t) && RolesMirrored(t, ids, rows)
    requires k < |rows| && rows[k].manager.Some?
    ensures exists j | 0 <= j < k :: Some(rows[j].agent) == rows[k].manager
  {
    KeysOf(t, ids);
    var nodes := RoleNodes(t);
    var order :| ParentsFirst(nodes, order) && RolesBuilt(t, ids, order, rows);
    var j := ParentCreated(nodes, order, k);
    assert rows[j] == RoleRowOf(t.roles[order[j]], ids);
  }

  /** And so was a parent goal. */
  lemma ParentsCreatedFirst(t: Template, ids: Ids, rows: seq<GoalRow>, k: nat)
    requires Valid(t) && Covers(ids, t) && GoalsMirrored(t, ids, rows)
    requires k < |rows| && rows[k].parent.Some?
    ensures exists j | 0 <= j < k :: Some(rows[j].goal) == rows[k].parent
  {
    KeysOf(t, ids);
    var nodes := GoalNodes(t);
    var order :| ParentsFirst(nodes, order) && GoalsBuilt(t, ids, order, rows);
    var j := ParentCreated(nodes, order, k);
    assert rows[j] == GoalRowOf(t.goals[order[j]], ids);
  }
}
