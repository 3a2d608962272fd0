/** Frozen intent, capabilities and bounded money: the pure part of execution governance. */
module ExecutionPolicy {
  import opened Basics

  datatype Denial =
    | CompanyNotFound | AgentNotFound | AgentNotRunnable
    | PermissionDenied | CeilingRequired | InvalidCost | InvalidIntent | ConfigurationChanged
    | KeyConflict | InProgress | RecoveryRequired | HeartbeatNotElapsed
    | WorkNotFound | WorkClosed | DependencyNotAccepted | ApprovalRequired
    | BudgetRequired | BudgetInactive | ModelNotAllowed | BudgetExceeded
    | OwnerLost | AlreadySettled | RunNotFound
    | ExecutionNotFound | NotAbandoned | RecoveryAgentRequired
    | NotRunning | ControlNotSupported
    | InvalidWorkTransition

  /** An amount as an adapter or a configuration reports it. */
  datatype Reported = Unparsable | Micros(amount: int)

  const COST_BOUND: nat := 1_000_000_000_000

  function BoundedCost(value: Reported): Result<Money, Denial> {
    if value.Micros? && 0 <= value.amount <= COST_BOUND then Ok(value.amount) else Err(InvalidCost)
  }

  /** Everything of an agent role that an approval is bound to. */
  datatype AgentConfig = AgentConfig(
    adapterType: string,
    action: string,
    maxCost: Option<Reported>,
    model: string,
    heartbeatInterval: nat,
    permissions: set<string>,
    budgetPolicy: Option<Id>,
    approvalRequired: bool)

  datatype AgentRole = AgentRole(status: string, config: AgentConfig)

  /** The cost ceiling an agent may dispatch with, if it may dispatch at all. */
  function AuthorizeAdapter(role: AgentRole): Result<Money, Denial> {
    var c := role.config;
    if role.status != "active" then Err(AgentNotRunnable)
    else if c.adapterType == "builtin" then Ok(0)
    else if !({"work.execute", "adapter:" + c.adapterType, "tool:" + c.action} <= c.permissions) then
      Err(PermissionDenied)
    else if c.maxCost.None? then Err(CeilingRequired)
    else BoundedCost(c.maxCost.value)
  }

  datatype Payload = Payload(content: string, heartbeat: bool, encodable: bool)

  /** What SHA-256 is taken of; the hash itself is taken to be injective. */
  datatype Intent = Intent(
    company: Id, agent: Id, config: AgentConfig, workItem: Option<Id>, payload: Payload)

  datatype Digest = Digest(intent: Intent, binding: string)

  /** Two texts with a colon between them, as both hashes join what they are taken of. */
  function Joined(a: string, b: string): string {
    a + ":" + b
  }

  function BoundDigest(intent: Intent, key: string, actor: Id): Digest {
    Digest(intent, Joined(key, actor))
  }

  /** The lease key: the text hashed from the company and the idempotency key. */
  function ExecutionId(company: Id, key: string): Id {
    Joined(company, key)
  }

  /** One pair is read from the other's text by cutting at a later colon. */
  predicate CutsLater(a: string, b: string, c: string, d: string) {
    a + ":" <= c && b == Joined(c[|a| + 1..], d)
  }

  lemma LaterCutJoins(a: string, b: string, c: string, d: string)
    requires CutsLater(a, b, c, d)
    ensures Joined(a, b) == Joined(c, d)
  {
    assert c == a + ":" + c[|a| + 1..];
  }

  lemma LongerCutsLater(a: string, b: string, c: string, d: string)
    requires Joined(a, b) == Joined(c, d) && |a| < |c|
    ensures CutsLater(a, b, c, d)
  {
    var x := Joined(a, b);
    assert a + ":" == x[..|a| + 1] && c == x[..|c|];
    assert c[|a| + 1..] == x[|a| + 1..|c|];
    assert b == x[|a| + 1..] && x[|a| + 1..] == x[|a| + 1..|c|] + x[|c|..];
    assert x[|c|..] == ":" + d;
  }

  /** Exactly when two joined pairs are the same text: the pairs are equal, or one is cut at a later
      colon than the other. */
  lemma JoinedEqualIff(a: string, b: string, c: string, d: string)
    ensures Joined(a, b) == Joined(c, d) <==> (a == c && b == d) || CutsLater(a, b, c, d) || CutsLater(c, d, a, b)
  {
    if CutsLater(a, b, c, d) {
      LaterCutJoins(a, b, c, d);
    }
    if CutsLater(c, d, a, b) {
      LaterCutJoins(c, d, a, b);
    }
    if Joined(a, b) == Joined(c, d) {
      if |a| < |c| {
        LongerCutsLater(a, b, c, d);
      } else if |c| < |a| {
        LongerCutsLater(c, d, a, b);
      } else {
        var x := Joined(a, b);
        assert a == x[..|a|] == c && b == x[|a| + 1..] == d;
      }
    }
  }

  /** Two companies can meet on a lease key if and only if one identifier continues the other with a
      colon. */
  lemma CompaniesMeetIff(c: Id, d: Id)
    requires c != d
    ensures (exists k, j :: ExecutionId(c, k) == ExecutionId(d, j)) <==> c + ":" <= d || d + ":" <= c
  {
    if k, j :| ExecutionId(c, k) == ExecutionId(d, j) {
      JoinedEqualIff(c, k, d, j);
    }
    if c + ":" <= d {
      LaterCutJoins(c, Joined(d[|c| + 1..], ""), d, "");
      assert ExecutionId(c, Joined(d[|c| + 1..], "")) == ExecutionId(d, "");
    } else if d + ":" <= c {
      LaterCutJoins(d, Joined(c[|d| + 1..], ""), c, "");
      assert ExecutionId(c, "") == ExecutionId(d, Joined(c[|d| + 1..], ""));
    }
  }

  /** An approval digest determines its intent, but its key and actor only up to where the colon is:
      exactly these pairs share it. */
  lemma BoundDigestEqualIff(i: Intent, k: string, a: Id, i': Intent, k': string, a': Id)
    ensures BoundDigest(i, k, a) == BoundDigest(i', k', a')
       <==> i == i' && ((k == k' && a == a') || CutsLater(k, a, k', a') || CutsLater(k', a', k, a))
  {
    JoinedEqualIff(k, a, k', a');
  }

  /** Two companies on one lease key, and two actors with different keys on one digest. */
  lemma ColonsCollide(i: Intent)
    ensures ExecutionId("a", "b:c") == ExecutionId("a:b", "c")
    ensures BoundDigest(i, "k", "a:b") == BoundDigest(i, "k:a", "b")
  {
    assert "a" + ":" + "b:c" == "a:b:c" && "a:b" + ":" + "c" == "a:b:c";
    assert "k" + ":" + "a:b" == "k:a:b" && "k:a" + ":" + "b" == "k:a:b";
  }

  datatype WorkStatus =
    | Queued | Ready | WorkRunning | Blocked | AwaitingApproval | Completed | WorkFailed | Cancelled

  /** The work-item life cycle; staying put is always allowed. */
  predicate CanTransition(from: WorkStatus, to: WorkStatus) {
    from == to ||
    match from
    case Queued => true
    case Ready => to !in {Queued}
    case WorkRunning => to !in {Queued, Ready}
    case Blocked => to !in {Queued}
    case AwaitingApproval => to !in {Queued}
    case Completed => to !in {Queued}
    case WorkFailed => to in {WorkRunning, AwaitingApproval, Cancelled}
    case Cancelled => false
  }

  /** The moves that claims and recoveries make: a cancelled item can go nowhere, and every other can be
      parked, started and failed. */
  lemma LedgerMoves(from: WorkStatus)
    ensures CanTransition(from, WorkRunning) <==> from != Cancelled
    ensures CanTransition(from, AwaitingApproval) <==> from != Cancelled
    ensures CanTransition(from, WorkFailed) <==> from != Cancelled
    ensures forall to :: CanTransition(Cancelled, to) <==> to == Cancelled
  {
  }
}
