/** The receiving runtime: a durable intent is committed before the handler runs, a recorded
    answer is replayed as it is, and an interrupted attempt stays uncertain. */
module NativeExecutor {
  import opened Basics
  import opened TransitionSystems

  /** A field of the free-form input. */
  datatype Field = Absent | Null | Text(text: string) | Other

  /** An executor request; `input` is everything of the input besides the fields that are checked. */
  datatype Request = Request(
    company: Id, run: Id, action: string, trace: Option<string>, maxCost: Money,
    inputAction: Field, inputTrace: Field, hasContext: bool, input: string)

  datatype Response = Response(failed: bool, cost: Money, output: string)

  datatype Refusal = CompanyNotOwned | KeyMismatch | ActionNotSupported | ContextConflict | TraceConflict
                   | EffectsUncertain | RequestConflict(unresolved: bool)

  datatype ReceiptState = Pending | Doubtful | Recorded(response: Response)

  /** A row of the receipt ledger. The digest of a request is taken to be injective. */
  datatype Receipt = Receipt(request: Request, state: ReceiptState)

  type Receipts = map<Id, Receipt>

  // ---------------------------------------------------------------- the ledger

  datatype Acquired = Fresh | Known(response: Option<Response>) | Refused(reason: Refusal)

  /** Insert the intent unless the run has one; whoever inserts it may run the handler. */
  function Acquire(m: Receipts, q: Request): (Receipts, Acquired) {
    if q.run !in m then (m[q.run := Receipt(q, Pending)], Fresh)
    else if m[q.run].request != q then (m, Refused(RequestConflict(!m[q.run].state.Recorded?)))
    else if m[q.run].state.Recorded? then (m, Known(Some(m[q.run].state.response)))
    else (m, Known(None))
  }

  /** Record the answer; only a pending receipt of the same request takes one. */
  function Complete(m: Receipts, q: Request, r: Response): Option<Receipts> {
    if q.run in m && m[q.run] == Receipt(q, Pending) then Some(m[q.run := Receipt(q, Recorded(r))]) else None
  }

  function MarkDoubtful(m: Receipts, q: Request): Receipts {
    if q.run in m && m[q.run] == Receipt(q, Pending) then m[q.run := Receipt(q, Doubtful)] else m
  }

  // ---------------------------------------------------------------- one call

  datatype Config = Config(company: Id, actions: set<string>)

  /** The action a request asks for. */
  function ActionOf(q: Request): Field {
    if q.action == "wakeup" then q.inputAction else Text(q.action)
  }

  function Screen(c: Config, q: Request, key: Id): Option<Refusal> {
    var action := ActionOf(q);
    if q.company != c.company then Some(CompanyNotOwned)
    else if key != q.run then Some(KeyMismatch)
    else if !action.Text? || action.text !in c.actions then Some(ActionNotSupported)
    else if (q.inputAction != Absent && q.inputAction != action) || q.hasContext then Some(ContextConflict)
    else if q.inputTrace != Absent && q.inputTrace != (if q.trace.Some? then Text(q.trace.value) else Null) then Some(TraceConflict)
    else None
  }

  /** How the handler and the recording of its answer go. A receipt may be stored and the call
      still end in an exception; the uncertain mark may itself be lost. */
  datatype Attempt =
    | Answered(failed: bool, output: string, stored: bool, raised: bool, marked: bool)
    | Interrupted(marked: bool)

  function AnswerOf(q: Request, a: Attempt): Response
    requires a.Answered?
  {
    Response(a.failed, q.maxCost, a.output)
  }

  /** The receipts and the reply after the handler has been run for an acquired request. */
  function Settled(m: Receipts, q: Request, a: Attempt): (Receipts, Result<Response, Refusal>) {
    var written := if a.Answered? && a.stored then Complete(m, q, AnswerOf(q, a)) else None;
    if written.Some? && !a.raised then (written.value, Ok(AnswerOf(q, a)))
    else
      var m' := if written.Some? then written.value else m;
      (if a.marked then MarkDoubtful(m', q) else m', Err(EffectsUncertain))
  }

  /** The reply to a request that may not run the handler. */
  function Replay(known: Acquired): Result<Response, Refusal>
    requires !known.Fresh?
  {
    match known
    case Known(Some(response)) => Ok(response)
    case Known(None) => Err(EffectsUncertain)
    case Refused(reason) => Err(reason)
  }

  // What is let in, in the request's own fields.

  /** The action a request names, as text. */
  predicate NamesAction(q: Request, action: string) {
    if q.action == "wakeup" then q.inputAction == Text(action) else q.action == action
  }

  predicate Supported(c: Config, q: Request) {
    exists action | action in c.actions :: NamesAction(q, action)
  }

  /** The input repeats the action, if it has one, and has no context of its own. */
  predicate InputAgrees(q: Request) {
    (q.action == "wakeup" || q.inputAction == Absent || q.inputAction == Text(q.action)) && !q.hasContext
  }

  predicate TraceAgrees(q: Request) {
    match q.inputTrace
    case Absent => true
    case Null => q.trace.None?
    case Text(t) => q.trace == Some(t)
    case Other => false
  }

  /** This runtime's company, the run as key, an allowed action, and an input that contradicts none of it. */
  predicate Accepts(c: Config, q: Request, key: Id) {
    q.company == c.company && key == q.run && Supported(c, q) && InputAgrees(q) && TraceAgrees(q)
  }

  /** Exactly what is let in, and the first reason for what is not. */
  lemma ScreenIs(c: Config, q: Request, key: Id)
    ensures Screen(c, q, key).None? <==> Accepts(c, q, key)
    ensures Screen(c, q, key).Some? ==>
      Screen(c, q, key).value == (
        if q.company != c.company then CompanyNotOwned
        else if key != q.run then KeyMismatch
        else if !Supported(c, q) then ActionNotSupported
        else if !InputAgrees(q) then ContextConflict
        else TraceConflict)
  {
    var action := ActionOf(q);
    if action.Text? && action.text in c.actions {
      assert NamesAction(q, action.text);
    }
  }

  class Executor {
    const config: Config
    var receipts: Receipts
    /** Runs the handler was called for, oldest first. */
    var calls: seq<Id>

    constructor (c: Config)
      ensures config == c && receipts == map[] && calls == []
    {
      config, receipts, calls := c, map[], [];
    }

    /** A request that is not accepted, or whose run is known, calls nothing and writes nothing: it is
        refused for the first reason, or answered from the record. A new one is called exactly once and
        leaves a receipt: the answer if it was stored, and otherwise a doubtful or a pending one. */
    method Execute(q: Request, key: Id, a: Attempt) returns (reply: Result<Response, Refusal>)
      modifies this
      ensures !Accepts(config, q, key) || q.run in old(receipts) ==> receipts == old(receipts) && calls == old(calls)
      ensures q.company != config.company ==> reply == Err(CompanyNotOwned)
      ensures q.company == config.company && key != q.run ==> reply == Err(KeyMismatch)
      ensures q.company == config.company && key == q.run && !Supported(config, q) ==> reply == Err(ActionNotSupported)
      ensures q.company == config.company && key == q.run && Supported(config, q) && !InputAgrees(q) ==> reply == Err(ContextConflict)
      ensures q.company == config.company && key == q.run && Supported(config, q) && InputAgrees(q) && !TraceAgrees(q) ==>
        reply == Err(TraceConflict)
      ensures Accepts(config, q, key) && q.run in old(receipts) ==>
        var known := old(receipts)[q.run];
        reply == if known.request != q then Err(RequestConflict(!known.state.Recorded?))
                 else if known.state.Recorded? then Ok(known.state.response) else Err(EffectsUncertain)
      ensures Accepts(config, q, key) && q.run !in old(receipts) ==>
        var answer := if a.Answered? then Response(a.failed, q.maxCost, a.output) else Response(true, 0, "");
        && calls == old(calls) + [q.run]
        && receipts == old(receipts)[q.run := Receipt(q,
             if a.Answered? && a.stored then Recorded(answer) else if a.marked then Doubtful else Pending)]
        && reply == if a.Answered? && a.stored && !a.raised then Ok(answer) else Err(EffectsUncertain)
    {
      ScreenIs(config, q, key);
      var refused := Screen(config, q, key);
      if refused.Some? {
        return Err(refused.value);
      }
      var (claimed, acquired) := Acquire(receipts, q);
      receipts := claimed;
      if !acquired.Fresh? {
        return Replay(acquired);
      }
      calls := calls + [q.run];
      if a.Answered? && a.stored {
        var written := Complete(receipts, q, AnswerOf(q, a));
        receipts := written.value;
        if !a.raised {
          return Ok(AnswerOf(q, a));
        }
      }
      if a.marked {
        receipts := MarkDoubtful(receipts, q);
      }
      return Err(EffectsUncertain);
    }
  }

  // ---------------------------------------------------------------- many calls at once

  /** A worker that acquired a request; it calls the handler once and then concludes, unless it
      dies before either. */
  datatype Phase = Admitted | Calling | Done
  datatype Worker = Worker(request: Request, phase: Phase)

  datatype Runtime = Runtime(
    config: Config, receipts: Receipts, workers: seq<Worker>, calls: seq<Id>,
    replies: seq<(Request, Result<Response, Refusal>)>)

  datatype Activity =
    | Arrive(request: Request, key: Id)
    | Invoke(worker: nat)
    | Conclude(worker: nat, attempt: Attempt)

  predicate Acts(s: Runtime, ev: Activity, s': Runtime) {
    match ev
    case Arrive(q, key) =>
      var refused := Screen(s.config, q, key);
      var (m, acquired) := Acquire(s.receipts, q);
      if refused.Some? then s' == s.(replies := s.replies + [(q, Err(refused.value))])
      else if acquired.Fresh? then s' == s.(receipts := m, workers := s.workers + [Worker(q, Admitted)])
      else s' == s.(replies := s.replies + [(q, Replay(acquired))])
    case Invoke(w) =>
      && w < |s.workers| && s.workers[w].phase == Admitted
      && s' == s.(workers := s.workers[w := s.workers[w].(phase := Calling)], calls := s.calls + [s.workers[w].request.run])
    case Conclude(w, a) =>
      && w < |s.workers| && s.workers[w].phase == Calling
      && var q := s.workers[w].request;
         var (m, reply) := Settled(s.receipts, q, a);
         s' == s.(receipts := m, workers := s.workers[w := s.workers[w].(phase := Done)],
                  replies := s.replies + [(q, reply)])
  }

  predicate Boots(s: Runtime) {
    s.receipts == map[] && s.workers == [] && s.calls == [] && s.replies == []
  }

  predicate WorksFor(workers: seq<Worker>, run: Id, phase: Phase) {
    exists w | 0 <= w < |workers| :: workers[w].request.run == run && workers[w].phase == phase
  }

  /** One worker per run, each with its receipt. */
  predicate OneWorker(s: Runtime) {
    && (forall w | 0 <= w < |s.workers| ::
          s.workers[w].request.run in s.receipts && s.receipts[s.workers[w].request.run].request == s.workers[w].request)
    && (forall v, w | 0 <= v < w < |s.workers| :: s.workers[v].request.run != s.workers[w].request.run)
  }

  /** One call per run, made by the worker of that run. */
  predicate OneCall(s: Runtime) {
    && (forall i | 0 <= i < |s.calls| :: WorksFor(s.workers, s.calls[i], Calling) || WorksFor(s.workers, s.calls[i], Done))
    && (forall i, j | 0 <= i < j < |s.calls| :: s.calls[i] != s.calls[j])
  }

  /** A successful reply is the recorded one. */
  predicate HonestReplies(s: Runtime) {
    forall i | 0 <= i < |s.replies| && s.replies[i].1.Ok? ::
      s.replies[i].0.run in s.receipts
      && s.receipts[s.replies[i].0.run] == Receipt(s.replies[i].0, Recorded(s.replies[i].1.value))
  }

  predicate Sound(s: Runtime) {
    OneWorker(s) && OneCall(s) && HonestReplies(s)
  }

  /** Receipts are never lost and never leave a final state, and calls are only added. */
  predicate Durable(s: Runtime, s': Runtime) {
    && s.calls <= s'.calls
    && (forall run | run in s.receipts ::
          && run in s'.receipts && s'.receipts[run].request == s.receipts[run].request
          && (s.receipts[run].state != Pending ==> s'.receipts[run] == s.receipts[run]))
  }

  lemma ActKeepsWorkers(s: Runtime, ev: Activity, s': Runtime)
    requires OneWorker(s) && Acts(s, ev, s')
    ensures OneWorker(s')
  {
  }

  lemma SameWorker(before: seq<Worker>, after: seq<Worker>, run: Id, phase: Phase)
    requires WorksFor(before, run, phase) && |before| <= |after|
    requires forall w | 0 <= w < |before| :: after[w].request == before[w].request
    requires forall w | 0 <= w < |before| && before[w].phase != Admitted :: after[w].phase in {before[w].phase, Done}
    requires phase != Admitted
    ensures WorksFor(after, run, phase) || WorksFor(after, run, Done)
  {
    var w :| 0 <= w < |before| && before[w].request.run == run && before[w].phase == phase;
    assert after[w].request.run == run;
  }

  lemma ActKeepsCalls(s: Runtime, ev: Activity, s': Runtime)
    requires OneWorker(s) && OneCall(s) && Acts(s, ev, s')
    ensures OneCall(s')
  {
    forall i | 0 <= i < |s.calls|
      ensures WorksFor(s'.workers, s.calls[i], Calling) || WorksFor(s'.workers, s.calls[i], Done)
    {
      if WorksFor(s.workers, s.calls[i], Calling) {
        SameWorker(s.workers, s'.workers, s.calls[i], Calling);
      } else {
        SameWorker(s.workers, s'.workers, s.calls[i], Done);
      }
    }
    if ev.Invoke? {
      assert s'.workers[ev.worker].phase == Calling;
      forall i | 0 <= i < |s.calls| ensures s.calls[i] != s.workers[ev.worker].request.run {
        NotYetCalled(s, ev.worker, i);
      }
    }
  }

  lemma NotYetCalled(s: Runtime, w: nat, i: nat)
    requires OneWorker(s) && OneCall(s) && w < |s.workers| && s.workers[w].phase == Admitted && i < |s.calls|
    ensures s.calls[i] != s.workers[w].request.run
  {
    var v :| 0 <= v < |s.workers| && s.workers[v].request.run == s.calls[i] && s.workers[v].phase != Admitted;
    assert v != w;
  }

  lemma ActKeepsReplies(s: Runtime, ev: Activity, s': Runtime)
    requires OneWorker(s) && HonestReplies(s) && Acts(s, ev, s')
    ensures HonestReplies(s')
  {
    forall i | 0 <= i < |s.replies| && s.replies[i].1.Ok?
      ensures s.replies[i].0.run in s'.receipts && s'.receipts[s.replies[i].0.run] == s.receipts[s.replies[i].0.run]
    {
    }
  }

  lemma ActIsSound(s: Runtime, ev: Activity, s': Runtime)
    requires Sound(s) && Acts(s, ev, s')
    ensures Sound(s') && Durable(s, s')
  {
    ActKeepsWorkers(s, ev, s');
    ActKeepsCalls(s, ev, s');
    ActKeepsReplies(s, ev, s');
  }

  /** Over any interleaving of deliveries, workers and crashes: a run's handler is called at most
      once, and all successful replies for a run are the same. */
  lemma OncePerRun(states: seq<Runtime>, events: seq<Activity>, n: nat)
    requires IsRun(Boots, Acts, states, events) && n < |states|
    ensures Sound(states[n])
    ensures forall i, j | 0 <= i < |states[n].replies| && 0 <= j < |states[n].replies| ::
      var x, y := states[n].replies[i], states[n].replies[j];
      x.1.Ok? && y.1.Ok? && x.0.run == y.0.run ==> x == y
  {
    forall s, ev, s' | Sound(s) && Acts(s, ev, s') ensures Sound(s') {
      ActIsSound(s, ev, s');
    }
    Invariant(Boots, Acts, Sound, states, events, n);
  }

  /** Once a receipt is recorded or uncertain it stays so, whatever happens later. */
  lemma ReceiptsAreFinal(states: seq<Runtime>, events: seq<Activity>, m: nat, n: nat)
    requires IsRun(Boots, Acts, states, events) && m <= n < |states|
    ensures Durable(states[m], states[n])
  {
    forall s, ev, s' | Sound(s) && Acts(s, ev, s') ensures Sound(s') && Durable(s, s') {
      ActIsSound(s, ev, s');
    }
    Ordered(Boots, Acts, Sound, Durable, states, events, m, n);
  }

  /** What a repeated request gets, at any time after its run has a receipt: the recorded answer
      unchanged, or the uncertain refusal, and no worker that could call the handler again. */
  lemma RepeatNeverCalls(states: seq<Runtime>, events: seq<Activity>, m: nat, n: nat, q: Request, key: Id, s': Runtime)
    requires IsRun(Boots, Acts, states, events) && m <= n < |states|
    requires q.run in states[m].receipts && Acts(states[n], Arrive(q, key), s')
    ensures s'.workers == states[n].workers && s'.calls == states[n].calls && s'.receipts == states[n].receipts
    ensures Accepts(states[n].config, q, key) && states[m].receipts[q.run].request == q ==>
      var reply := s'.replies[|states[n].replies|].1;
      match states[m].receipts[q.run].state
      case Recorded(response) => reply == Ok(response)
      case Doubtful => reply == Err(EffectsUncertain)
      case Pending => reply.Ok? || reply == Err(EffectsUncertain)
  {
    ReceiptsAreFinal(states, events, m, n);
    ScreenIs(states[n].config, q, key);
  }

  // ---------------------------------------------------------------- only accepted requests are called

  /** Every worker's request was accepted for this runtime, and what is recorded costs what was allowed. */
  predicate Screened(s: Runtime) {
    && (forall w | 0 <= w < |s.workers| :: Accepts(s.config, s.workers[w].request, s.workers[w].request.run))
    && (forall run | run in s.receipts && s.receipts[run].state.Recorded? ::
          s.receipts[run].state.response.cost == s.receipts[run].request.maxCost)
  }

  lemma ActKeepsScreened(s: Runtime, ev: Activity, s': Runtime)
    requires Screened(s) && Acts(s, ev, s')
    ensures Screened(s') && s'.config == s.config
  {
    if ev.Arrive? {
      ScreenIs(s.config, ev.request, ev.key);
    }
  }

  /** The call was made for a request of this runtime's company with an allowed action. */
  predicate RightlyCalled(s: Runtime, run: Id) {
    exists w | 0 <= w < |s.workers| ::
      && s.workers[w].request.run == run && s.workers[w].request.company == s.config.company
      && Supported(s.config, s.workers[w].request)
  }

  lemma CallsAreRight(s: Runtime, c: nat)
    requires Screened(s) && OneCall(s) && c < |s.calls|
    ensures RightlyCalled(s, s.calls[c])
  {
    assert WorksFor(s.workers, s.calls[c], Calling) || WorksFor(s.workers, s.calls[c], Done);
    var w :| 0 <= w < |s.workers| && s.workers[w].request.run == s.calls[c];
    assert Accepts(s.config, s.workers[w].request, s.workers[w].request.run);
  }

  /** Over any interleaving: the handler is called only for requests of this runtime's company with an
      allowed action, and a recorded answer charges exactly the request's maximum. */
  lemma OnlyAcceptedCalls(states: seq<Runtime>, events: seq<Activity>, n: nat)
    requires IsRun(Boots, Acts, states, events) && n < |states|
    ensures Screened(states[n])
    ensures forall c | 0 <= c < |states[n].calls| :: RightlyCalled(states[n], states[n].calls[c])
  {
    forall s, ev, s' | Screened(s) && Acts(s, ev, s') ensures Screened(s') {
      ActKeepsScreened(s, ev, s');
    }
    Invariant(Boots, Acts, Screened, states, events, n);
    OncePerRun(states, events, n);
    forall c | 0 <= c < |states[n].calls| ensures RightlyCalled(states[n], states[n].calls[c]) {
      CallsAreRight(states[n], c);
    }
  }

  /** What a worker's conclusion leaves: the answer as the handler gave it, or a doubtful or pending receipt. */
  lemma ConclusionWrites(s: Runtime, w: nat, a: Attempt, s': Runtime)
    requires OneWorker(s) && Acts(s, Conclude(w, a), s') && s.receipts[s.workers[w].request.run].state == Pending
    ensures
      var q := s.workers[w].request;
      var answer := if a.Answered? then Response(a.failed, q.maxCost, a.output) else Response(true, 0, "");
      && s'.receipts == s.receipts[q.run := Receipt(q,
           if a.Answered? && a.stored then Recorded(answer) else if a.marked then Doubtful else Pending)]
      && s'.replies == s.replies + [(q, if a.Answered? && a.stored && !a.raised then Ok(answer) else Err(EffectsUncertain))]
  {
    var q := s.workers[w].request;
    assert s.receipts[q.run := Receipt(q, Pending)] == s.receipts;
  }
}
