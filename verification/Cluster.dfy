/** The composed system: clients inside CalculateProblem, the dispatcher, the broker, the workers
    with their threads, and the result store, as one state machine.

    Every lock-protected block, message receipt and store request is one atomic action. Channels
    are reliable and ordered; each is the full stream sent so far plus the receiver's position.
    crashed says that an exception nobody catches has ended one of the processes: a lookup of a missing
    entry, a read of a missing record, a second registration, a dangling reference. A run ends there.
 */
module Cluster {
  import opened Domain
  import opened Expression
  import opened Sharing
  import opened Decomposition
  import opened Dispatch
  import opened Broker
  import opened Worker

  /** How far a CalculateProblem call has come after pushing its problem: waiting for is_computed,
      past ClearProblem, holding the result, returned. */
  datatype Frame = Waiting(isComputed: bool) | Cleared | Fetched(v: Value) | Returned(v: Value)

  datatype Client = Client(ast: Expr, dec: Decompositor, frame: Frame)

  /** The problem id of a client is its position, PROBLEM_ID is the number of clients. sync holds
      the keys of problem_id_to_sync_data_, each a reference to that client's frame. */
  datatype Cluster = Cluster(
    problems: map<ProblemId, CalculationData>,
    sync: set<ProblemId>,
    clients: seq<Client>,
    sent: seq<Task>,
    taken: nat,
    seen: nat,
    broker: BrokerState,
    workers: seq<WorkerState>,
    store: Store,
    crashed: bool)

  function Boot(): Cluster {
    Cluster(map[], {}, [], [], 0, 0, Initial(), [], map[], false)
  }

  datatype Action =
    | Push(ast: Expr, order: seq<TaskId>)
    | Send(ks: seq<TaskKey>, tasks: seq<Task>)
    | Reply
    | Clear(p: ProblemId)
    | Fetch(p: ProblemId)
    | Finish(p: ProblemId)
    | Join(cores: nat)
    | FromWorker(w: WorkerId)
    | FromManager(choice: Option<WorkerId>)
    | ReadInbox(w: WorkerId)
    | Take(w: WorkerId, i: nat)
    | ReadOne(w: WorkerId, i: nat)
    | Compute(w: WorkerId, i: nat)
    | Respond(w: WorkerId, i: nat)
    | Output(w: WorkerId)

  /** A step of an already admitted problem, as opposed to the arrival of a problem or a worker. */
  predicate Internal(a: Action) {
    !a.Push? && !a.Join?
  }

  predicate HasThread(s: Cluster, w: WorkerId, i: nat) {
    w < |s.workers| && i < |s.workers[w].threads|
  }

  function NextOperand(t: Thread): Operand
    requires t.Reading? && |t.got| < |t.task.operands|
  {
    t.task.operands[|t.got|]
  }

  /** An action whose outcome the source leaves undefined (an unknown variable, an operation
      without a result) is not enabled. */
  ghost predicate Enabled(world: World, s: Cluster, a: Action) {
    !s.crashed &&
    match a
    case Push(ast, order) => NoConstants(ast) && OperandsFirst(DagOf(ast), order) && |s.clients| < UINT32
    case Send(ks, tasks) => IsPass(s.problems, ks) && AreRequests(s.problems, ks, tasks)
    case Reply => s.seen < |s.broker.replied|
    case Clear(p) => p < |s.clients| && s.clients[p].frame == Waiting(true)
    case Fetch(p) => p < |s.clients| && s.clients[p].frame.Cleared?
    case Finish(p) => p < |s.clients| && s.clients[p].frame.Fetched?
    case Join(_) => true
    case FromWorker(w) => w < |s.workers| && s.workers[w].outbox != []
    case FromManager(choice) => s.taken < |s.sent| && s.broker.free != map[] && ValidChoice(s.broker, choice)
    case ReadInbox(w) => w < |s.workers| && s.workers[w].cursor < |s.broker.published|
    case Take(w, i) => HasThread(s, w, i) && s.workers[w].threads[i].Idle? && s.workers[w].pending != []
    case ReadOne(w, i) =>
      && HasThread(s, w, i)
      && var t := s.workers[w].threads[i];
         && t.Reading? && |t.got| < |t.task.operands|
         && (NextOperand(t).StaticOperand? ==> NextOperand(t).id in world.vars)
    case Compute(w, i) =>
      && HasThread(s, w, i)
      && var t := s.workers[w].threads[i];
         t.Reading? && |t.got| == |t.task.operands| && world.apply(t.task.etype, t.got).Some?
    case Respond(w, i) => HasThread(s, w, i) && s.workers[w].threads[i].Reporting?
    case Output(w) => w < |s.workers| && s.workers[w].finished != []
  }

  function Crash(s: Cluster): Cluster {
    s.(crashed := true)
  }

  function WithFrame(s: Cluster, p: ProblemId, frame: Frame): Cluster
    requires p < |s.clients|
  {
    s.(clients := s.clients[p := s.clients[p].(frame := frame)])
  }

  function WithWorker(s: Cluster, w: WorkerId, worker: WorkerState): Cluster
    requires w < |s.workers|
  {
    s.(workers := s.workers[w := worker])
  }

  function NextReply(s: Cluster): Cluster
    requires s.seen < |s.broker.replied|
  {
    var p, t := s.broker.replied[s.seen].problem, s.broker.replied[s.seen].task;
    if p !in s.problems || t !in s.problems[p].status then Crash(s)
    else
      var s' := s.(seen := s.seen + 1, problems := s.problems[p := OnReply(s.problems[p], t)]);
      if !IsLast(s.problems[p], t) then s'
      else if p !in s.sync || p >= |s.clients| || !s.clients[p].frame.Waiting? then Crash(s)
      else WithFrame(s', p, Waiting(true))
  }

  function NextFromWorker(drain: Drain, s: Cluster, w: WorkerId): Cluster
    requires w < |s.workers| && s.workers[w].outbox != []
  {
    var worker := s.workers[w];
    var s' := WithWorker(s, w, worker.(outbox := worker.outbox[1..]));
    match worker.outbox[0]
    case CoreCount(n) => if w in s.broker.free then Crash(s) else s'.(broker := Registered(s.broker, w, n))
    case TaskDone(id, k) => if id !in s.broker.free then Crash(s) else s'.(broker := Replied(drain, s.broker, id, k))
  }

  function NextReadOne(world: World, s: Cluster, w: WorkerId, i: nat): Cluster
    requires HasThread(s, w, i) && s.workers[w].threads[i].Reading?
    requires |s.workers[w].threads[i].got| < |s.workers[w].threads[i].task.operands|
  {
    var v := ReadOperand(world, s.store, NextOperand(s.workers[w].threads[i]));
    if v.None? then Crash(s) else WithWorker(s, w, GotOperand(s.workers[w], i, v.value))
  }

  /** The thread reports in any case: a refused insert comes back as a status nobody looks at. */
  function NextCompute(world: World, s: Cluster, w: WorkerId, i: nat): Cluster
    requires HasThread(s, w, i) && s.workers[w].threads[i].Reading?
    requires world.apply(s.workers[w].threads[i].task.etype, s.workers[w].threads[i].got).Some?
  {
    var t := s.workers[w].threads[i];
    WithWorker(s, w, Stored(s.workers[w], i)).(
      store := Inserted(s.store, t.task.key, world.apply(t.task.etype, t.got).value))
  }

  ghost function Next(drain: Drain, world: World, s: Cluster, a: Action): Cluster
    requires Enabled(world, s, a)
  {
    match a
    case Push(ast, order) =>
      var d := Decompositor(DagOf(ast), order);
      s.(problems := s.problems[|s.clients| := Dispatch.Start(d)],
         sync := s.sync + {|s.clients|},
         clients := s.clients + [Client(ast, d, Waiting(false))])
    case Send(ks, tasks) => s.(problems := AfterSendAll(s.problems), sent := s.sent + tasks)
    case Reply => NextReply(s)
    case Clear(p) =>
      if p !in s.sync then Crash(s)
      else WithFrame(s, p, Cleared).(problems := s.problems - {p}, sync := s.sync - {p})
    case Fetch(p) =>
      var d := s.clients[p].dec;
      if d.tasks == [] || TaskKey(p, d.tasks[|d.tasks| - 1]) !in s.store then Crash(s)
      else WithFrame(s, p, Fetched(s.store[TaskKey(p, d.tasks[|d.tasks| - 1])]))
    case Finish(p) => WithFrame(s, p, Returned(s.clients[p].frame.v)).(store := WithoutProblem(s.store, p))
    case Join(cores) => s.(workers := s.workers + [Launch(cores, |s.broker.published|)])
    case FromWorker(w) => NextFromWorker(drain, s, w)
    case FromManager(choice) => s.(broker := Assign(s.broker, s.sent[s.taken], choice), taken := s.taken + 1)
    case ReadInbox(w) => WithWorker(s, w, Deliver(w, s.workers[w], s.broker.published[s.workers[w].cursor]))
    case Take(w, i) => WithWorker(s, w, TakeTask(s.workers[w], i))
    case ReadOne(w, i) => NextReadOne(world, s, w, i)
    case Compute(w, i) => NextCompute(world, s, w, i)
    case Respond(w, i) => WithWorker(s, w, Report(s.workers[w], i))
    case Output(w) => WithWorker(s, w, CheckOutput(w, s.workers[w]))
  }

  // ---------- what each kind of step leaves alone ----------

  predicate ByWorker(a: Action) {
    a.ReadInbox? || a.Take? || a.ReadOne? || a.Compute? || a.Respond? || a.Output?
  }

  predicate ByBroker(a: Action) {
    a.FromWorker? || a.FromManager?
  }

  predicate ByManager(a: Action) {
    a.Push? || a.Send? || a.Reply? || a.Clear? || a.Fetch? || a.Finish?
  }

  /** At most new workers, and the cores of none changed. */
  ghost predicate SameCores(before: seq<WorkerState>, after: seq<WorkerState>) {
    |before| <= |after| && forall w :: 0 <= w < |before| ==> after[w].cores == before[w].cores
  }

  ghost predicate SameClient(c: Client, c': Client) {
    c'.ast == c.ast && c'.dec == c.dec
  }

  /** At most new clients, and of the others only frames changed. */
  ghost predicate SameClients(before: seq<Client>, after: seq<Client>) {
    |before| <= |after| && forall p :: 0 <= p < |before| ==> SameClient(before[p], after[p])
  }

  lemma WorkerStepFrame(drain: Drain, world: World, s: Cluster, a: Action)
    requires Enabled(world, s, a) && ByWorker(a)
    ensures var s' := Next(drain, world, s, a);
            && s' == s.(workers := s'.workers, store := s'.store, crashed := s'.crashed)
            && |s'.workers| == |s.workers| && SameCores(s.workers, s'.workers)
  {
  }

  lemma BrokerStepFrame(drain: Drain, world: World, s: Cluster, a: Action)
    requires Enabled(world, s, a) && ByBroker(a)
    ensures var s' := Next(drain, world, s, a);
            && s' == s.(taken := s'.taken, broker := s'.broker, workers := s'.workers, crashed := s'.crashed)
            && |s'.workers| == |s.workers| && SameCores(s.workers, s'.workers)
  {
  }

  lemma FrameChange(s: Cluster, p: ProblemId, frame: Frame)
    requires p < |s.clients|
    ensures |WithFrame(s, p, frame).clients| == |s.clients| && SameClients(s.clients, WithFrame(s, p, frame).clients)
  {
  }

  lemma ReplyFrame(s: Cluster)
    requires s.seen < |s.broker.replied|
    ensures var s' := NextReply(s);
            && s' == s.(problems := s'.problems, seen := s'.seen, clients := s'.clients, crashed := s'.crashed)
            && |s'.clients| == |s.clients| && SameClients(s.clients, s'.clients)
  {
    var p := s.broker.replied[s.seen].problem;
    if p < |s.clients| {
      FrameChange(s, p, Waiting(true));
    }
  }

  lemma ManagerStepFrame(drain: Drain, world: World, s: Cluster, a: Action)
    requires Enabled(world, s, a) && ByManager(a)
    ensures var s' := Next(drain, world, s, a);
            && s'.taken == s.taken && s'.broker == s.broker && s'.workers == s.workers
            && SameClients(s.clients, s'.clients) && (!a.Push? ==> |s'.clients| == |s.clients|)
            && (!a.Send? ==> s'.sent == s.sent)
  {
    if a.Reply? {
      ReplyFrame(s);
    } else if a.Clear? {
      FrameChange(s, a.p, Cleared);
    } else if a.Fetch? {
      var tasks := s.clients[a.p].dec.tasks;
      if tasks != [] && TaskKey(a.p, tasks[|tasks| - 1]) in s.store {
        FrameChange(s, a.p, Fetched(s.store[TaskKey(a.p, tasks[|tasks| - 1])]));
      }
    } else if a.Finish? {
      FrameChange(s, a.p, Returned(s.clients[a.p].frame.v));
    }
  }

  lemma StepFrame(drain: Drain, world: World, s: Cluster, a: Action)
    requires Enabled(world, s, a)
    ensures var s' := Next(drain, world, s, a);
            && SameClients(s.clients, s'.clients) && (!a.Push? ==> |s'.clients| == |s.clients|)
            && SameCores(s.workers, s'.workers) && (!a.Join? ==> |s'.workers| == |s.workers|)
  {
    if ByWorker(a) {
      WorkerStepFrame(drain, world, s, a);
    } else if ByBroker(a) {
      BrokerStepFrame(drain, world, s, a);
    } else if ByManager(a) {
      ManagerStepFrame(drain, world, s, a);
    }
  }

  // ---------- runs ----------

  /** The state after continuing from s with enabled actions; None for any other sequence. */
  ghost function Continue(drain: Drain, world: World, s: Cluster, run: seq<Action>): Option<Cluster> {
    if run == [] then Some(s)
    else
      Step(drain, world, Continue(drain, world, s, run[..|run| - 1]), run[|run| - 1])
  }

  ghost function Step(drain: Drain, world: World, s: Option<Cluster>, a: Action): Option<Cluster> {
    if s.None? || !Enabled(world, s.value, a) then None else Some(Next(drain, world, s.value, a))
  }

  /** A run from the start. */
  ghost function Run(drain: Drain, world: World, run: seq<Action>): Option<Cluster> {
    Continue(drain, world, Boot(), run)
  }

  lemma ContinueLast(drain: Drain, world: World, s: Cluster, steps: seq<Action>, a: Action)
    ensures Continue(drain, world, s, steps + [a]) == Step(drain, world, Continue(drain, world, s, steps), a)
  {
    assert (steps + [a])[..|steps|] == steps;
  }

  lemma {:induction false} RunContinues(drain: Drain, world: World, run: seq<Action>, s: Cluster, steps: seq<Action>)
    requires Run(drain, world, run) == Some(s)
    ensures Run(drain, world, run + steps) == Continue(drain, world, s, steps)
  {
    if steps == [] {
      assert run + steps == run;
    } else {
      var front, last := steps[..|steps| - 1], steps[|steps| - 1];
      RunContinues(drain, world, run, s, front);
      assert run + steps == run + front + [last] && steps == front + [last];
      ContinueLast(drain, world, Boot(), run + front, last);
      ContinueLast(drain, world, s, front, last);
    }
  }

  lemma {:induction false} StepThenContinue(drain: Drain, world: World, s: Cluster, a: Action, steps: seq<Action>)
    requires Enabled(world, s, a)
    ensures Continue(drain, world, s, [a] + steps) == Continue(drain, world, Next(drain, world, s, a), steps)
  {
    if steps == [] {
      assert [a] + steps == [] + [a];
      ContinueLast(drain, world, s, [], a);
    } else {
      var front, last := steps[..|steps| - 1], steps[|steps| - 1];
      StepThenContinue(drain, world, s, a, front);
      assert [a] + steps == [a] + front + [last] && steps == front + [last];
      ContinueLast(drain, world, s, [a] + front, last);
      ContinueLast(drain, world, Next(drain, world, s, a), front, last);
    }
  }

  /** A run resumed after its step n. */
  lemma RunAfter(drain: Drain, world: World, run: seq<Action>, n: nat, s: Cluster)
    requires n < |run| && Run(drain, world, run[..n]) == Some(s) && Enabled(world, s, run[n])
    ensures Run(drain, world, run) == Continue(drain, world, Next(drain, world, s, run[n]), run[n + 1..])
  {
    assert run[..n] + run[n..] == run && [run[n]] + run[n + 1..] == run[n..];
    RunContinues(drain, world, run[..n], s, run[n..]);
    StepThenContinue(drain, world, s, run[n], run[n + 1..]);
  }
}
