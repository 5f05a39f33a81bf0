/** Partial correctness of the code as written: whatever the drain does to the queue, and whatever is
    lost, doubled or crashes because of it, every record and every returned value is right.

    The invariant is about single messages and records only, so it needs no account of where each
    task is and holds in every run of either drain.
 */
module Soundness {
  import opened Domain
  import opened Expression
  import opened ValueNumbering
  import opened Sharing
  import opened Decomposition
  import opened Dispatch
  import opened Broker
  import opened Worker
  import opened Pipeline
  import opened Cluster
  import opened Desk

  /** Whatever the dispatcher may send next for a problem is an operation of its graph with its operands. */
  ghost predicate DataSound(c: CalculationData) {
    && c.names == VariableNames(c.dec.graph) && !HasConstant(c.dec.graph) && |c.dec.graph.edges| == |c.dec.graph.vertices|
    && c.names.Keys <= With(c.status, Completed)
    && forall t :: t in c.computable ==> IsOperation(c.dec.graph, t) && c.computable[t] == c.dec.graph.edges[t]
  }

  ghost predicate ProblemsSound(clients: seq<Client>, problems: map<ProblemId, CalculationData>) {
    forall p {:trigger problems[p]} :: p in problems ==> p < |clients| && problems[p].dec == clients[p].dec && DataSound(problems[p])
  }

  ghost predicate ClientSound(world: World, c: Client) {
    ClientPlanned(c) && Answers(world, c, c.frame)
  }

  ghost predicate ClientsSound(world: World, clients: seq<Client>) {
    forall p {:trigger ClientSound(world, clients[p])} :: 0 <= p < |clients| ==> ClientSound(world, clients[p])
  }

  /** A key that names an operation of its problem's graph. */
  ghost predicate Names(plans: seq<Graph>, k: TaskKey) {
    k.problem < |plans| && IsOperation(plans[k.problem], k.task)
  }

  ghost predicate AllName(plans: seq<Graph>, ks: seq<TaskKey>) {
    forall i :: 0 <= i < |ks| ==> Names(plans, ks[i])
  }

  ghost predicate OutboxNames(plans: seq<Graph>, outbox: seq<WorkerMessage>) {
    forall i :: 0 <= i < |outbox| && outbox[i].TaskDone? ==> Names(plans, outbox[i].key)
  }

  ghost predicate WorkerSound(world: World, plans: seq<Graph>, s: WorkerState) {
    WorkerRight(world, plans, s) && AllName(plans, s.finished) && OutboxNames(plans, s.outbox)
  }

  ghost predicate WorkersSound(world: World, plans: seq<Graph>, workers: seq<WorkerState>) {
    forall w {:trigger WorkerSound(world, plans, workers[w])} :: 0 <= w < |workers| ==> WorkerSound(world, plans, workers[w])
  }

  ghost predicate MessagesGenuine(plans: seq<Graph>, sent: seq<Task>, b: BrokerState) {
    AllGenuine(plans, sent) && AllGenuine(plans, b.queue) && AllGenuine(plans, Tasks(b.published))
  }

  ghost predicate StoreRight(world: World, plans: seq<Graph>, store: Store) {
    forall k :: k in store ==> ValueOf(world, plans, k) == Some(store[k])
  }

  ghost predicate Sound(world: World, s: Cluster) {
    && ClientsSound(world, s.clients)
    && ProblemsSound(s.clients, s.problems)
    && MessagesGenuine(Plans(s.clients), s.sent, s.broker)
    && WorkersSound(world, Plans(s.clients), s.workers)
    && AllName(Plans(s.clients), s.broker.replied)
    && StoreRight(world, Plans(s.clients), s.store)
  }

  // ---------- the dispatcher ----------

  lemma NotNamedIsOperation(g: Graph, t: TaskId)
    requires !HasConstant(g) && |g.edges| == |g.vertices| && t < |g.edges| && t !in VariableNames(g)
    ensures IsOperation(g, t)
  {
  }

  lemma ComputableSound(g: Graph, computed: set<TaskId>, excluded: set<TaskId>)
    requires !HasConstant(g) && |g.edges| == |g.vertices| && VariableNames(g).Keys <= computed
    ensures forall t :: t in Computable(g, computed, excluded) ==> IsOperation(g, t) && Computable(g, computed, excluded)[t] == g.edges[t]
  {
    forall t | t in Computable(g, computed, excluded)
      ensures IsOperation(g, t)
    {
      NotNamedIsOperation(g, t);
    }
  }

  lemma StartSound(d: Decompositor)
    requires !HasConstant(d.graph) && |d.graph.edges| == |d.graph.vertices|
    ensures DataSound(Start(d))
  {
    ComputableSound(d.graph, VariableNames(d.graph).Keys, {});
  }

  lemma SendSound(c: CalculationData)
    requires DataSound(c)
    ensures DataSound(AfterSend(c))
  {
    forall t | t in c.names
      ensures t in With(AfterSend(c).status, Completed)
    {
      assert t !in c.computable;
    }
  }

  lemma ReplySound(c: CalculationData, t: TaskId)
    requires DataSound(c) && t in c.status
    ensures DataSound(OnReply(c, t))
  {
    var status := c.status[t := Completed];
    assert With(c.status, Completed) <= With(status, Completed);
    ComputableSound(c.dec.graph, With(status, Completed), With(status, Processing));
  }

  lemma RequestSound(clients: seq<Client>, problems: map<ProblemId, CalculationData>, k: TaskKey)
    requires ProblemsSound(clients, problems) && InFrontier(problems, k)
    ensures Genuine(Plans(clients), RequestOf(problems, k))
  {
    assert DataSound(problems[k.problem]);
  }

  lemma RequestsSound(clients: seq<Client>, problems: map<ProblemId, CalculationData>, ks: seq<TaskKey>, tasks: seq<Task>)
    requires ProblemsSound(clients, problems) && AreRequests(problems, ks, tasks)
    ensures AllGenuine(Plans(clients), tasks)
  {
    forall i | 0 <= i < |tasks|
      ensures Genuine(Plans(clients), tasks[i])
    {
      RequestSound(clients, problems, ks[i]);
    }
  }

  // ---------- steps of the manager ----------

  lemma NewClientSound(world: World, ast: Expr, order: seq<TaskId>)
    requires NoConstants(ast) && OperandsFirst(DagOf(ast), order)
    ensures var d := Decompositor(DagOf(ast), order);
            ClientSound(world, Client(ast, d, Waiting(false))) && DataSound(Start(d))
  {
    AnyOrderIsPlanned(ast, order);
    StartSound(Decompositor(DagOf(ast), order));
  }

  lemma AdmitKeepsMessages(world: World, s: Cluster, g: Graph)
    requires Sound(world, s)
    ensures MessagesGenuine(Plans(s.clients) + [g], s.sent, s.broker)
    ensures WorkersSound(world, Plans(s.clients) + [g], s.workers)
    ensures StoreRight(world, Plans(s.clients) + [g], s.store)
  {
    var plans := Plans(s.clients);
    GenuineStill(plans, g, s.sent);
    GenuineStill(plans, g, s.broker.queue);
    GenuineStill(plans, g, Tasks(s.broker.published));
    WorkersStillRight(world, plans, g, s.workers);
  }

  lemma AdmitKeepsClients(world: World, s: Cluster, c: Client)
    requires Sound(world, s) && ClientSound(world, c) && DataSound(Start(c.dec))
    ensures ClientsSound(world, s.clients + [c])
    ensures ProblemsSound(s.clients + [c], s.problems[|s.clients| := Start(c.dec)])
  {
    forall p | 0 <= p < |s.clients|
      ensures ClientSound(world, (s.clients + [c])[p])
    {
      assert ClientSound(world, s.clients[p]);
    }
  }

  lemma AdmitKeepsSound(world: World, s: Cluster, c: Client)
    requires Sound(world, s) && ClientSound(world, c) && DataSound(Start(c.dec))
    ensures Sound(world, s.(problems := s.problems[|s.clients| := Start(c.dec)], sync := s.sync + {|s.clients|}, clients := s.clients + [c]))
  {
    AdmitKeepsMessages(world, s, c.dec.graph);
    AdmitKeepsClients(world, s, c);
    assert Plans(s.clients + [c]) == Plans(s.clients) + [c.dec.graph];
  }

  lemma WorkersStillRight(world: World, plans: seq<Graph>, g: Graph, workers: seq<WorkerState>)
    requires WorkersSound(world, plans, workers)
    ensures WorkersSound(world, plans + [g], workers)
  {
    forall w | 0 <= w < |workers|
      ensures WorkerSound(world, plans + [g], workers[w])
    {
      assert WorkerSound(world, plans, workers[w]);
      WorkerStillRight(world, plans, g, workers[w]);
    }
  }

  lemma SendKeepsSound(world: World, s: Cluster, ks: seq<TaskKey>, tasks: seq<Task>)
    requires Sound(world, s) && AreRequests(s.problems, ks, tasks)
    ensures Sound(world, s.(problems := AfterSendAll(s.problems), sent := s.sent + tasks))
  {
    RequestsSound(s.clients, s.problems, ks, tasks);
    forall p | p in s.problems
      ensures DataSound(AfterSend(s.problems[p]))
    {
      SendSound(s.problems[p]);
    }
  }

  lemma FrameKeepsSound(world: World, s: Cluster, p: ProblemId, frame: Frame)
    requires Sound(world, s) && p < |s.clients| && Answers(world, s.clients[p], frame)
    ensures Sound(world, WithFrame(s, p, frame))
  {
    PlansSame(s.clients, p, frame);
    assert ClientSound(world, s.clients[p]);
    var clients' := WithFrame(s, p, frame).clients;
    forall q | 0 <= q < |clients'|
      ensures ClientSound(world, clients'[q])
    {
      assert ClientSound(world, s.clients[q]);
    }
  }

  lemma ProblemKeepsSound(world: World, s: Cluster, p: ProblemId, t: TaskId, seen: nat)
    requires Sound(world, s) && p in s.problems && t in s.problems[p].status
    ensures Sound(world, s.(seen := seen, problems := s.problems[p := OnReply(s.problems[p], t)]))
  {
    ReplySound(s.problems[p], t);
  }

  lemma ReplyKeepsSound(world: World, s: Cluster)
    requires Sound(world, s) && s.seen < |s.broker.replied|
    ensures Sound(world, NextReply(s))
  {
    var p, t := s.broker.replied[s.seen].problem, s.broker.replied[s.seen].task;
    if p in s.problems && t in s.problems[p].status {
      ProblemKeepsSound(world, s, p, t, s.seen + 1);
      RootFlagKeepsSound(world, s.(seen := s.seen + 1, problems := s.problems[p := OnReply(s.problems[p], t)]), p);
    }
  }

  lemma RootFlagKeepsSound(world: World, s: Cluster, p: ProblemId)
    requires Sound(world, s)
    ensures p < |s.clients| ==> Sound(world, WithFrame(s, p, Waiting(true)))
  {
    if p < |s.clients| {
      FrameKeepsSound(world, s, p, Waiting(true));
    }
  }

  lemma FetchKeepsSound(world: World, s: Cluster, p: ProblemId)
    requires Sound(world, s) && Enabled(world, s, Fetch(p))
    ensures Sound(world, Next(Fifo, world, s, Fetch(p)))
  {
    var c := s.clients[p];
    assert ClientSound(world, c);
    var k := TaskKey(p, Root(c.dec.graph));
    if k in s.store {
      assert ValueOf(world, Plans(s.clients), k) == EvalVertex(c.dec.graph, Root(c.dec.graph), world) == Eval(c.ast, world);
      FrameKeepsSound(world, s, p, Fetched(s.store[k]));
    }
  }

  lemma FinishKeepsSound(world: World, s: Cluster, p: ProblemId)
    requires Sound(world, s) && p < |s.clients| && s.clients[p].frame.Fetched?
    ensures Sound(world, WithFrame(s, p, Returned(s.clients[p].frame.v)).(store := WithoutProblem(s.store, p)))
  {
    assert ClientSound(world, s.clients[p]);
    FrameKeepsSound(world, s, p, Returned(s.clients[p].frame.v));
  }

  lemma ClearKeepsSound(world: World, s: Cluster, p: ProblemId)
    requires Sound(world, s) && p < |s.clients|
    ensures Sound(world, WithFrame(s, p, Cleared).(problems := s.problems - {p}, sync := s.sync - {p}))
  {
    FrameKeepsSound(world, s, p, Cleared);
  }

  // ---------- steps of the broker and the workers ----------

  lemma WorkerKeepsSound(world: World, s: Cluster, w: WorkerId, worker: WorkerState)
    requires Sound(world, s) && w < |s.workers| && WorkerSound(world, Plans(s.clients), worker)
    ensures Sound(world, WithWorker(s, w, worker))
  {
  }

  lemma PublishGenuine(plans: seq<Graph>, b: BrokerState, w: WorkerId, t: Task)
    requires AllGenuine(plans, Tasks(b.published)) && Genuine(plans, t) && w in b.free
    ensures AllGenuine(plans, Tasks(Publish(b, w, t).published))
  {
    TasksOneMore(b.published, w, t);
  }

  lemma AssignGenuine(plans: seq<Graph>, sent: seq<Task>, b: BrokerState, t: Task, choice: Option<WorkerId>)
    requires MessagesGenuine(plans, sent, b) && Genuine(plans, t) && ValidChoice(b, choice)
    ensures MessagesGenuine(plans, sent, Assign(b, t, choice))
  {
    if choice.Some? {
      PublishGenuine(plans, b, choice.value, t);
    }
  }

  /** Whichever task a drain takes is a genuine one. */
  lemma RepliedGenuine(drain: Drain, plans: seq<Graph>, sent: seq<Task>, b: BrokerState, w: WorkerId, k: TaskKey)
    requires MessagesGenuine(plans, sent, b) && w in b.free
    ensures MessagesGenuine(plans, sent, Replied(drain, b, w, k))
  {
    if b.queue != [] {
      var b1 := b.(free := b.free[w := Increment(b.free[w])]);
      assert Genuine(plans, Taken(drain, b.queue));
      PublishGenuine(plans, b1.(queue := b.queue[1..]), w, Taken(drain, b.queue));
    }
  }

  lemma BrokerKeepsSound(world: World, s: Cluster, broker: BrokerState)
    requires Sound(world, s) && MessagesGenuine(Plans(s.clients), s.sent, broker) && AllName(Plans(s.clients), broker.replied)
    ensures Sound(world, s.(broker := broker))
  {
  }

  lemma FromWorkerKeepsSound(drain: Drain, world: World, s: Cluster, w: WorkerId)
    requires Sound(world, s) && w < |s.workers| && s.workers[w].outbox != []
    ensures Sound(world, NextFromWorker(drain, s, w))
  {
    var worker := s.workers[w].(outbox := s.workers[w].outbox[1..]);
    assert WorkerSound(world, Plans(s.clients), s.workers[w]);
    WorkerKeepsSound(world, s, w, worker);
    match s.workers[w].outbox[0] {
      case CoreCount(n) =>
        if w !in s.broker.free {
          BrokerKeepsSound(world, WithWorker(s, w, worker), Registered(s.broker, w, n));
        }
      case TaskDone(id, k) =>
        if id in s.broker.free {
          RepliedGenuine(drain, Plans(s.clients), s.sent, s.broker, id, k);
          BrokerKeepsSound(world, WithWorker(s, w, worker), Replied(drain, s.broker, id, k));
        }
    }
  }

  lemma ReadRequestRight(world: World, s: Cluster, w: WorkerId)
    requires Sound(world, s) && w < |s.workers| && s.workers[w].cursor < |s.broker.published|
    ensures WorkerSound(world, Plans(s.clients), Deliver(w, s.workers[w], s.broker.published[s.workers[w].cursor]))
  {
    assert WorkerSound(world, Plans(s.clients), s.workers[w]);
    assert Genuine(Plans(s.clients), Tasks(s.broker.published)[s.workers[w].cursor]);
  }

  lemma TakeRight(world: World, plans: seq<Graph>, s: WorkerState, i: nat)
    requires WorkerSound(world, plans, s) && i < |s.threads| && s.pending != []
    ensures WorkerSound(world, plans, TakeTask(s, i))
  {
    ThreadChanges(world, plans, s, i, Reading(s.pending[0], []), s.pending[1..]);
  }

  lemma OperandRight(world: World, plans: seq<Graph>, store: Store, o: Operand)
    requires StoreRight(world, plans, store) && ReadOperand(world, store, o).Some?
    ensures OperandMeans(world, plans, o, ReadOperand(world, store, o).value)
  {
  }

  lemma ReadOneKeepsSound(world: World, s: Cluster, w: WorkerId, i: nat)
    requires Sound(world, s) && Enabled(world, s, ReadOne(w, i))
    ensures Sound(world, NextReadOne(world, s, w, i))
  {
    var t, plans := s.workers[w].threads[i], Plans(s.clients);
    var v := ReadOperand(world, s.store, NextOperand(t));
    if v.Some? {
      assert WorkerSound(world, plans, s.workers[w]);
      assert ThreadRight(world, plans, t);
      OperandRight(world, plans, s.store, NextOperand(t));
      ThreadChanges(world, plans, s.workers[w], i, Reading(t.task, t.got + [v.value]), s.workers[w].pending);
      WorkerKeepsSound(world, s, w, GotOperand(s.workers[w], i, v.value));
    }
  }

  lemma ComputeRight(world: World, s: Cluster, w: WorkerId, i: nat)
    requires Sound(world, s) && Enabled(world, s, Compute(w, i))
    ensures var t := s.workers[w].threads[i];
            ValueOf(world, Plans(s.clients), t.task.key) == world.apply(t.task.etype, t.got)
  {
    var t, plans := s.workers[w].threads[i], Plans(s.clients);
    assert WorkerSound(world, plans, s.workers[w]);
    assert ThreadRight(world, plans, t);
    assert ClientSound(world, s.clients[t.task.key.problem]);
    ComputesValue(world, plans, t.task, t.got);
  }

  lemma ComputeKeepsSound(world: World, s: Cluster, w: WorkerId, i: nat)
    requires Sound(world, s) && Enabled(world, s, Compute(w, i))
    ensures Sound(world, NextCompute(world, s, w, i))
  {
    var t, plans := s.workers[w].threads[i], Plans(s.clients);
    assert WorkerSound(world, plans, s.workers[w]);
    assert ThreadRight(world, plans, t);
    ComputeRight(world, s, w, i);
    ThreadChanges(world, plans, s.workers[w], i, Reporting(t.task), s.workers[w].pending);
    WorkerKeepsSound(world, s, w, Worker.Stored(s.workers[w], i));
  }

  lemma RespondRight(world: World, plans: seq<Graph>, s: WorkerState, i: nat)
    requires WorkerSound(world, plans, s) && i < |s.threads| && s.threads[i].Reporting?
    ensures WorkerSound(world, plans, Report(s, i))
  {
    assert ThreadRight(world, plans, s.threads[i]);
    ThreadChanges(world, plans, s, i, Idle, s.pending);
  }

  lemma JoinKeepsSound(world: World, s: Cluster, cores: nat)
    requires Sound(world, s)
    ensures Sound(world, s.(workers := s.workers + [Launch(cores, |s.broker.published|)]))
  {
    var worker := Launch(cores, |s.broker.published|);
    assert WorkerSound(world, Plans(s.clients), worker);
  }

  lemma WorkerStepKeepsSound(drain: Drain, world: World, s: Cluster, a: Action)
    requires Sound(world, s) && Enabled(world, s, a)
    requires a.ReadInbox? || a.Take? || a.Respond? || a.Output?
    ensures Sound(world, Next(drain, world, s, a))
  {
    var plans, worker := Plans(s.clients), s.workers[a.w];
    assert WorkerSound(world, plans, worker);
    match a {
      case ReadInbox(w) =>
        ReadRequestRight(world, s, w);
        WorkerKeepsSound(world, s, w, Deliver(w, worker, s.broker.published[worker.cursor]));
      case Take(w, i) =>
        TakeRight(world, plans, worker, i);
        WorkerKeepsSound(world, s, w, TakeTask(worker, i));
      case Respond(w, i) =>
        RespondRight(world, plans, worker, i);
        WorkerKeepsSound(world, s, w, Report(worker, i));
      case Output(w) =>
        WorkerKeepsSound(world, s, w, CheckOutput(w, worker));
    }
  }

  // ---------- every run ----------

  lemma StepKeepsSound(drain: Drain, world: World, s: Cluster, a: Action)
    requires Sound(world, s) && Enabled(world, s, a)
    ensures Sound(world, Next(drain, world, s, a))
  {
    match a {
      case Push(ast, order) =>
        NewClientSound(world, ast, order);
        AdmitKeepsSound(world, s, Client(ast, Decompositor(DagOf(ast), order), Waiting(false)));
      case Send(ks, tasks) => SendKeepsSound(world, s, ks, tasks);
      case Reply => ReplyKeepsSound(world, s);
      case Clear(p) => ClearKeepsSound(world, s, p);
      case Fetch(p) => FetchKeepsSound(world, s, p);
      case Finish(p) => FinishKeepsSound(world, s, p);
      case Join(cores) => JoinKeepsSound(world, s, cores);
      case FromWorker(w) => FromWorkerKeepsSound(drain, world, s, w);
      case FromManager(choice) => AssignGenuine(Plans(s.clients), s.sent, s.broker, s.sent[s.taken], choice);
      case ReadOne(w, i) => ReadOneKeepsSound(world, s, w, i);
      case Compute(w, i) => ComputeKeepsSound(world, s, w, i);
      case _ => WorkerStepKeepsSound(drain, world, s, a);
    }
  }

  lemma {:induction false} RunIsSound(drain: Drain, world: World, run: seq<Action>)
    requires Run(drain, world, run).Some?
    ensures Sound(world, Run(drain, world, run).value)
  {
    if run != [] {
      var front, a := run[..|run| - 1], run[|run| - 1];
      RunIsSound(drain, world, front);
      StepKeepsSound(drain, world, Run(drain, world, front).value, a);
    }
  }
}
