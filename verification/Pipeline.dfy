/** What every step between the dispatcher's request and its receipt of the reply keeps: each
    task in one place, each request genuine, each operand read with the right value, and for each
    worker free cores plus load equal to the capacity it registered.
 */
module Pipeline {
  import opened Domain
  import opened Expression
  import opened ValueNumbering
  import opened Sharing
  import opened Decomposition
  import opened Dispatch
  import opened Broker
  import opened Worker
  import opened Places
  import opened Capacity

  // ---------- genuine requests ----------

  predicate IsOperation(g: Graph, t: TaskId) {
    t < |g.vertices| && t < |g.edges| && !IsVariable(g.vertices[t].etype)
  }

  /** The request for task t of problem p, from the graph alone. */
  function RequestFor(p: ProblemId, g: Graph, t: TaskId): Task
    requires IsOperation(g, t)
  {
    Task(TaskKey(p, t), g.vertices[t].etype, FormOperands(p, VariableNames(g), g.edges[t]))
  }

  predicate Genuine(plans: seq<Graph>, task: Task) {
    && task.key.problem < |plans|
    && IsOperation(plans[task.key.problem], task.key.task)
    && task == RequestFor(task.key.problem, plans[task.key.problem], task.key.task)
  }

  ghost predicate AllGenuine(plans: seq<Graph>, tasks: seq<Task>) {
    forall i :: 0 <= i < |tasks| ==> Genuine(plans, tasks[i])
  }

  /** The value of a task's subtree. */
  ghost function ValueOf(world: World, plans: seq<Graph>, k: TaskKey): Option<Value> {
    if k.problem < |plans| && WellNumbered(plans[k.problem]) && k.task < |plans[k.problem].vertices|
    then EvalVertex(plans[k.problem], k.task, world) else None
  }

  ghost predicate OperandMeans(world: World, plans: seq<Graph>, o: Operand, v: Value) {
    match o
    case StaticOperand(id) => id in world.vars && world.vars[id] == v
    case DynOperand(k) => ValueOf(world, plans, k) == Some(v)
  }

  /** The operands read so far have the values of their subtrees. */
  ghost predicate GotRight(world: World, plans: seq<Graph>, task: Task, got: seq<Value>) {
    && |got| <= |task.operands|
    && forall j :: 0 <= j < |got| ==> OperandMeans(world, plans, task.operands[j], got[j])
  }

  ghost predicate ThreadRight(world: World, plans: seq<Graph>, t: Thread) {
    && (!t.Idle? ==> Genuine(plans, t.task))
    && (t.Reading? ==> GotRight(world, plans, t.task, t.got))
  }

  ghost predicate WorkerRight(world: World, plans: seq<Graph>, s: WorkerState) {
    && AllGenuine(plans, s.pending)
    && forall i {:trigger ThreadRight(world, plans, s.threads[i])} :: 0 <= i < |s.threads| ==> ThreadRight(world, plans, s.threads[i])
  }

  // ---------- the invariant of the pipeline ----------

  /** Everything between the dispatcher's requests and its receipt of the replies. */
  datatype Pipe = Pipe(sent: seq<Task>, taken: nat, seen: nat, broker: BrokerState, workers: seq<WorkerState>)

  ghost predicate WorkerGood(world: World, plans: seq<Graph>, broker: BrokerState, s: WorkerState, where: Where, w: WorkerId) {
    && WorkerHolds(broker.published, s, where, w)
    && WorkerRight(world, plans, s)
    && WorkerFits(broker.free, broker.published, s, w)
  }

  ghost predicate WorkersGood(world: World, plans: seq<Graph>, broker: BrokerState, workers: seq<WorkerState>, where: Where) {
    forall w {:trigger WorkerGood(world, plans, broker, workers[w], where, w)} ::
      0 <= w < |workers| ==> WorkerGood(world, plans, broker, workers[w], where, w)
  }

  /** Outside the workers every task is where it is recorded to be, and is genuine. */
  ghost predicate Outside(plans: seq<Graph>, x: Pipe, where: Where) {
    && x.taken <= |x.sent| && x.seen <= |x.broker.replied|
    && Holds(Keys(x.sent[x.taken..]), where, OnWire)
    && Holds(Keys(x.broker.queue), where, Queued)
    && Holds(x.broker.replied[x.seen..], where, Answered)
    && AllGenuine(plans, x.sent)
    && AllGenuine(plans, x.broker.queue)
    && AllGenuine(plans, Tasks(x.broker.published))
    && (forall w :: w in x.broker.free ==> w < |x.workers|)
  }

  ghost predicate PipeGood(world: World, plans: seq<Graph>, x: Pipe, where: Where) {
    && Outside(plans, x, where)
    && WorkersGood(world, plans, x.broker, x.workers, where)
    && AllExist(x.workers, where)
  }

  /** A step of the pipeline neither starts nor ends a task, and does not touch the store. */
  ghost predicate SameTasks(where: Where, where': Where) {
    where'.Keys == where.Keys && Past(where') == Past(where)
  }

  lemma MoveKeepsTasks(where: Where, k: TaskKey, to: Place)
    requires k in where && IsPast(where[k]) == IsPast(to)
    ensures SameTasks(where, where[k := to])
  {
  }

  // ---------- steps inside one worker ----------

  function WithWorkerAt(x: Pipe, w: WorkerId, worker: WorkerState): Pipe
    requires w < |x.workers|
  {
    x.(workers := x.workers[w := worker])
  }

  lemma OutsideUntouched(plans: seq<Graph>, x: Pipe, where: Where, w: WorkerId, worker: WorkerState, k: TaskKey, to: Place)
    requires Outside(plans, x, where) && w < |x.workers|
    requires k in where && At(where[k]) >= 0 && At(to) >= 0
    ensures Outside(plans, WithWorkerAt(x, w, worker), where[k := to])
  {
    HoldsElsewhere(Keys(x.sent[x.taken..]), where, OnWire, k, to);
    HoldsElsewhere(Keys(x.broker.queue), where, Queued, k, to);
    HoldsElsewhere(x.broker.replied[x.seen..], where, Answered, k, to);
  }

  /** A worker that is not concerned. */
  lemma OtherWorkerGood(world: World, plans: seq<Graph>, broker: BrokerState, broker': BrokerState, s: WorkerState, where: Where, where': Where, v: WorkerId)
    requires WorkerGood(world, plans, broker, s, where, v) && SameAtWorker(where, where', v)
    requires broker'.published == broker.published && (v in broker'.free <==> v in broker.free)
    requires v in broker.free ==> broker'.free[v] == broker.free[v]
    ensures WorkerGood(world, plans, broker', s, where', v)
  {
    WorkerUntouched(broker.published, s, where, where', v);
  }

  lemma MovedElsewhere(where: Where, k: TaskKey, to: Place, w: WorkerId, v: WorkerId)
    requires v != w && (At(to) == -1 || At(to) == w) && (k in where ==> At(where[k]) == -1 || At(where[k]) == w)
    ensures SameAtWorker(where, where[k := to], v)
  {
  }

  lemma OthersStayGood(world: World, plans: seq<Graph>, broker: BrokerState, workers: seq<WorkerState>, where: Where, w: WorkerId, worker: WorkerState, k: TaskKey, to: Place)
    requires WorkersGood(world, plans, broker, workers, where) && w < |workers|
    requires At(to) == -1 || At(to) == w
    requires k in where ==> At(where[k]) == -1 || At(where[k]) == w
    requires WorkerGood(world, plans, broker, worker, where[k := to], w)
    ensures WorkersGood(world, plans, broker, workers[w := worker], where[k := to])
  {
    var workers' := workers[w := worker];
    forall v | 0 <= v < |workers|
      ensures WorkerGood(world, plans, broker, workers'[v], where[k := to], v)
    {
      if v != w {
        assert WorkerGood(world, plans, broker, workers[v], where, v);
        MovedElsewhere(where, k, to, w, v);
        OtherWorkerGood(world, plans, broker, broker, workers[v], where, where[k := to], v);
      }
    }
  }

  /** A task moves inside worker w. */
  lemma MoveInWorker(world: World, plans: seq<Graph>, x: Pipe, where: Where, w: WorkerId, worker: WorkerState, k: TaskKey, to: Place)
    requires PipeGood(world, plans, x, where) && w < |x.workers|
    requires k in where && At(where[k]) == w && At(to) == w && Exists(x.workers, to)
    requires |worker.threads| == |x.workers[w].threads|
    requires WorkerGood(world, plans, x.broker, worker, where[k := to], w)
    ensures PipeGood(world, plans, WithWorkerAt(x, w, worker), where[k := to])
  {
    OutsideUntouched(plans, x, where, w, worker, k, to);
    OthersStayGood(world, plans, x.broker, x.workers, where, w, worker, k, to);
  }

  /** Worker w changes and no task moves. */
  lemma StayInWorker(world: World, plans: seq<Graph>, x: Pipe, where: Where, w: WorkerId, worker: WorkerState)
    requires PipeGood(world, plans, x, where) && w < |x.workers|
    requires |worker.threads| == |x.workers[w].threads|
    requires WorkerGood(world, plans, x.broker, worker, where, w)
    ensures PipeGood(world, plans, WithWorkerAt(x, w, worker), where)
  {
    var workers' := x.workers[w := worker];
    forall v | 0 <= v < |x.workers|
      ensures WorkerGood(world, plans, x.broker, workers'[v], where, v)
    {
      assert WorkerGood(world, plans, x.broker, x.workers[v], where, v);
    }
  }

  lemma ReadGood(world: World, plans: seq<Graph>, broker: BrokerState, s: WorkerState, where: Where, w: WorkerId)
    requires WorkerGood(world, plans, broker, s, where, w) && s.cursor < |broker.published|
    requires Genuine(plans, broker.published[s.cursor].task)
    ensures var m := broker.published[s.cursor];
            if m.identity == w then
              m.task.key in where && where[m.task.key] == Inbox(w)
              && WorkerGood(world, plans, broker, Deliver(w, s, m), where[m.task.key := Pending(w)], w)
            else WorkerGood(world, plans, broker, Deliver(w, s, m), where, w)
  {
    MoveRead(broker.published, s, where, w);
    DeliverFits(broker.free, broker.published, s, w);
  }

  lemma PublishedIsGenuine(plans: seq<Graph>, published: seq<WorkerTask>, i: nat)
    requires AllGenuine(plans, Tasks(published)) && i < |published|
    ensures Genuine(plans, published[i].task)
  {
    assert Genuine(plans, Tasks(published)[i]);
  }

  /** Worker w reads a request of its own. */
  lemma ReadOwnStep(world: World, plans: seq<Graph>, x: Pipe, where: Where, w: WorkerId, m: WorkerTask)
    requires PipeGood(world, plans, x, where) && w < |x.workers| && x.workers[w].cursor < |x.broker.published|
    requires m == x.broker.published[x.workers[w].cursor] && m.identity == w
    ensures PipeGood(world, plans, WithWorkerAt(x, w, Deliver(w, x.workers[w], m)), where[m.task.key := Pending(w)])
    ensures SameTasks(where, where[m.task.key := Pending(w)])
  {
    assert WorkerGood(world, plans, x.broker, x.workers[w], where, w);
    PublishedIsGenuine(plans, x.broker.published, x.workers[w].cursor);
    ReadGood(world, plans, x.broker, x.workers[w], where, w);
    MoveInWorker(world, plans, x, where, w, Deliver(w, x.workers[w], m), m.task.key, Pending(w));
    MoveKeepsTasks(where, m.task.key, Pending(w));
  }

  lemma ReadStep(world: World, plans: seq<Graph>, x: Pipe, where: Where, w: WorkerId) returns (where': Where)
    requires PipeGood(world, plans, x, where) && w < |x.workers| && x.workers[w].cursor < |x.broker.published|
    ensures PipeGood(world, plans, WithWorkerAt(x, w, Deliver(w, x.workers[w], x.broker.published[x.workers[w].cursor])), where')
    ensures SameTasks(where, where')
  {
    var m := x.broker.published[x.workers[w].cursor];
    if m.identity == w {
      where' := where[m.task.key := Pending(w)];
      ReadOwnStep(world, plans, x, where, w, m);
    } else {
      where' := where;
      assert WorkerGood(world, plans, x.broker, x.workers[w], where, w);
      PublishedIsGenuine(plans, x.broker.published, x.workers[w].cursor);
      ReadGood(world, plans, x.broker, x.workers[w], where, w);
      StayInWorker(world, plans, x, where, w, Deliver(w, x.workers[w], m));
    }
  }

  lemma TakeGood(world: World, plans: seq<Graph>, broker: BrokerState, s: WorkerState, where: Where, w: WorkerId, i: nat)
    requires WorkerGood(world, plans, broker, s, where, w) && i < |s.threads| && s.threads[i].Idle? && s.pending != []
    ensures var k := s.pending[0].key;
            && k in where && where[k] == Pending(w)
            && WorkerGood(world, plans, broker, TakeTask(s, i), where[k := OnThread(w, i)], w)
  {
    MoveTake(broker.published, s, where, w, i);
    TakeFits(broker.free, broker.published, s, w, i);
    ThreadChanges(world, plans, s, i, Reading(s.pending[0], []), s.pending[1..]);
  }

  lemma ThreadChanges(world: World, plans: seq<Graph>, s: WorkerState, i: nat, t: Thread, pending: seq<Task>)
    requires WorkerRight(world, plans, s) && i < |s.threads| && ThreadRight(world, plans, t) && AllGenuine(plans, pending)
    ensures WorkerRight(world, plans, s.(threads := s.threads[i := t], pending := pending))
  {
    var threads' := s.threads[i := t];
    forall j | 0 <= j < |threads'|
      ensures ThreadRight(world, plans, threads'[j])
    {
      assert ThreadRight(world, plans, s.threads[j]);
    }
  }

  lemma TakeStep(world: World, plans: seq<Graph>, x: Pipe, where: Where, w: WorkerId, i: nat) returns (where': Where)
    requires PipeGood(world, plans, x, where)
    requires w < |x.workers| && i < |x.workers[w].threads| && x.workers[w].threads[i].Idle? && x.workers[w].pending != []
    ensures PipeGood(world, plans, WithWorkerAt(x, w, TakeTask(x.workers[w], i)), where')
    ensures SameTasks(where, where')
  {
    var k := x.workers[w].pending[0].key;
    assert WorkerGood(world, plans, x.broker, x.workers[w], where, w);
    TakeGood(world, plans, x.broker, x.workers[w], where, w, i);
    where' := where[k := OnThread(w, i)];
    MoveInWorker(world, plans, x, where, w, TakeTask(x.workers[w], i), k, OnThread(w, i));
    MoveKeepsTasks(where, k, OnThread(w, i));
  }

  lemma GotGood(world: World, plans: seq<Graph>, broker: BrokerState, s: WorkerState, where: Where, w: WorkerId, i: nat, v: Value)
    requires WorkerGood(world, plans, broker, s, where, w) && i < |s.threads| && s.threads[i].Reading?
    requires |s.threads[i].got| < |s.threads[i].task.operands|
    requires OperandMeans(world, plans, s.threads[i].task.operands[|s.threads[i].got|], v)
    ensures WorkerGood(world, plans, broker, GotOperand(s, i, v), where, w)
  {
    MoveGot(broker.published, s, where, w, i, v);
    var t := Reading(s.threads[i].task, s.threads[i].got + [v]);
    BusyFits(broker.free, broker.published, s, w, i, t);
    assert ThreadRight(world, plans, s.threads[i]);
    GotThreadRight(world, plans, s.threads[i], v);
    ThreadChanges(world, plans, s, i, t, s.pending);
  }

  lemma GotThreadRight(world: World, plans: seq<Graph>, t: Thread, v: Value)
    requires ThreadRight(world, plans, t) && t.Reading? && |t.got| < |t.task.operands|
    requires OperandMeans(world, plans, t.task.operands[|t.got|], v)
    ensures ThreadRight(world, plans, Reading(t.task, t.got + [v]))
  {
  }

  lemma GotStep(world: World, plans: seq<Graph>, x: Pipe, where: Where, w: WorkerId, i: nat, v: Value)
    requires PipeGood(world, plans, x, where)
    requires w < |x.workers| && i < |x.workers[w].threads| && x.workers[w].threads[i].Reading?
    requires |x.workers[w].threads[i].got| < |x.workers[w].threads[i].task.operands|
    requires OperandMeans(world, plans, x.workers[w].threads[i].task.operands[|x.workers[w].threads[i].got|], v)
    ensures PipeGood(world, plans, WithWorkerAt(x, w, GotOperand(x.workers[w], i, v)), where)
  {
    assert WorkerGood(world, plans, x.broker, x.workers[w], where, w);
    GotGood(world, plans, x.broker, x.workers[w], where, w, i, v);
    StayInWorker(world, plans, x, where, w, GotOperand(x.workers[w], i, v));
  }

  lemma StoreGood(world: World, plans: seq<Graph>, broker: BrokerState, s: WorkerState, where: Where, w: WorkerId, i: nat)
    requires WorkerGood(world, plans, broker, s, where, w) && i < |s.threads| && s.threads[i].Reading?
    ensures var k := s.threads[i].task.key;
            && k in where && where[k] == OnThread(w, i)
            && WorkerGood(world, plans, broker, Worker.Stored(s, i), where[k := Places.Stored(w, i)], w)
  {
    MoveStore(broker.published, s, where, w, i);
    BusyFits(broker.free, broker.published, s, w, i, Reporting(s.threads[i].task));
    assert ThreadRight(world, plans, s.threads[i]);
    ThreadChanges(world, plans, s, i, Reporting(s.threads[i].task), s.pending);
  }

  /** Storing a result: the task's place moves past the store. */
  lemma StoreStep(world: World, plans: seq<Graph>, x: Pipe, where: Where, w: WorkerId, i: nat)
    requires PipeGood(world, plans, x, where)
    requires w < |x.workers| && i < |x.workers[w].threads| && x.workers[w].threads[i].Reading?
    ensures var k := x.workers[w].threads[i].task.key;
            && k in where && where[k] == OnThread(w, i)
            && PipeGood(world, plans, WithWorkerAt(x, w, Worker.Stored(x.workers[w], i)), where[k := Places.Stored(w, i)])
            && Past(where[k := Places.Stored(w, i)]) == Past(where) + {k}
  {
    var k := x.workers[w].threads[i].task.key;
    assert WorkerGood(world, plans, x.broker, x.workers[w], where, w);
    StoreGood(world, plans, x.broker, x.workers[w], where, w, i);
    MoveInWorker(world, plans, x, where, w, Worker.Stored(x.workers[w], i), k, Places.Stored(w, i));
  }

  lemma RespondGood(world: World, plans: seq<Graph>, broker: BrokerState, s: WorkerState, where: Where, w: WorkerId, i: nat)
    requires WorkerGood(world, plans, broker, s, where, w) && i < |s.threads| && s.threads[i].Reporting?
    ensures var k := s.threads[i].task.key;
            && k in where && where[k] == Places.Stored(w, i)
            && WorkerGood(world, plans, broker, Report(s, i), where[k := Finished(w)], w)
  {
    MoveReport(broker.published, s, where, w, i);
    ReportFits(broker.free, broker.published, s, w, i);
    ThreadChanges(world, plans, s, i, Idle, s.pending);
  }

  lemma RespondStep(world: World, plans: seq<Graph>, x: Pipe, where: Where, w: WorkerId, i: nat) returns (where': Where)
    requires PipeGood(world, plans, x, where)
    requires w < |x.workers| && i < |x.workers[w].threads| && x.workers[w].threads[i].Reporting?
    ensures PipeGood(world, plans, WithWorkerAt(x, w, Report(x.workers[w], i)), where')
    ensures SameTasks(where, where')
  {
    var k := x.workers[w].threads[i].task.key;
    assert WorkerGood(world, plans, x.broker, x.workers[w], where, w);
    RespondGood(world, plans, x.broker, x.workers[w], where, w, i);
    where' := where[k := Finished(w)];
    MoveInWorker(world, plans, x, where, w, Report(x.workers[w], i), k, Finished(w));
    MoveKeepsTasks(where, k, Finished(w));
  }

  lemma OutputGood(world: World, plans: seq<Graph>, broker: BrokerState, s: WorkerState, where: Where, w: WorkerId)
    requires WorkerGood(world, plans, broker, s, where, w) && s.finished != []
    ensures var k := s.finished[0];
            && k in where && where[k] == Finished(w)
            && WorkerGood(world, plans, broker, CheckOutput(w, s), where[k := Outbox(w)], w)
  {
    MoveOutput(broker.published, s, where, w);
    OutputFits(broker.free, broker.published, s, w);
  }

  lemma OutputStep(world: World, plans: seq<Graph>, x: Pipe, where: Where, w: WorkerId) returns (where': Where)
    requires PipeGood(world, plans, x, where) && w < |x.workers| && x.workers[w].finished != []
    ensures PipeGood(world, plans, WithWorkerAt(x, w, CheckOutput(w, x.workers[w])), where')
    ensures SameTasks(where, where')
  {
    var k := x.workers[w].finished[0];
    assert WorkerGood(world, plans, x.broker, x.workers[w], where, w);
    OutputGood(world, plans, x.broker, x.workers[w], where, w);
    where' := where[k := Outbox(w)];
    MoveInWorker(world, plans, x, where, w, CheckOutput(w, x.workers[w]), k, Outbox(w));
    MoveKeepsTasks(where, k, Outbox(w));
  }

  // ---------- steps of the broker ----------

  lemma NothingAt(where: Where, place: Place)
    requires forall k :: k in where ==> where[k] != place
    ensures Holds([], where, place)
  {
  }

  lemma LaunchGood(world: World, plans: seq<Graph>, broker: BrokerState, where: Where, cores: nat, w: WorkerId)
    requires w !in broker.free && forall k :: k in where ==> At(where[k]) != w
    ensures WorkerGood(world, plans, broker, Launch(cores, |broker.published|), where, w)
  {
    var s := Launch(cores, |broker.published|);
    LaunchFits(broker.free, broker.published, w, cores);
    assert s.threads == seq(cores, _ => Idle);
    assert Mine(broker.published, s.cursor, w) == [];
    assert s.outbox[1..] == [] && DoneKeys(s.outbox) == [];
    NothingAt(where, Inbox(w));
    NothingAt(where, Pending(w));
    NothingAt(where, Finished(w));
    NothingAt(where, Outbox(w));
    IdleHold(s.threads, where, w);
  }

  lemma IdleHold(threads: seq<Thread>, where: Where, w: WorkerId)
    requires (forall i :: 0 <= i < |threads| ==> threads[i].Idle?) && forall k :: k in where ==> At(where[k]) != w
    ensures ThreadsHold(threads, where, w)
  {
    forall i | 0 <= i < |threads|
      ensures ThreadHolds(threads[i], where, w, i)
    {
      NothingAt(where, OnThread(w, i));
      NothingAt(where, Places.Stored(w, i));
    }
  }

  /** A new worker subscribes with its registration in the outbox. */
  lemma JoinStep(world: World, plans: seq<Graph>, x: Pipe, where: Where, cores: nat)
    requires PipeGood(world, plans, x, where)
    ensures PipeGood(world, plans, x.(workers := x.workers + [Launch(cores, |x.broker.published|)]), where)
  {
    var w, s := |x.workers|, Launch(cores, |x.broker.published|);
    var workers' := x.workers + [s];
    LaunchGood(world, plans, x.broker, where, cores, w);
    forall v | 0 <= v < |workers'|
      ensures WorkerGood(world, plans, x.broker, workers'[v], where, v)
    {
      if v < w {
        assert WorkerGood(world, plans, x.broker, x.workers[v], where, v);
      }
    }
  }

  /** The broker receives a registration. */
  lemma RegisterStep(world: World, plans: seq<Graph>, x: Pipe, where: Where, w: WorkerId)
    requires PipeGood(world, plans, x, where) && w < |x.workers|
    requires x.workers[w].outbox != [] && x.workers[w].outbox[0].CoreCount?
    ensures w !in x.broker.free
    ensures var s := x.workers[w];
            PipeGood(world, plans, WithWorkerAt(x, w, s.(outbox := s.outbox[1..])).(broker := Registered(x.broker, w, s.outbox[0].count)), where)
  {
    var s := x.workers[w];
    var worker := s.(outbox := s.outbox[1..]);
    var broker := Registered(x.broker, w, s.outbox[0].count);
    assert WorkerGood(world, plans, x.broker, s, where, w);
    RegistrationFits(x.broker.free, x.broker.published, s, w);
    RegisteredIsGood(world, plans, x.broker, s, where, w);
    OthersStayRegistered(world, plans, x.broker, x.workers, where, w, s.outbox[0].count);
    CounterStep(world, plans, x, where, w, worker, broker);
  }

  lemma OthersStayRegistered(world: World, plans: seq<Graph>, broker: BrokerState, workers: seq<WorkerState>, where: Where, w: WorkerId, n: nat)
    requires WorkersGood(world, plans, broker, workers, where)
    ensures forall v :: 0 <= v < |workers| && v != w ==> WorkerGood(world, plans, Registered(broker, w, n), workers[v], where, v)
  {
    forall v | 0 <= v < |workers| && v != w
      ensures WorkerGood(world, plans, Registered(broker, w, n), workers[v], where, v)
    {
      assert WorkerGood(world, plans, broker, workers[v], where, v);
      OtherFits(broker.free, broker.published, workers[v], v, w, n);
    }
  }

  /** Worker w and its counter change, and no task moves. */
  lemma CounterStep(world: World, plans: seq<Graph>, x: Pipe, where: Where, w: WorkerId, worker: WorkerState, broker: BrokerState)
    requires PipeGood(world, plans, x, where) && w < |x.workers| && |worker.threads| == |x.workers[w].threads|
    requires broker == x.broker.(free := broker.free) && forall v :: v in broker.free ==> v < |x.workers|
    requires WorkerGood(world, plans, broker, worker, where, w)
    requires forall v :: 0 <= v < |x.workers| && v != w ==> WorkerGood(world, plans, broker, x.workers[v], where, v)
    ensures PipeGood(world, plans, WithWorkerAt(x, w, worker).(broker := broker), where)
  {
    var workers' := x.workers[w := worker];
    forall v | 0 <= v < |workers'|
      ensures WorkerGood(world, plans, broker, workers'[v], where, v)
    {
    }
  }

  lemma RegisteredIsGood(world: World, plans: seq<Graph>, broker: BrokerState, s: WorkerState, where: Where, w: WorkerId)
    requires WorkerGood(world, plans, broker, s, where, w) && s.outbox != [] && s.outbox[0].CoreCount?
    ensures w !in broker.free
    ensures WorkerGood(world, plans, Registered(broker, w, s.outbox[0].count), s.(outbox := s.outbox[1..]), where, w)
  {
    RegistrationFits(broker.free, broker.published, s, w);
  }

  lemma PublishGood(world: World, plans: seq<Graph>, broker: BrokerState, workers: seq<WorkerState>, where: Where, w: WorkerId, t: Task)
    requires WorkersGood(world, plans, broker, workers, where)
    requires w < |workers| && w in broker.free && broker.free[w] != 0
    requires t.key in where ==> At(where[t.key]) == -1
    ensures WorkersGood(world, plans, Publish(broker, w, t), workers, where[t.key := Inbox(w)])
  {
    var broker', where' := Publish(broker, w, t), where[t.key := Inbox(w)];
    forall v | 0 <= v < |workers|
      ensures WorkerGood(world, plans, broker', workers[v], where', v)
    {
      assert WorkerGood(world, plans, broker, workers[v], where, v);
      PublishFits(broker.free, broker.published, workers[v], v, WorkerTask(w, t));
      if v == w {
        PublicationArrives(broker.published, workers[v], where, v, WorkerTask(w, t));
      } else {
        PublicationPasses(broker.published, workers[v], where, v, WorkerTask(w, t));
      }
    }
  }

  /** A task outside all workers is published. */
  lemma AllExistPublished(workers: seq<WorkerState>, where: Where, k: TaskKey, w: WorkerId)
    requires AllExist(workers, where) && w < |workers|
    ensures AllExist(workers, where[k := Inbox(w)])
  {
  }

  lemma GenuinePublished(plans: seq<Graph>, published: seq<WorkerTask>, w: WorkerId, t: Task)
    requires AllGenuine(plans, Tasks(published)) && Genuine(plans, t)
    ensures AllGenuine(plans, Tasks(published + [WorkerTask(w, t)]))
  {
    TasksOneMore(published, w, t);
  }

  function Received(x: Pipe, choice: Option<WorkerId>): Pipe
    requires x.taken < |x.sent| && ValidChoice(x.broker, choice)
  {
    x.(broker := Assign(x.broker, x.sent[x.taken], choice), taken := x.taken + 1)
  }

  lemma WireHead(x: Pipe, where: Where)
    requires x.taken < |x.sent| && Holds(Keys(x.sent[x.taken..]), where, OnWire)
    ensures x.sent[x.taken].key in where && where[x.sent[x.taken].key] == OnWire
    ensures Keys(x.sent[x.taken + 1..]) == Keys(x.sent[x.taken..])[1..]
  {
    var wire := x.sent[x.taken..];
    assert Keys(wire)[0] in Keys(wire);
    assert wire[1..] == x.sent[x.taken + 1..];
    KeysPop(wire);
  }

  /** The broker receives a request and hands it to a free worker. */
  lemma AssignStep(world: World, plans: seq<Graph>, x: Pipe, where: Where, w: WorkerId) returns (where': Where)
    requires PipeGood(world, plans, x, where) && x.taken < |x.sent| && ValidChoice(x.broker, Some(w))
    ensures PipeGood(world, plans, Received(x, Some(w)), where') && SameTasks(where, where')
  {
    var t := x.sent[x.taken];
    WireHead(x, where);
    where' := where[t.key := Inbox(w)];
    HoldsPop(Keys(x.sent[x.taken..]), where, OnWire, Inbox(w));
    HoldsElsewhere(Keys(x.broker.queue), where, Queued, t.key, Inbox(w));
    HoldsElsewhere(x.broker.replied[x.seen..], where, Answered, t.key, Inbox(w));
    PublishGood(world, plans, x.broker, x.workers, where, w, t);
    AllExistPublished(x.workers, where, t.key, w);
    GenuinePublished(plans, x.broker.published, w, t);
    MoveKeepsTasks(where, t.key, Inbox(w));
  }

  lemma WorkersUntouched(world: World, plans: seq<Graph>, broker: BrokerState, broker': BrokerState, workers: seq<WorkerState>, where: Where, where': Where)
    requires WorkersGood(world, plans, broker, workers, where)
    requires broker'.published == broker.published && broker'.free == broker.free
    requires forall w: WorkerId :: w < |workers| ==> SameAtWorker(where, where', w)
    ensures WorkersGood(world, plans, broker', workers, where')
  {
    forall w | 0 <= w < |workers|
      ensures WorkerGood(world, plans, broker', workers[w], where', w)
    {
      assert WorkerGood(world, plans, broker, workers[w], where, w);
      OtherWorkerGood(world, plans, broker, broker', workers[w], where, where', w);
    }
  }

  /** The broker receives a request and queues it. */
  lemma QueueStep(world: World, plans: seq<Graph>, x: Pipe, where: Where) returns (where': Where)
    requires PipeGood(world, plans, x, where) && x.taken < |x.sent| && ValidChoice(x.broker, None)
    ensures PipeGood(world, plans, Received(x, None), where') && SameTasks(where, where')
  {
    var t := x.sent[x.taken];
    WireHead(x, where);
    where' := where[t.key := Queued];
    HoldsPop(Keys(x.sent[x.taken..]), where, OnWire, Queued);
    KeysPush(x.broker.queue, t);
    HoldsPush(Keys(x.broker.queue), where, Queued, t.key);
    HoldsElsewhere(x.broker.replied[x.seen..], where, Answered, t.key, Queued);
    WorkersUntouched(world, plans, x.broker, x.broker.(queue := x.broker.queue + [t]), x.workers, where, where');
    MoveKeepsTasks(where, t.key, Queued);
  }

  function Answer(x: Pipe, w: WorkerId): Pipe
    requires w < |x.workers| && w in x.broker.free && x.workers[w].outbox != [] && x.workers[w].outbox[0].TaskDone?
  {
    var s := x.workers[w];
    WithWorkerAt(x, w, s.(outbox := s.outbox[1..])).(
      broker := x.broker.(free := x.broker.free[w := Increment(x.broker.free[w])], replied := x.broker.replied + [s.outbox[0].key]))
  }

  lemma AnswerGood(world: World, plans: seq<Graph>, broker: BrokerState, s: WorkerState, where: Where, w: WorkerId)
    requires WorkerGood(world, plans, broker, s, where, w) && s.outbox != [] && s.outbox[0].TaskDone?
    ensures w in broker.free && s.outbox[0].identity == w && broker.free[w] < UINT32
    ensures var k := s.outbox[0].key;
            && k in where && where[k] == Outbox(w)
            && WorkerGood(world, plans, broker.(free := broker.free[w := Increment(broker.free[w])]), s.(outbox := s.outbox[1..]), where[k := Answered], w)
  {
    MoveReply(broker.published, s, where, w);
    ReceiptFits(broker.free, broker.published, s, w);
  }

  lemma OtherAfterAnswer(world: World, plans: seq<Graph>, x: Pipe, where: Where, w: WorkerId, v: WorkerId, k: TaskKey)
    requires w < |x.workers| && v < |x.workers| && v != w && w in x.broker.free
    requires x.workers[w].outbox != [] && x.workers[w].outbox[0].TaskDone?
    requires WorkerGood(world, plans, x.broker, x.workers[v], where, v) && k in where && where[k] == Outbox(w)
    ensures WorkerGood(world, plans, Answer(x, w).broker, x.workers[v], where[k := Answered], v)
  {
    OtherWorkerGood(world, plans, x.broker, Answer(x, w).broker, x.workers[v], where, where[k := Answered], v);
  }

  lemma AnswerWorkers(world: World, plans: seq<Graph>, x: Pipe, where: Where, w: WorkerId)
    requires WorkersGood(world, plans, x.broker, x.workers, where) && w < |x.workers|
    requires x.workers[w].outbox != [] && x.workers[w].outbox[0].TaskDone?
    ensures w in x.broker.free && x.workers[w].outbox[0].identity == w && x.broker.free[w] < UINT32
    ensures var k := x.workers[w].outbox[0].key;
            && k in where && where[k] == Outbox(w)
            && WorkersGood(world, plans, Answer(x, w).broker, Answer(x, w).workers, where[k := Answered])
  {
    var s := x.workers[w];
    var k := s.outbox[0].key;
    assert WorkerGood(world, plans, x.broker, s, where, w);
    AnswerGood(world, plans, x.broker, s, where, w);
    forall v | 0 <= v < |x.workers|
      ensures WorkerGood(world, plans, Answer(x, w).broker, Answer(x, w).workers[v], where[k := Answered], v)
    {
      if v != w {
        assert WorkerGood(world, plans, x.broker, x.workers[v], where, v);
        OtherAfterAnswer(world, plans, x, where, w, v, k);
      }
    }
  }

  lemma AnswerOutside(plans: seq<Graph>, x: Pipe, where: Where, w: WorkerId)
    requires Outside(plans, x, where) && w < |x.workers| && w in x.broker.free
    requires x.workers[w].outbox != [] && x.workers[w].outbox[0].TaskDone?
    requires x.workers[w].outbox[0].key in where && where[x.workers[w].outbox[0].key] == Outbox(w)
    ensures Outside(plans, Answer(x, w), where[x.workers[w].outbox[0].key := Answered])
  {
    var k := x.workers[w].outbox[0].key;
    HoldsElsewhere(Keys(x.sent[x.taken..]), where, OnWire, k, Answered);
    HoldsElsewhere(Keys(x.broker.queue), where, Queued, k, Answered);
    HoldsPush(x.broker.replied[x.seen..], where, Answered, k);
    assert Answer(x, w).broker.replied[x.seen..] == x.broker.replied[x.seen..] + [k];
  }

  /** The broker receives a reply and passes it on. */
  lemma AnswerStep(world: World, plans: seq<Graph>, x: Pipe, where: Where, w: WorkerId) returns (where': Where)
    requires PipeGood(world, plans, x, where) && w < |x.workers|
    requires x.workers[w].outbox != [] && x.workers[w].outbox[0].TaskDone?
    ensures w in x.broker.free && x.workers[w].outbox[0].identity == w
    ensures PipeGood(world, plans, Answer(x, w), where') && SameTasks(where, where')
    ensures Answer(x, w).broker.free[w] == x.broker.free[w] + 1
    ensures var k := x.workers[w].outbox[0].key; k in where && where[k] == Outbox(w)
  {
    var k := x.workers[w].outbox[0].key;
    AnswerWorkers(world, plans, x, where, w);
    AnswerOutside(plans, x, where, w);
    where' := where[k := Answered];
    MoveKeepsTasks(where, k, Answered);
  }

  function Drained(x: Pipe, w: WorkerId): Pipe
    requires x.broker.queue != [] && w in x.broker.free
  {
    x.(broker := FromQueue(Fifo, x.broker, w))
  }

  /** The oldest queued task goes to a worker with a free core. */
  lemma DrainStep(world: World, plans: seq<Graph>, x: Pipe, where: Where, w: WorkerId) returns (where': Where)
    requires PipeGood(world, plans, x, where) && w < |x.workers|
    requires x.broker.queue != [] && w in x.broker.free && x.broker.free[w] != 0
    ensures PipeGood(world, plans, Drained(x, w), where') && SameTasks(where, where')
  {
    var queue := x.broker.queue;
    var t := queue[0];
    assert Keys(queue)[0] in Keys(queue);
    KeysPop(queue);
    where' := where[t.key := Inbox(w)];
    HoldsPop(Keys(queue), where, Queued, Inbox(w));
    HoldsElsewhere(Keys(x.sent[x.taken..]), where, OnWire, t.key, Inbox(w));
    HoldsElsewhere(x.broker.replied[x.seen..], where, Answered, t.key, Inbox(w));
    var broker1 := x.broker.(queue := queue[1..]);
    WorkersUntouched(world, plans, x.broker, broker1, x.workers, where, where);
    PublishGood(world, plans, broker1, x.workers, where, w, t);
    AllExistPublished(x.workers, where, t.key, w);
    GenuinePublished(plans, x.broker.published, w, t);
    MoveKeepsTasks(where, t.key, Inbox(w));
  }

  /** The whole of ProcessWorkerTaskReply with a first-in first-out drain. */
  lemma ReplyStep(world: World, plans: seq<Graph>, x: Pipe, where: Where, w: WorkerId) returns (where': Where)
    requires PipeGood(world, plans, x, where) && w < |x.workers|
    requires x.workers[w].outbox != [] && x.workers[w].outbox[0].TaskDone?
    ensures w in x.broker.free && x.workers[w].outbox[0].identity == w
    ensures var s := x.workers[w];
            PipeGood(world, plans, WithWorkerAt(x, w, s.(outbox := s.outbox[1..])).(broker := Replied(Fifo, x.broker, w, s.outbox[0].key)), where')
    ensures SameTasks(where, where')
    ensures var k := x.workers[w].outbox[0].key; k in where && where[k] == Outbox(w)
  {
    where' := AnswerStep(world, plans, x, where, w);
    if x.broker.queue != [] {
      where' := DrainStep(world, plans, Answer(x, w), where', w);
    }
  }

  // ---------- steps of the dispatcher ----------

  lemma SendOutside(plans: seq<Graph>, x: Pipe, where: Where, tasks: seq<Task>)
    requires Outside(plans, x, where)
    requires Distinct(Keys(tasks)) && AllGenuine(plans, tasks) && forall k :: k in Keys(tasks) ==> k !in where
    ensures Outside(plans, x.(sent := x.sent + tasks), Added(where, Keys(tasks), OnWire))
  {
    var ks, x' := Keys(tasks), x.(sent := x.sent + tasks);
    HoldsAdded(Keys(x.sent[x.taken..]), where, OnWire, ks);
    assert Keys(x'.sent[x.taken..]) == Keys(x.sent[x.taken..]) + ks;
    HoldsAddedElsewhere(Keys(x.broker.queue), where, Queued, ks, OnWire);
    HoldsAddedElsewhere(x.broker.replied[x.seen..], where, Answered, ks, OnWire);
  }

  lemma AddedSameAtWorkers(where: Where, ks: seq<TaskKey>, w: WorkerId)
    requires forall k :: k in ks ==> k !in where
    ensures SameAtWorker(where, Added(where, ks, OnWire), w)
  {
  }

  lemma SendWorkers(world: World, plans: seq<Graph>, x: Pipe, where: Where, ks: seq<TaskKey>)
    requires PipeGood(world, plans, x, where) && forall k :: k in ks ==> k !in where
    ensures WorkersGood(world, plans, x.broker, x.workers, Added(where, ks, OnWire))
    ensures AllExist(x.workers, Added(where, ks, OnWire))
  {
    forall w: WorkerId | w < |x.workers|
      ensures SameAtWorker(where, Added(where, ks, OnWire), w)
    {
      AddedSameAtWorkers(where, ks, w);
    }
    WorkersUntouched(world, plans, x.broker, x.broker, x.workers, where, Added(where, ks, OnWire));
  }

  /** New requests are put on the wire. */
  lemma SendStep(world: World, plans: seq<Graph>, x: Pipe, where: Where, tasks: seq<Task>)
    requires PipeGood(world, plans, x, where)
    requires Distinct(Keys(tasks)) && AllGenuine(plans, tasks) && forall k :: k in Keys(tasks) ==> k !in where
    ensures PipeGood(world, plans, x.(sent := x.sent + tasks), Added(where, Keys(tasks), OnWire))
  {
    SendOutside(plans, x, where, tasks);
    SendWorkers(world, plans, x, where, Keys(tasks));
  }

  /** The dispatcher receives a reply. */
  lemma ReceiveStep(world: World, plans: seq<Graph>, x: Pipe, where: Where)
    requires PipeGood(world, plans, x, where) && x.seen < |x.broker.replied|
    ensures var k := x.broker.replied[x.seen];
            && k in where && where[k] == Answered
            && PipeGood(world, plans, x.(seen := x.seen + 1), where - {k})
  {
    var unseen := x.broker.replied[x.seen..];
    var k := unseen[0];
    assert k in unseen && unseen[1..] == x.broker.replied[x.seen + 1..];
    HoldsDropFirst(unseen, where, Answered);
    HoldsDropped(Keys(x.sent[x.taken..]), where, OnWire, k);
    HoldsDropped(Keys(x.broker.queue), where, Queued, k);
    WorkersUntouched(world, plans, x.broker, x.broker, x.workers, where, where - {k});
  }

  /** A new problem changes nothing for the tasks under way. */
  lemma GenuineStill(plans: seq<Graph>, g: Graph, tasks: seq<Task>)
    requires AllGenuine(plans, tasks)
    ensures AllGenuine(plans + [g], tasks)
  {
  }

  lemma ThreadStillRight(world: World, plans: seq<Graph>, g: Graph, t: Thread)
    requires ThreadRight(world, plans, t)
    ensures ThreadRight(world, plans + [g], t)
  {
    if t.Reading? {
      forall j | 0 <= j < |t.got|
        ensures OperandMeans(world, plans + [g], t.task.operands[j], t.got[j])
      {
        assert OperandMeans(world, plans, t.task.operands[j], t.got[j]);
      }
    }
  }

  lemma WorkerStillRight(world: World, plans: seq<Graph>, g: Graph, s: WorkerState)
    requires WorkerRight(world, plans, s)
    ensures WorkerRight(world, plans + [g], s)
  {
    GenuineStill(plans, g, s.pending);
    forall i | 0 <= i < |s.threads|
      ensures ThreadRight(world, plans + [g], s.threads[i])
    {
      assert ThreadRight(world, plans, s.threads[i]);
      ThreadStillRight(world, plans, g, s.threads[i]);
    }
  }

  lemma AdmitStep(world: World, plans: seq<Graph>, x: Pipe, where: Where, g: Graph)
    requires PipeGood(world, plans, x, where)
    ensures PipeGood(world, plans + [g], x, where)
  {
    GenuineStill(plans, g, x.sent);
    GenuineStill(plans, g, x.broker.queue);
    GenuineStill(plans, g, Tasks(x.broker.published));
    forall w | 0 <= w < |x.workers|
      ensures WorkerGood(world, plans + [g], x.broker, x.workers[w], where, w)
    {
      assert WorkerGood(world, plans, x.broker, x.workers[w], where, w);
      WorkerStillRight(world, plans, g, x.workers[w]);
    }
  }
}
