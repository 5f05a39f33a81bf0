/** The capacity of each worker, in every run of either drain: free cores plus the tasks at the worker,
    from publication to the broker's receipt of the reply, are what the worker registered.
 */
module Capacity {
  import opened Domain
  import opened Expression
  import opened Dispatch
  import opened Broker
  import opened Worker
  import opened Cluster
  import opened Places

  /** Tasks at a worker, from publication to the broker's receipt of the reply. */
  function Load(published: seq<WorkerTask>, s: WorkerState, w: WorkerId): nat {
    |Mine(published, s.cursor, w)| + |s.pending| + Busy(s.threads) + |s.finished| + |DoneKeys(s.outbox)|
  }

  ghost predicate OnlyReplies(outbox: seq<WorkerMessage>, w: WorkerId) {
    forall i :: 0 <= i < |outbox| ==> outbox[i].TaskDone? && outbox[i].identity == w
  }

  /** Free cores plus load is the advertised capacity; before registration there is no load and
      only the registration waits to be received. */
  ghost predicate WorkerFits(free: map<WorkerId, nat>, published: seq<WorkerTask>, s: WorkerState, w: WorkerId) {
    && |s.threads| == s.cores
    && s.cursor <= |published|
    && (w in free ==> free[w] + Load(published, s, w) == AckCount(s.cores) && OnlyReplies(s.outbox, w))
    && (w !in free ==> Load(published, s, w) == 0 && s.outbox == [CoreCount(AckCount(s.cores))])
  }

  ghost predicate WorkersFit(b: BrokerState, workers: seq<WorkerState>) {
    && (forall w :: w in b.free ==> w < |workers|)
    && (forall w {:trigger WorkerFits(b.free, b.published, workers[w], w)} :: 0 <= w < |workers| ==> WorkerFits(b.free, b.published, workers[w], w))
  }

  /** A worker without cores advertises 2^32 - 1 of them. */
  lemma NoCoresAdvertisesAll()
    ensures AckCount(0) == UINT32 - 1
    ensures forall cores: nat :: 1 <= cores <= UINT32 ==> AckCount(cores) == cores - 1
    ensures forall cores: nat :: AckCount(cores) < UINT32 && (cores - 1 - AckCount(cores)) % UINT32 == 0
  {
  }

  // ---------- one worker ----------

  lemma DeliverFits(free: map<WorkerId, nat>, published: seq<WorkerTask>, s: WorkerState, w: WorkerId)
    requires WorkerFits(free, published, s, w) && s.cursor < |published|
    ensures WorkerFits(free, published, Deliver(w, s, published[s.cursor]), w)
  {
  }

  lemma TakeFits(free: map<WorkerId, nat>, published: seq<WorkerTask>, s: WorkerState, w: WorkerId, i: nat)
    requires WorkerFits(free, published, s, w) && i < |s.threads| && s.threads[i].Idle? && s.pending != []
    ensures WorkerFits(free, published, TakeTask(s, i), w)
  {
    BusyUpdate(s.threads, i, Reading(s.pending[0], []));
  }

  /** A thread that stays busy leaves the load as it is. */
  lemma BusyFits(free: map<WorkerId, nat>, published: seq<WorkerTask>, s: WorkerState, w: WorkerId, i: nat, t: Thread)
    requires WorkerFits(free, published, s, w) && i < |s.threads| && !s.threads[i].Idle? && !t.Idle?
    ensures WorkerFits(free, published, s.(threads := s.threads[i := t]), w)
  {
    BusyUpdate(s.threads, i, t);
  }

  lemma ReportFits(free: map<WorkerId, nat>, published: seq<WorkerTask>, s: WorkerState, w: WorkerId, i: nat)
    requires WorkerFits(free, published, s, w) && i < |s.threads| && s.threads[i].Reporting?
    ensures WorkerFits(free, published, Report(s, i), w)
  {
    BusyUpdate(s.threads, i, Idle);
  }

  lemma OutputFits(free: map<WorkerId, nat>, published: seq<WorkerTask>, s: WorkerState, w: WorkerId)
    requires WorkerFits(free, published, s, w) && s.finished != []
    ensures WorkerFits(free, published, CheckOutput(w, s), w)
  {
    DoneKeysGrow(s.outbox, TaskDone(w, s.finished[0]));
    assert Load(published, s, w) > 0;
  }

  lemma LaunchFits(free: map<WorkerId, nat>, published: seq<WorkerTask>, w: WorkerId, cores: nat)
    requires w !in free
    ensures WorkerFits(free, published, Launch(cores, |published|), w)
  {
    AllIdle(cores);
    var s := Launch(cores, |published|);
    assert s.threads == seq(cores, _ => Idle);
    assert s.outbox[1..] == [] && DoneKeys(s.outbox) == [];
  }

  // ---------- the broker ----------

  lemma RegistrationFits(free: map<WorkerId, nat>, published: seq<WorkerTask>, s: WorkerState, w: WorkerId)
    requires WorkerFits(free, published, s, w) && s.outbox != [] && s.outbox[0].CoreCount?
    ensures w !in free && WorkerFits(free[w := s.outbox[0].count], published, s.(outbox := s.outbox[1..]), w)
  {
    assert s.outbox[1..] == [];
  }

  lemma ReceiptFits(free: map<WorkerId, nat>, published: seq<WorkerTask>, s: WorkerState, w: WorkerId)
    requires WorkerFits(free, published, s, w) && s.outbox != [] && s.outbox[0].TaskDone?
    ensures w in free && s.outbox[0].identity == w && free[w] < AckCount(s.cores)
    ensures WorkerFits(free[w := Increment(free[w])], published, s.(outbox := s.outbox[1..]), w)
  {
    assert DoneKeys(s.outbox) == [s.outbox[0].key] + DoneKeys(s.outbox[1..]);
  }

  /** What a publication does to the worker it names and to any other. */
  lemma PublishFits(free: map<WorkerId, nat>, published: seq<WorkerTask>, s: WorkerState, v: WorkerId, m: WorkerTask)
    requires WorkerFits(free, published, s, v) && m.identity in free && free[m.identity] != 0
    ensures WorkerFits(free[m.identity := Decrement(free[m.identity])], published + [m], s, v)
  {
    MineGrows(published, s.cursor, v, m);
  }

  /** The counter of another worker changes. */
  lemma OtherFits(free: map<WorkerId, nat>, published: seq<WorkerTask>, s: WorkerState, v: WorkerId, w: WorkerId, n: nat)
    requires WorkerFits(free, published, s, v) && v != w
    ensures WorkerFits(free[w := n], published, s, v)
  {
  }

  lemma PublishKeepsFits(b: BrokerState, workers: seq<WorkerState>, w: WorkerId, t: Task)
    requires WorkersFit(b, workers) && w in b.free && b.free[w] != 0
    ensures WorkersFit(Publish(b, w, t), workers)
  {
    var b' := Publish(b, w, t);
    forall v | 0 <= v < |workers|
      ensures WorkerFits(b'.free, b'.published, workers[v], v)
    {
      assert WorkerFits(b.free, b.published, workers[v], v);
      PublishFits(b.free, b.published, workers[v], v, WorkerTask(w, t));
    }
  }

  lemma WorkerKeepsFits(b: BrokerState, workers: seq<WorkerState>, w: WorkerId, worker: WorkerState)
    requires WorkersFit(b, workers) && w < |workers| && WorkerFits(b.free, b.published, worker, w)
    ensures WorkersFit(b, workers[w := worker])
  {
    var workers' := workers[w := worker];
    forall v | 0 <= v < |workers'|
      ensures WorkerFits(b.free, b.published, workers'[v], v)
    {
      assert WorkerFits(b.free, b.published, workers[v], v);
    }
  }

  /** Worker w and its counter change. */
  lemma CounterKeepsFits(b: BrokerState, workers: seq<WorkerState>, w: WorkerId, worker: WorkerState, n: nat)
    requires WorkersFit(b, workers) && w < |workers| && WorkerFits(b.free[w := n], b.published, worker, w)
    ensures WorkersFit(Registered(b, w, n), workers[w := worker])
  {
    var workers' := workers[w := worker];
    forall v | 0 <= v < |workers'|
      ensures WorkerFits(b.free[w := n], b.published, workers'[v], v)
    {
      assert WorkerFits(b.free, b.published, workers[v], v);
      if v != w {
        OtherFits(b.free, b.published, workers[v], v, w, n);
      }
    }
  }

  lemma AssignKeepsFits(b: BrokerState, workers: seq<WorkerState>, t: Task, choice: Option<WorkerId>)
    requires WorkersFit(b, workers) && ValidChoice(b, choice)
    ensures WorkersFit(Assign(b, t, choice), workers)
  {
    if choice.Some? {
      PublishKeepsFits(b, workers, choice.value, t);
    } else {
      SameBrokerFits(b, Assign(b, t, choice), workers);
    }
  }

  /** The queue and the replies do not matter. */
  lemma SameBrokerFits(b: BrokerState, b': BrokerState, workers: seq<WorkerState>)
    requires WorkersFit(b, workers) && b'.free == b.free && b'.published == b.published
    ensures WorkersFit(b', workers)
  {
    forall w | 0 <= w < |workers|
      ensures WorkerFits(b'.free, b'.published, workers[w], w)
    {
      assert WorkerFits(b.free, b.published, workers[w], w);
    }
  }

  lemma FromWorkerKeepsFits(drain: Drain, s: Cluster, w: WorkerId)
    requires WorkersFit(s.broker, s.workers) && w < |s.workers| && s.workers[w].outbox != []
    ensures WorkersFit(NextFromWorker(drain, s, w).broker, NextFromWorker(drain, s, w).workers)
    ensures NextFromWorker(drain, s, w).crashed == s.crashed
  {
    var b, worker := s.broker, s.workers[w].(outbox := s.workers[w].outbox[1..]);
    assert WorkerFits(b.free, b.published, s.workers[w], w);
    match s.workers[w].outbox[0] {
      case CoreCount(n) =>
        RegistrationFits(b.free, b.published, s.workers[w], w);
        CounterKeepsFits(b, s.workers, w, worker, n);
      case TaskDone(_, k) =>
        ReceiptFits(b.free, b.published, s.workers[w], w);
        CounterKeepsFits(b, s.workers, w, worker, Increment(b.free[w]));
        RepliedKeepsFits(drain, b, s.workers[w := worker], w, k);
    }
  }

  lemma RepliedKeepsFits(drain: Drain, b: BrokerState, workers: seq<WorkerState>, w: WorkerId, k: TaskKey)
    requires w in b.free && b.free[w] < UINT32 && WorkersFit(Registered(b, w, Increment(b.free[w])), workers)
    ensures WorkersFit(Replied(drain, b, w, k), workers)
  {
    var b1 := Registered(b, w, Increment(b.free[w]));
    if b.queue != [] {
      var b2 := b1.(queue := b.queue[1..]);
      SameBrokerFits(b1, b2, workers);
      PublishKeepsFits(b2, workers, w, Taken(drain, b.queue));
      SameBrokerFits(FromQueue(drain, b1, w), Replied(drain, b, w, k), workers);
    } else {
      SameBrokerFits(b1, Replied(drain, b, w, k), workers);
    }
  }

  // ---------- every run ----------

  lemma WorkerStepKeepsFits(drain: Drain, world: World, s: Cluster, a: Action)
    requires WorkersFit(s.broker, s.workers) && Enabled(world, s, a) && (a.ReadInbox? || a.Take? || a.Respond? || a.Output?)
    ensures WorkersFit(Next(drain, world, s, a).broker, Next(drain, world, s, a).workers)
  {
    var b, worker := s.broker, s.workers[a.w];
    assert WorkerFits(b.free, b.published, worker, a.w);
    match a {
      case ReadInbox(w) =>
        DeliverFits(b.free, b.published, worker, w);
        WorkerKeepsFits(b, s.workers, w, Deliver(w, worker, b.published[worker.cursor]));
      case Take(w, i) =>
        TakeFits(b.free, b.published, worker, w, i);
        WorkerKeepsFits(b, s.workers, w, TakeTask(worker, i));
      case Respond(w, i) =>
        ReportFits(b.free, b.published, worker, w, i);
        WorkerKeepsFits(b, s.workers, w, Report(worker, i));
      case Output(w) =>
        OutputFits(b.free, b.published, worker, w);
        WorkerKeepsFits(b, s.workers, w, CheckOutput(w, worker));
    }
  }

  lemma ReadOneKeepsFits(world: World, s: Cluster, w: WorkerId, i: nat)
    requires WorkersFit(s.broker, s.workers) && Enabled(world, s, ReadOne(w, i))
    ensures WorkersFit(NextReadOne(world, s, w, i).broker, NextReadOne(world, s, w, i).workers)
  {
    var t := s.workers[w].threads[i];
    var v := ReadOperand(world, s.store, NextOperand(t));
    assert WorkerFits(s.broker.free, s.broker.published, s.workers[w], w);
    if v.Some? {
      BusyFits(s.broker.free, s.broker.published, s.workers[w], w, i, Reading(t.task, t.got + [v.value]));
      WorkerKeepsFits(s.broker, s.workers, w, GotOperand(s.workers[w], i, v.value));
    }
  }

  lemma ComputeKeepsFits(world: World, s: Cluster, w: WorkerId, i: nat)
    requires WorkersFit(s.broker, s.workers) && Enabled(world, s, Compute(w, i))
    ensures WorkersFit(NextCompute(world, s, w, i).broker, NextCompute(world, s, w, i).workers)
  {
    assert WorkerFits(s.broker.free, s.broker.published, s.workers[w], w);
    BusyFits(s.broker.free, s.broker.published, s.workers[w], w, i, Reporting(s.workers[w].threads[i].task));
    WorkerKeepsFits(s.broker, s.workers, w, Worker.Stored(s.workers[w], i));
  }

  lemma JoinKeepsFits(b: BrokerState, workers: seq<WorkerState>, cores: nat)
    requires WorkersFit(b, workers)
    ensures WorkersFit(b, workers + [Launch(cores, |b.published|)])
  {
    var workers' := workers + [Launch(cores, |b.published|)];
    LaunchFits(b.free, b.published, |workers|, cores);
    forall w | 0 <= w < |workers'|
      ensures WorkerFits(b.free, b.published, workers'[w], w)
    {
      if w < |workers| {
        assert WorkerFits(b.free, b.published, workers[w], w);
      }
    }
  }

  lemma StepKeepsFits(drain: Drain, world: World, s: Cluster, a: Action)
    requires WorkersFit(s.broker, s.workers) && Enabled(world, s, a)
    ensures WorkersFit(Next(drain, world, s, a).broker, Next(drain, world, s, a).workers)
  {
    if ByManager(a) {
      ManagerStepFrame(drain, world, s, a);
    } else if a.FromWorker? {
      FromWorkerKeepsFits(drain, s, a.w);
    } else if a.FromManager? {
      AssignKeepsFits(s.broker, s.workers, s.sent[s.taken], a.choice);
    } else if a.Join? {
      JoinKeepsFits(s.broker, s.workers, a.cores);
    } else if a.ReadOne? {
      ReadOneKeepsFits(world, s, a.w, a.i);
    } else if a.Compute? {
      ComputeKeepsFits(world, s, a.w, a.i);
    } else {
      WorkerStepKeepsFits(drain, world, s, a);
    }
  }

  lemma {:induction false} RunFits(drain: Drain, world: World, run: seq<Action>)
    requires Run(drain, world, run).Some?
    ensures WorkersFit(Run(drain, world, run).value.broker, Run(drain, world, run).value.workers)
  {
    if run != [] {
      var front, a := run[..|run| - 1], run[|run| - 1];
      RunFits(drain, world, front);
      StepKeepsFits(drain, world, Run(drain, world, front).value, a);
    }
  }

  // ---------- what it means ----------

  /** For every registered worker, free cores plus load is the capacity it registered, and the
      counter neither wraps below zero nor exceeds the capacity. */
  lemma CapacityIsConserved(drain: Drain, world: World, run: seq<Action>, s: Cluster, w: WorkerId)
    requires Run(drain, world, run) == Some(s) && w in s.broker.free
    ensures w < |s.workers|
    ensures s.broker.free[w] + Load(s.broker.published, s.workers[w], w) == AckCount(s.workers[w].cores)
  {
    RunFits(drain, world, run);
    assert WorkerFits(s.broker.free, s.broker.published, s.workers[w], w);
  }

  lemma LoadBound(free: map<WorkerId, nat>, published: seq<WorkerTask>, s: WorkerState, w: WorkerId)
    requires WorkerFits(free, published, s, w) && 1 <= s.cores <= UINT32
    ensures Load(published, s, w) <= s.cores - 1 && |s.threads| == s.cores
  {
    NoCoresAdvertisesAll();
  }

  /** A worker with at least one core is never given more tasks than one fewer than its threads, so one
      of its threads is idle for whatever is pending. */
  lemma PendingTaskHasIdleThread(drain: Drain, world: World, run: seq<Action>, s: Cluster, w: WorkerId) returns (i: nat)
    requires Run(drain, world, run) == Some(s) && w < |s.workers| && 1 <= s.workers[w].cores <= UINT32
    ensures |s.workers[w].pending| + Busy(s.workers[w].threads) <= s.workers[w].cores - 1
    ensures i < |s.workers[w].threads| && s.workers[w].threads[i].Idle?
  {
    RunFits(drain, world, run);
    assert WorkerFits(s.broker.free, s.broker.published, s.workers[w], w);
    LoadBound(s.broker.free, s.broker.published, s.workers[w], w);
    i := SomeIdle(s.workers[w].threads);
  }

  // ---------- what waits is served ----------

  /** While a task waits at the broker some registered worker has no free core: when it replies, the
      broker looks at the queue. */
  ghost predicate Served(b: BrokerState) {
    b.queue != [] ==> exists w :: IsFull(b, w)
  }

  predicate IsFull(b: BrokerState, w: WorkerId) {
    w in b.free && b.free[w] == 0
  }

  lemma AssignServes(b: BrokerState, t: Task, choice: Option<WorkerId>)
    requires Served(b) && ValidChoice(b, choice) && b.free != map[]
    ensures Served(Assign(b, t, choice))
  {
    if choice.None? {
      var w :| w in b.free;
      assert IsFull(Assign(b, t, choice), w);
    } else if w :| IsFull(b, w) {
      assert IsFull(Assign(b, t, choice), w);
    }
  }

  lemma RegisterServes(b: BrokerState, w: WorkerId, n: nat)
    requires Served(b) && w !in b.free
    ensures Served(Registered(b, w, n))
  {
    if v :| IsFull(b, v) {
      assert IsFull(Registered(b, w, n), v);
    }
  }

  lemma ReplyServes(drain: Drain, b: BrokerState, w: WorkerId, k: TaskKey)
    requires Served(b) && w in b.free && b.free[w] < UINT32
    ensures Served(Replied(drain, b, w, k))
  {
    if v :| IsFull(b, v) {
      assert b.queue != [] ==> IsFull(Replied(drain, b, w, k), v);
    }
  }

  lemma StepServes(drain: Drain, world: World, s: Cluster, a: Action)
    requires Served(s.broker) && WorkersFit(s.broker, s.workers) && Enabled(world, s, a)
    ensures Served(Next(drain, world, s, a).broker)
  {
    if a.FromManager? {
      AssignServes(s.broker, s.sent[s.taken], a.choice);
    } else if a.FromWorker? {
      FromWorkerServes(drain, s, a.w);
    } else if ByManager(a) {
      ManagerStepFrame(drain, world, s, a);
    } else if ByWorker(a) {
      WorkerStepFrame(drain, world, s, a);
    }
  }

  lemma FromWorkerServes(drain: Drain, s: Cluster, w: WorkerId)
    requires Served(s.broker) && WorkersFit(s.broker, s.workers) && w < |s.workers| && s.workers[w].outbox != []
    ensures Served(NextFromWorker(drain, s, w).broker)
  {
    assert WorkerFits(s.broker.free, s.broker.published, s.workers[w], w);
    match s.workers[w].outbox[0] {
      case CoreCount(n) => RegisterServes(s.broker, w, n);
      case TaskDone(id, k) => ReplyServes(drain, s.broker, id, k);
    }
  }

  /** In every run, whenever workers register, a task waits only while some registered worker has no
      free core. */
  lemma {:induction false} RunServes(drain: Drain, world: World, run: seq<Action>)
    requires Run(drain, world, run).Some?
    ensures Served(Run(drain, world, run).value.broker)
  {
    if run != [] {
      var front, a := run[..|run| - 1], run[|run| - 1];
      RunServes(drain, world, front);
      RunFits(drain, world, front);
      StepServes(drain, world, Run(drain, world, front).value, a);
    }
  }
}
