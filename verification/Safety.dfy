/** Safety of the composed system: the invariant of every run in which no drain loses a task.
 */
module Safety {
  import opened Domain
  import opened Expression
  import opened ValueNumbering
  import opened Sharing
  import opened Decomposition
  import opened Dispatch
  import opened Broker
  import opened Worker
  import opened Places
  import opened Pipeline
  import opened Cluster
  import opened Desk
  import opened Log

  ghost function PipeOf(s: Cluster): Pipe {
    Pipe(s.sent, s.taken, s.seen, s.broker, s.workers)
  }

  ghost function DeskOf(s: Cluster): Desk {
    Desk(s.problems, s.sync, s.clients, s.store)
  }

  ghost function ReceivedKeys(s: Cluster): seq<TaskKey>
    requires s.seen <= |s.broker.replied|
  {
    s.broker.replied[..s.seen]
  }

  /** The invariant: no crash, and for the given places of the tasks under way both sides of the
      system and the histories are in order. */
  ghost predicate Good(world: World, s: Cluster, where: Where) {
    && !s.crashed
    && PipeGood(world, Plans(s.clients), PipeOf(s), where)
    && DeskGood(world, DeskOf(s), where.Keys, Past(where))
    && LogGood(s.clients, s.problems, ReceivedKeys(s))
  }

  lemma BootGood(world: World)
    ensures Good(world, Boot(), map[])
  {
    assert Past(map[]) == {};
  }

  // ---------- one lemma per action ----------

  lemma PushKeeps(world: World, s: Cluster, where: Where, c: Client)
    requires Good(world, s, where) && ClientPlanned(c) && c.frame == Waiting(false)
    ensures var d := Pushed(DeskOf(s), c);
            Good(world, s.(problems := d.problems, sync := d.sync, clients := d.clients), where)
  {
    PushDesk(world, DeskOf(s), where.Keys, Past(where), c);
    assert Plans(s.clients + [c]) == Plans(s.clients) + [c.dec.graph];
    AdmitStep(world, Plans(s.clients), PipeOf(s), where, c.dec.graph);
    PushLog(DeskOf(s), c, ReceivedKeys(s));
  }

  lemma RequestsGenuine(world: World, d: Desk, live: set<TaskKey>, ks: seq<TaskKey>, tasks: seq<Task>)
    requires ClientsGood(world, d.clients, d.problems, live) && IsPass(d.problems, ks) && AreRequests(d.problems, ks, tasks)
    ensures AllGenuine(Plans(d.clients), tasks) && Keys(tasks) == ks
  {
    forall i | 0 <= i < |tasks|
      ensures Genuine(Plans(d.clients), tasks[i]) && tasks[i].key == ks[i]
    {
      var k := ks[i];
      assert InFrontier(d.problems, k) && tasks[i] == RequestOf(d.problems, k);
      assert ClientGood(world, d.clients[k.problem], k.problem, d.problems, live);
      FrontierIsNew(d.problems[k.problem], k.task);
    }
  }

  lemma SendPipe(world: World, plans: seq<Graph>, x: Pipe, where: Where, ks: seq<TaskKey>, tasks: seq<Task>)
    requires PipeGood(world, plans, x, where) && AllGenuine(plans, tasks) && Keys(tasks) == ks && Distinct(ks)
    requires forall k :: k in ks ==> k !in where
    ensures PipeGood(world, plans, x.(sent := x.sent + tasks), Added(where, ks, OnWire))
    ensures Keys(x.sent + tasks) == Keys(x.sent) + ks
  {
    SendStep(world, plans, x, where, tasks);
  }

  lemma SendManager(world: World, d: Desk, where: Where, ks: seq<TaskKey>, received: seq<TaskKey>)
    requires DeskGood(world, d, where.Keys, Past(where)) && LogGood(d.clients, d.problems, received) && IsPass(d.problems, ks)
    ensures forall k :: k in ks ==> k !in where
    ensures var d' := d.(problems := AfterSendAll(d.problems));
            && DeskGood(world, d', Added(where, ks, OnWire).Keys, Past(Added(where, ks, OnWire)))
            && LogGood(d'.clients, d'.problems, received)
  {
    SendDesk(world, d, where.Keys, Past(where), ks);
    SendLog(world, d, where.Keys, ks, received);
    AddedKeys(where, ks);
  }

  lemma SendKeeps(world: World, s: Cluster, where: Where, ks: seq<TaskKey>, tasks: seq<Task>) returns (where': Where)
    requires Good(world, s, where) && IsPass(s.problems, ks) && AreRequests(s.problems, ks, tasks)
    ensures Good(world, s.(problems := AfterSendAll(s.problems), sent := s.sent + tasks), where')
  {
    where' := Added(where, ks, OnWire);
    RequestsGenuine(world, DeskOf(s), where.Keys, ks, tasks);
    SendManager(world, DeskOf(s), where, ks, ReceivedKeys(s));
    SendPipe(world, Plans(s.clients), PipeOf(s), where, ks, tasks);
  }

  lemma AddedKeys(where: Where, ks: seq<TaskKey>)
    requires forall k :: k in ks ==> k !in where
    ensures Added(where, ks, OnWire).Keys == Joined(where.Keys, ks)
    ensures Past(Added(where, ks, OnWire)) == Past(where)
  {
  }

  lemma LiveIsOperation(world: World, s: Cluster, where: Where, k: TaskKey)
    requires Good(world, s, where) && k in where
    ensures k.problem < |s.clients| && IsOperation(s.clients[k.problem].dec.graph, k.task)
  {
    LiveTask(world, DeskOf(s), where.Keys, Past(where), k);
    var c := s.problems[k.problem];
    var v := c.dec.graph.vertices[k.task];
    assert IsVariable(v.etype) ==> k.task in c.names;
  }

  lemma ReceiveManager(world: World, d: Desk, where: Where, k: TaskKey, received: seq<TaskKey>)
    requires DeskGood(world, d, where.Keys, Past(where)) && LogGood(d.clients, d.problems, received)
    requires k in where && where[k] == Answered && k.problem < |d.clients| && IsOperation(d.clients[k.problem].dec.graph, k.task)
    ensures k.problem in d.problems && d.clients[k.problem].frame.Waiting?
    ensures k.task in d.problems[k.problem].status && k.problem in d.sync
    ensures var d' := AfterReceipt(d, k);
            && DeskGood(world, d', (where - {k}).Keys, Past(where - {k}))
            && LogGood(d'.clients, d'.problems, received + [k])
            && Plans(d'.clients) == Plans(d.clients)
  {
    ReceiveDesk(world, d, where.Keys, Past(where), k);
    ReceiveLog(world, d, where.Keys, k, received);
    DroppedKeys(where, k);
  }

  lemma NextReplyIs(s: Cluster)
    requires s.seen < |s.broker.replied|
    requires var k := s.broker.replied[s.seen];
             && k.problem in s.problems && k.task in s.problems[k.problem].status
             && k.problem in s.sync && k.problem < |s.clients| && s.clients[k.problem].frame.Waiting?
    ensures DeskOf(NextReply(s)) == AfterReceipt(DeskOf(s), s.broker.replied[s.seen])
    ensures PipeOf(NextReply(s)) == PipeOf(s).(seen := s.seen + 1)
    ensures NextReply(s).crashed == s.crashed
    ensures ReceivedKeys(NextReply(s)) == ReceivedKeys(s) + [s.broker.replied[s.seen]]
  {
    assert s.broker.replied[..s.seen + 1] == ReceivedKeys(s) + [s.broker.replied[s.seen]];
  }

  lemma ReceiveKeeps(world: World, s: Cluster, where: Where) returns (where': Where)
    requires Good(world, s, where) && s.seen < |s.broker.replied|
    ensures Good(world, NextReply(s), where')
  {
    var k := s.broker.replied[s.seen];
    ReceiveStep(world, Plans(s.clients), PipeOf(s), where);
    LiveIsOperation(world, s, where, k);
    ReceiveManager(world, DeskOf(s), where, k, ReceivedKeys(s));
    NextReplyIs(s);
    where' := where - {k};
  }

  lemma DroppedKeys(where: Where, k: TaskKey)
    ensures (where - {k}).Keys == where.Keys - {k}
    ensures Past(where - {k}) == Past(where) - {k}
  {
  }

  lemma ClearKeeps(world: World, s: Cluster, where: Where, p: ProblemId)
    requires Good(world, s, where) && p < |s.clients| && s.clients[p].frame == Waiting(true)
    ensures p in s.sync
    ensures Good(world, WithFrame(s, p, Cleared).(problems := s.problems - {p}, sync := s.sync - {p}), where)
  {
    ClearDesk(world, DeskOf(s), where.Keys, Past(where), p);
    ClearLog(world, DeskOf(s), where.Keys, p, ReceivedKeys(s));
    PlansSame(s.clients, p, Cleared);
  }

  lemma FetchKeeps(world: World, s: Cluster, where: Where, p: ProblemId)
    requires Good(world, s, where) && p < |s.clients| && s.clients[p].frame.Cleared?
    ensures var tasks := s.clients[p].dec.tasks;
            && tasks != [] && var k := TaskKey(p, tasks[|tasks| - 1]);
            && k in s.store && Good(world, WithFrame(s, p, Fetched(s.store[k])), where)
  {
    FetchDesk(world, DeskOf(s), where.Keys, Past(where), p);
    var tasks := s.clients[p].dec.tasks;
    var frame := Fetched(s.store[TaskKey(p, tasks[|tasks| - 1])]);
    FrameLog(DeskOf(s), p, frame, ReceivedKeys(s));
    PlansSame(s.clients, p, frame);
  }

  lemma FinishKeeps(world: World, s: Cluster, where: Where, p: ProblemId)
    requires Good(world, s, where) && p < |s.clients| && s.clients[p].frame.Fetched?
    ensures Good(world, WithFrame(s, p, Returned(s.clients[p].frame.v)).(store := WithoutProblem(s.store, p)), where)
  {
    FinishDesk(world, DeskOf(s), where.Keys, Past(where), p);
    var frame := Returned(s.clients[p].frame.v);
    FrameLog(DeskOf(s), p, frame, ReceivedKeys(s));
    PlansSame(s.clients, p, frame);
  }

  // ---------- steps of the broker and the workers ----------

  /** A step of the pipeline that starts and ends no task and stores no result. */
  lemma PipelineKeeps(world: World, s: Cluster, where: Where, s': Cluster, where': Where)
    requires Good(world, s, where) && SameTasks(where, where')
    requires s' == s.(taken := s'.taken, broker := s'.broker, workers := s'.workers)
    requires ReplyPrefix(s, s')
    requires PipeGood(world, Plans(s.clients), PipeOf(s'), where')
    ensures Good(world, s', where')
  {
    assert ReceivedKeys(s') == ReceivedKeys(s);
  }

  ghost predicate ReplyPrefix(s: Cluster, s': Cluster) {
    s.broker.replied <= s'.broker.replied
  }

  lemma ReadKeeps(world: World, s: Cluster, where: Where, w: WorkerId) returns (where': Where)
    requires Good(world, s, where) && Enabled(world, s, ReadInbox(w))
    ensures Good(world, Next(Fifo, world, s, ReadInbox(w)), where')
  {
    where' := ReadStep(world, Plans(s.clients), PipeOf(s), where, w);
    PipelineKeeps(world, s, where, Next(Fifo, world, s, ReadInbox(w)), where');
  }

  lemma TakeKeeps(world: World, s: Cluster, where: Where, w: WorkerId, i: nat) returns (where': Where)
    requires Good(world, s, where) && Enabled(world, s, Take(w, i))
    ensures Good(world, Next(Fifo, world, s, Take(w, i)), where')
  {
    where' := TakeStep(world, Plans(s.clients), PipeOf(s), where, w, i);
    PipelineKeeps(world, s, where, Next(Fifo, world, s, Take(w, i)), where');
  }

  lemma RespondKeeps(world: World, s: Cluster, where: Where, w: WorkerId, i: nat) returns (where': Where)
    requires Good(world, s, where) && Enabled(world, s, Respond(w, i))
    ensures Good(world, Next(Fifo, world, s, Respond(w, i)), where')
  {
    where' := RespondStep(world, Plans(s.clients), PipeOf(s), where, w, i);
    PipelineKeeps(world, s, where, Next(Fifo, world, s, Respond(w, i)), where');
  }

  lemma OutputKeeps(world: World, s: Cluster, where: Where, w: WorkerId) returns (where': Where)
    requires Good(world, s, where) && Enabled(world, s, Output(w))
    ensures Good(world, Next(Fifo, world, s, Output(w)), where')
  {
    where' := OutputStep(world, Plans(s.clients), PipeOf(s), where, w);
    PipelineKeeps(world, s, where, Next(Fifo, world, s, Output(w)), where');
  }

  lemma JoinKeeps(world: World, s: Cluster, where: Where, cores: nat)
    requires Good(world, s, where)
    ensures Good(world, s.(workers := s.workers + [Launch(cores, |s.broker.published|)]), where)
  {
    JoinStep(world, Plans(s.clients), PipeOf(s), where, cores);
  }

  lemma FromManagerKeeps(world: World, s: Cluster, where: Where, choice: Option<WorkerId>) returns (where': Where)
    requires Good(world, s, where) && Enabled(world, s, FromManager(choice))
    ensures Good(world, Next(Fifo, world, s, FromManager(choice)), where')
  {
    match choice {
      case Some(w) => where' := AssignStep(world, Plans(s.clients), PipeOf(s), where, w);
      case None => where' := QueueStep(world, Plans(s.clients), PipeOf(s), where);
    }
    PipelineKeeps(world, s, where, Next(Fifo, world, s, FromManager(choice)), where');
  }

  lemma RegistrationKeeps(world: World, s: Cluster, where: Where, w: WorkerId) returns (where': Where)
    requires Good(world, s, where) && Enabled(world, s, FromWorker(w)) && s.workers[w].outbox[0].CoreCount?
    ensures Good(world, NextFromWorker(Fifo, s, w), where')
  {
    RegisterStep(world, Plans(s.clients), PipeOf(s), where, w);
    where' := where;
    PipelineKeeps(world, s, where, NextFromWorker(Fifo, s, w), where');
  }

  lemma WorkerReplyKeeps(world: World, s: Cluster, where: Where, w: WorkerId) returns (where': Where)
    requires Good(world, s, where) && Enabled(world, s, FromWorker(w)) && s.workers[w].outbox[0].TaskDone?
    ensures Good(world, NextFromWorker(Fifo, s, w), where')
  {
    where' := ReplyStep(world, Plans(s.clients), PipeOf(s), where, w);
    PipelineKeeps(world, s, where, NextFromWorker(Fifo, s, w), where');
  }

  lemma FromWorkerKeeps(world: World, s: Cluster, where: Where, w: WorkerId) returns (where': Where)
    requires Good(world, s, where) && Enabled(world, s, FromWorker(w))
    ensures Good(world, Next(Fifo, world, s, FromWorker(w)), where')
  {
    match s.workers[w].outbox[0] {
      case CoreCount(_) => where' := RegistrationKeeps(world, s, where, w);
      case TaskDone(_, _) => where' := WorkerReplyKeeps(world, s, where, w);
    }
  }

  lemma HeldTask(world: World, s: Cluster, where: Where, w: WorkerId, i: nat)
    requires Good(world, s, where) && HasThread(s, w, i) && s.workers[w].threads[i].Reading?
    ensures var t := s.workers[w].threads[i];
            && ThreadRight(world, Plans(s.clients), t)
            && t.task.key in where && where[t.task.key] == Places.OnThread(w, i)
  {
    assert WorkerGood(world, Plans(s.clients), s.broker, s.workers[w], where, w);
    var t := s.workers[w].threads[i];
    assert ThreadRight(world, Plans(s.clients), t);
    assert ThreadHolds(t, where, w, i);
    assert ReadingKeys(t)[0] in ReadingKeys(t);
  }

  /** The operand a thread is about to read is there, with the right value. */
  lemma NextOperandThere(world: World, s: Cluster, where: Where, w: WorkerId, i: nat) returns (v: Value)
    requires Good(world, s, where) && Enabled(world, s, ReadOne(w, i))
    ensures var t := s.workers[w].threads[i];
            && ReadOperand(world, s.store, NextOperand(t)) == Some(v)
            && NextReadOne(world, s, w, i) == WithWorker(s, w, GotOperand(s.workers[w], i, v))
            && OperandMeans(world, Plans(s.clients), NextOperand(t), v)
  {
    var t := s.workers[w].threads[i];
    HeldTask(world, s, where, w, i);
    OperandAvailable(world, DeskOf(s), where.Keys, Past(where), t.task, |t.got|);
    v := ReadOperand(world, s.store, NextOperand(t)).value;
  }

  lemma ReadOneKeeps(world: World, s: Cluster, where: Where, w: WorkerId, i: nat)
    requires Good(world, s, where) && Enabled(world, s, ReadOne(w, i))
    ensures Good(world, Next(Fifo, world, s, ReadOne(w, i)), where)
  {
    var v := NextOperandThere(world, s, where, w, i);
    GotStep(world, Plans(s.clients), PipeOf(s), where, w, i, v);
    PipelineKeeps(world, s, where, Next(Fifo, world, s, ReadOne(w, i)), where);
  }

  lemma ComputeDesk(world: World, d: Desk, where: Where, task: Task, got: seq<Value>, to: Place)
    requires DeskGood(world, d, where.Keys, Past(where))
    requires task.key in where && !IsPast(where[task.key]) && IsPast(to)
    requires Genuine(Plans(d.clients), task) && GotRight(world, Plans(d.clients), task, got) && |got| == |task.operands|
    requires world.apply(task.etype, got).Some?
    ensures task.key !in d.store
    ensures var where' := where[task.key := to];
            DeskGood(world, d.(store := d.store[task.key := world.apply(task.etype, got).value]), where'.Keys, Past(where'))
  {
    var k := task.key;
    assert k !in Past(where);
    NotYetStored(world, d, where.Keys, Past(where), k);
    assert ClientGood(world, d.clients[k.problem], k.problem, d.problems, where.Keys);
    ComputesValue(world, Plans(d.clients), task, got);
    StoreResult(world, d, where.Keys, Past(where), k, world.apply(task.etype, got).value);
    assert Past(where[k := to]) == Past(where) + {k};
    assert where[k := to].Keys == where.Keys;
  }

  lemma ComputeKeeps(world: World, s: Cluster, where: Where, w: WorkerId, i: nat) returns (where': Where)
    requires Good(world, s, where) && Enabled(world, s, Compute(w, i))
    ensures Good(world, Next(Fifo, world, s, Compute(w, i)), where')
  {
    var t := s.workers[w].threads[i];
    HeldTask(world, s, where, w, i);
    ComputeDesk(world, DeskOf(s), where, t.task, t.got, Places.Stored(w, i));
    StoreStep(world, Plans(s.clients), PipeOf(s), where, w, i);
    where' := where[t.task.key := Places.Stored(w, i)];
  }

  lemma DispatcherStepKeeps(world: World, s: Cluster, where: Where, a: Action) returns (where': Where)
    requires Good(world, s, where) && Enabled(world, s, a) && (a.Push? || a.Send? || a.Reply?)
    ensures Good(world, Next(Fifo, world, s, a), where')
  {
    where' := where;
    match a {
      case Push(ast, order) =>
        AnyOrderIsPlanned(ast, order);
        PushKeeps(world, s, where, Client(ast, Decompositor(DagOf(ast), order), Waiting(false)));
      case Send(ks, tasks) => where' := SendKeeps(world, s, where, ks, tasks);
      case Reply => where' := ReceiveKeeps(world, s, where);
    }
  }

  lemma ClientStepKeeps(world: World, s: Cluster, where: Where, a: Action)
    requires Good(world, s, where) && Enabled(world, s, a) && (a.Clear? || a.Fetch? || a.Finish?)
    ensures Good(world, Next(Fifo, world, s, a), where)
  {
    match a {
      case Clear(p) => ClearKeeps(world, s, where, p);
      case Fetch(p) => FetchKeeps(world, s, where, p);
      case Finish(p) => FinishKeeps(world, s, where, p);
    }
  }

  lemma WorkerStepKeeps(world: World, s: Cluster, where: Where, a: Action) returns (where': Where)
    requires Good(world, s, where) && Enabled(world, s, a) && ByWorker(a)
    ensures Good(world, Next(Fifo, world, s, a), where')
  {
    where' := where;
    match a {
      case ReadInbox(w) => where' := ReadKeeps(world, s, where, w);
      case Take(w, i) => where' := TakeKeeps(world, s, where, w, i);
      case ReadOne(w, i) => ReadOneKeeps(world, s, where, w, i);
      case Compute(w, i) => where' := ComputeKeeps(world, s, where, w, i);
      case Respond(w, i) => where' := RespondKeeps(world, s, where, w, i);
      case Output(w) => where' := OutputKeeps(world, s, where, w);
    }
  }

  lemma FifoStepKeeps(world: World, s: Cluster, where: Where, a: Action) returns (where': Where)
    requires Good(world, s, where) && Enabled(world, s, a)
    ensures Good(world, Next(Fifo, world, s, a), where')
  {
    if a.Push? || a.Send? || a.Reply? {
      where' := DispatcherStepKeeps(world, s, where, a);
    } else if a.Clear? || a.Fetch? || a.Finish? {
      where' := where;
      ClientStepKeeps(world, s, where, a);
    } else if ByWorker(a) {
      where' := WorkerStepKeeps(world, s, where, a);
    } else if a.FromWorker? {
      where' := FromWorkerKeeps(world, s, where, a.w);
    } else if a.FromManager? {
      where' := FromManagerKeeps(world, s, where, a.choice);
    } else {
      where' := where;
      JoinKeeps(world, s, where, a.cores);
    }
  }

  // ---------- every run ----------

  /** The action makes the broker drain its queue. */
  ghost predicate Drains(s: Cluster, a: Action) {
    && a.FromWorker? && a.w < |s.workers| && s.workers[a.w].outbox != [] && s.workers[a.w].outbox[0].TaskDone?
    && s.broker.queue != []
  }

  /** The drain is first-in first-out, or finds one task if it happens at all. */
  ghost predicate Harmless(drain: Drain, s: Cluster, a: Action) {
    drain.AsWritten? && Drains(s, a) ==> |s.broker.queue| == 1
  }

  /** Every drain of the run finds exactly one task queued. */
  ghost predicate DrainsSingly(world: World, run: seq<Action>) {
    run == [] ||
    var front, a := run[..|run| - 1], run[|run| - 1];
    && DrainsSingly(world, front)
    && (Run(AsWritten, world, front).Some? ==> Harmless(AsWritten, Run(AsWritten, world, front).value, a))
  }

  lemma HarmlessDrainIsFifo(drain: Drain, world: World, s: Cluster, a: Action)
    requires Enabled(world, s, a) && Harmless(drain, s, a)
    ensures Next(drain, world, s, a) == Next(Fifo, world, s, a)
  {
  }

  lemma {:induction false} SinglyDrainedRunIsFifo(world: World, run: seq<Action>)
    requires DrainsSingly(world, run) && Run(AsWritten, world, run).Some?
    ensures Run(Fifo, world, run) == Run(AsWritten, world, run)
  {
    if run != [] {
      var front, a := run[..|run| - 1], run[|run| - 1];
      SinglyDrainedRunIsFifo(world, front);
      HarmlessDrainIsFifo(AsWritten, world, Run(AsWritten, world, front).value, a);
    }
  }

  /** s is reached by a run in which no drain loses a task. */
  ghost predicate Reached(drain: Drain, world: World, run: seq<Action>, s: Cluster) {
    Run(drain, world, run) == Some(s) && (drain.AsWritten? ==> DrainsSingly(world, run))
  }

  lemma StepKeeps(drain: Drain, world: World, s: Cluster, where: Where, a: Action) returns (where': Where)
    requires Good(world, s, where) && Enabled(world, s, a) && Harmless(drain, s, a)
    ensures Good(world, Next(drain, world, s, a), where')
  {
    HarmlessDrainIsFifo(drain, world, s, a);
    where' := FifoStepKeeps(world, s, where, a);
  }

  lemma {:induction false} RunKeeps(drain: Drain, world: World, run: seq<Action>, s: Cluster) returns (where: Where)
    requires Reached(drain, world, run, s)
    ensures Good(world, s, where)
    decreases |run|
  {
    if run == [] {
      BootGood(world);
      where := map[];
    } else {
      var front, a := run[..|run| - 1], run[|run| - 1];
      var s1 := Run(drain, world, front).value;
      where := RunKeeps(drain, world, front, s1);
      where := StepKeeps(drain, world, s1, where, a);
    }
  }

  lemma ReachedNext(drain: Drain, world: World, run: seq<Action>, s: Cluster, a: Action)
    requires Reached(drain, world, run, s) && Enabled(world, s, a) && Harmless(drain, s, a)
    ensures Reached(drain, world, run + [a], Next(drain, world, s, a))
  {
    assert (run + [a])[..|run|] == run;
  }
}
