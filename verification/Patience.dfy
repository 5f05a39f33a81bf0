/** Runs that never crash, with either drain: those in which a client clears its problem only once no
    message names a task of it any more. From any such state the system can come to rest without a
    crash, whatever tasks have been lost or doubled.
 */
module Patience {
  import opened Domain
  import opened Expression
  import opened Sharing
  import opened Decomposition
  import opened Dispatch
  import opened Frontier
  import opened Broker
  import opened Worker
  import opened Places
  import opened Capacity
  import opened Pipeline
  import opened Cluster
  import opened Desk
  import opened Soundness
  import opened Ledger
  import opened Termination
  import opened AllRuns
  import opened Safety
  import opened Results
  import opened LostTasks
  import opened Progress

  /** A problem is cleared only once nothing of it is in flight. */
  ghost predicate Patient(s: Cluster, a: Action) {
    a.Clear? ==> forall k :: InFlight(s, k) ==> k.problem != a.p
  }

  // ---------- the invariant ----------

  ghost predicate Started(s: Cluster, k: TaskKey) {
    k.problem in s.problems && k.task in s.problems[k.problem].status
  }

  /** Whatever is in flight belongs to a problem in the dispatcher's map and has been started. */
  ghost predicate AllStarted(s: Cluster) {
    forall k {:trigger InFlight(s, k)} :: InFlight(s, k) ==> Started(s, k)
  }

  ghost predicate IsDone(s: Cluster, k: TaskKey) {
    && k.problem in s.problems && k.problem < |s.clients|
    && IsOperation(s.clients[k.problem].dec.graph, k.task) && k.task in Done(s.problems[k.problem])
  }

  function ResultOf(c: Client, p: ProblemId): TaskKey {
    TaskKey(p, if c.dec.graph.vertices == [] then 0 else Root(c.dec.graph))
  }

  /** What a worker is about to report has been stored. */
  ghost predicate WorkerRecorded(store: Store, x: WorkerState) {
    && (forall i :: 0 <= i < |x.threads| && x.threads[i].Reporting? ==> x.threads[i].task.key in store)
    && (forall i :: 0 <= i < |x.finished| ==> x.finished[i] in store)
    && (forall i :: 0 <= i < |x.outbox| && x.outbox[i].TaskDone? ==> x.outbox[i].key in store)
  }

  ghost predicate WorkersRecorded(store: Store, workers: seq<WorkerState>) {
    forall w {:trigger WorkerRecorded(store, workers[w])} :: 0 <= w < |workers| ==> WorkerRecorded(store, workers[w])
  }

  ghost predicate Recorded(s: Cluster) {
    && (forall k {:trigger IsDone(s, k)} :: IsDone(s, k) ==> k in s.store)
    && (forall p :: 0 <= p < |s.clients| && s.clients[p].frame.Cleared? ==> ResultOf(s.clients[p], p) in s.store)
    && WorkersRecorded(s.store, s.workers)
    && (forall i :: s.seen <= i < |s.broker.replied| ==> s.broker.replied[i] in s.store)
  }

  ghost predicate Tidy(world: World, s: Cluster) {
    !s.crashed && Regular(world, s) && AllStarted(s) && Recorded(s)
  }

  // ---------- nothing can crash ----------

  lemma ThreadIsInFlight(s: Cluster, w: WorkerId, i: nat)
    requires HasThread(s, w, i) && !s.workers[w].threads[i].Idle?
    ensures InFlight(s, s.workers[w].threads[i].task.key)
  {
    assert AtThread(s.workers[w].threads[i], s.workers[w].threads[i].task.key);
    assert AtWorker(s.broker.published, s.workers[w], w, s.workers[w].threads[i].task.key);
  }

  /** A computed operand of a started task is recorded. */
  lemma OperandRecorded(world: World, s: Cluster, task: Task, j: nat)
    requires Tidy(world, s) && Genuine(Plans(s.clients), task) && Started(s, task.key)
    requires j < |task.operands| && task.operands[j].DynOperand?
    ensures task.operands[j].key in s.store
  {
    var p, t := task.key.problem, task.key.task;
    assert ClientManaged(s.clients[p], p, s.problems);
    var g, c := s.clients[p].dec.graph, s.problems[p];
    var o := g.edges[t][j];
    assert Ready(g, Done(c), t);
    assert AllBelow(g.edges[t], t);
    NotNamedIsOperation(g, o);
    assert IsDone(s, TaskKey(p, o));
  }

  lemma ReadOneIsSafe(world: World, s: Cluster, w: WorkerId, i: nat)
    requires Tidy(world, s) && Enabled(world, s, ReadOne(w, i))
    ensures ReadOperand(world, s.store, NextOperand(s.workers[w].threads[i])).Some?
  {
    var t := s.workers[w].threads[i];
    assert WorkerSound(world, Plans(s.clients), s.workers[w]);
    assert ThreadRight(world, Plans(s.clients), t);
    ThreadIsInFlight(s, w, i);
    if NextOperand(t).DynOperand? {
      OperandRecorded(world, s, t.task, |t.got|);
    }
  }

  lemma NextReplyStarted(s: Cluster)
    requires AllStarted(s) && s.seen < |s.broker.replied|
    ensures Started(s, s.broker.replied[s.seen])
  {
    var k := s.broker.replied[s.seen];
    assert k in s.broker.replied[s.seen..] by { assert s.broker.replied[s.seen..][0] == k; }
    assert InFlight(s, k);
  }

  lemma ReplyIsSafe(world: World, s: Cluster)
    requires Tidy(world, s) && s.seen < |s.broker.replied|
    ensures !NextReply(s).crashed
  {
    NextReplyStarted(s);
    ReplyIs(s);
  }

  lemma ClientStepIsSafe(drain: Drain, world: World, s: Cluster, a: Action)
    requires Tidy(world, s) && Enabled(world, s, a) && (a.Clear? || a.Fetch? || a.Finish?)
    ensures !Next(drain, world, s, a).crashed
  {
    assert ClientManaged(s.clients[a.p], a.p, s.problems);
    if a.Fetch? {
      assert ResultOf(s.clients[a.p], a.p) in s.store;
    }
  }

  lemma StepIsSafe(drain: Drain, world: World, s: Cluster, a: Action)
    requires Tidy(world, s) && Enabled(world, s, a)
    ensures !Next(drain, world, s, a).crashed
  {
    if a.ReadOne? {
      ReadOneIsSafe(world, s, a.w, a.i);
    } else if a.FromWorker? {
      FromWorkerKeepsFits(drain, s, a.w);
    } else if a.Reply? {
      ReplyIsSafe(world, s);
    } else if a.Clear? || a.Fetch? || a.Finish? {
      ClientStepIsSafe(drain, world, s, a);
    }
  }

  // ---------- what is in flight stays started ----------

  lemma SendKeepsStarted(s: Cluster, ks: seq<TaskKey>, tasks: seq<Task>)
    requires AllStarted(s) && IsPass(s.problems, ks) && AreRequests(s.problems, ks, tasks) && s.taken <= |s.sent|
    ensures AllStarted(s.(problems := AfterSendAll(s.problems), sent := s.sent + tasks))
  {
    var s' := s.(problems := AfterSendAll(s.problems), sent := s.sent + tasks);
    forall k | InFlight(s', k)
      ensures Started(s', k)
    {
      if !InFlight(s, k) {
        SentNames(s.sent, s.taken, tasks, k);
        var i :| 0 <= i < |tasks| && tasks[i].key == k;
        assert InFrontier(s.problems, ks[i]) && tasks[i] == RequestOf(s.problems, ks[i]);
      }
    }
  }

  /** Every other step leaves started what was started, unless it clears the problem. */
  lemma OthersKeepStarted(drain: Drain, world: World, s: Cluster, a: Action, k: TaskKey)
    requires Regular(world, s) && Enabled(world, s, a) && !a.Send? && Started(s, k) && (a.Clear? ==> a.p != k.problem)
    ensures Started(Next(drain, world, s, a), k)
  {
    if !ByManager(a) {
      OthersLeaveBooks(drain, world, s, a);
    } else if a.Push? {
      assert |s.clients| !in s.problems;
    } else if a.Reply? {
      ReplyKeepsStarted(s, k);
    } else {
      ClientKeepsStarted(drain, world, s, a, k);
    }
  }

  lemma ReplyKeepsStarted(s: Cluster, k: TaskKey)
    requires s.seen < |s.broker.replied| && Started(s, k)
    ensures Started(NextReply(s), k)
  {
  }

  lemma ClientKeepsStarted(drain: Drain, world: World, s: Cluster, a: Action, k: TaskKey)
    requires Enabled(world, s, a) && (a.Clear? || a.Fetch? || a.Finish?) && Started(s, k) && (a.Clear? ==> a.p != k.problem)
    ensures Started(Next(drain, world, s, a), k)
  {
  }

  lemma StepKeepsStarted(drain: Drain, world: World, s: Cluster, a: Action)
    requires Tidy(world, s) && Enabled(world, s, a) && Patient(s, a)
    ensures AllStarted(Next(drain, world, s, a))
  {
    if a.Send? {
      SendKeepsStarted(s, a.ks, a.tasks);
    } else {
      var s' := Next(drain, world, s, a);
      forall k | InFlight(s', k)
        ensures Started(s', k)
      {
        NoNewNames(drain, world, s, a, k);
        OthersKeepStarted(drain, world, s, a, k);
      }
    }
  }

  // ---------- what has been computed stays recorded ----------

  lemma WorkerStepRecorded(store: Store, store': Store, workers: seq<WorkerState>, w: WorkerId, x: WorkerState)
    requires WorkersRecorded(store, workers) && w < |workers| && store.Keys <= store'.Keys && WorkerRecorded(store', x)
    ensures WorkersRecorded(store', workers[w := x])
  {
    var workers' := workers[w := x];
    forall v | 0 <= v < |workers'|
      ensures WorkerRecorded(store', workers'[v])
    {
      assert WorkerRecorded(store, workers[v]);
    }
  }

  lemma OwnStepKeepsRecorded(drain: Drain, world: World, s: Cluster, a: Action)
    requires WorkersRecorded(s.store, s.workers) && Enabled(world, s, a) && ByWorker(a) && !Next(drain, world, s, a).crashed
    ensures s.store.Keys <= Next(drain, world, s, a).store.Keys
    ensures WorkersRecorded(Next(drain, world, s, a).store, Next(drain, world, s, a).workers)
  {
    var s', x := Next(drain, world, s, a), s.workers[a.w];
    assert WorkerRecorded(s.store, x);
    assert s'.workers == s.workers[a.w := s'.workers[a.w]];
    WorkerStepRecorded(s.store, s'.store, s.workers, a.w, s'.workers[a.w]);
  }

  lemma WorkerKeepsRecorded(drain: Drain, world: World, s: Cluster, a: Action)
    requires Tidy(world, s) && Enabled(world, s, a) && ByWorker(a) && !Next(drain, world, s, a).crashed
    ensures Recorded(Next(drain, world, s, a))
  {
    var s' := Next(drain, world, s, a);
    WorkerStepFrame(drain, world, s, a);
    OwnStepKeepsRecorded(drain, world, s, a);
    SameBooksRecorded(s, s');
  }

  /** The books are the same and no record is gone. */
  lemma SameBooksRecorded(s: Cluster, s': Cluster)
    requires Recorded(s) && s.store.Keys <= s'.store.Keys && WorkersRecorded(s'.store, s'.workers)
    requires s'.problems == s.problems && s'.clients == s.clients
    requires forall i :: s'.seen <= i < |s'.broker.replied| ==> s'.broker.replied[i] in s'.store
    ensures Recorded(s')
  {
    forall k | IsDone(s', k)
      ensures k in s'.store
    {
      assert IsDone(s, k);
    }
  }

  lemma ReceiptRecorded(drain: Drain, s: Cluster, w: WorkerId)
    requires Recorded(s) && WorkersFit(s.broker, s.workers) && w < |s.workers| && s.workers[w].outbox != []
    ensures Recorded(NextFromWorker(drain, s, w))
  {
    var s', x := NextFromWorker(drain, s, w), s.workers[w];
    assert WorkerRecorded(s.store, x);
    assert WorkerFits(s.broker.free, s.broker.published, x, w);
    WorkerStepRecorded(s.store, s.store, s.workers, w, x.(outbox := x.outbox[1..]));
    SameBooksRecorded(s, s');
  }

  lemma AssignRecorded(s: Cluster, choice: Option<WorkerId>)
    requires Recorded(s) && s.taken < |s.sent| && ValidChoice(s.broker, choice)
    ensures Recorded(s.(broker := Assign(s.broker, s.sent[s.taken], choice), taken := s.taken + 1))
  {
    SameBooksRecorded(s, s.(broker := Assign(s.broker, s.sent[s.taken], choice), taken := s.taken + 1));
  }

  lemma JoinRecorded(s: Cluster, cores: nat)
    requires Recorded(s)
    ensures Recorded(s.(workers := s.workers + [Launch(cores, |s.broker.published|)]))
  {
    var workers' := s.workers + [Launch(cores, |s.broker.published|)];
    forall w | 0 <= w < |workers'|
      ensures WorkerRecorded(s.store, workers'[w])
    {
      if w < |s.workers| {
        assert WorkerRecorded(s.store, s.workers[w]);
      }
    }
    SameBooksRecorded(s, s.(workers := workers'));
  }

  lemma PushRecorded(drain: Drain, world: World, s: Cluster, ast: Expr, order: seq<TaskId>)
    requires Recorded(s) && Managed(s) && Enabled(world, s, Push(ast, order))
    ensures Recorded(Next(drain, world, s, Push(ast, order)))
  {
    var s' := Next(drain, world, s, Push(ast, order));
    forall k | IsDone(s', k)
      ensures k in s'.store
    {
      if k.problem < |s.clients| {
        assert IsDone(s, k);
      }
    }
  }

  lemma SendRecorded(s: Cluster, tasks: seq<Task>)
    requires Recorded(s) && Managed(s)
    ensures Recorded(s.(problems := AfterSendAll(s.problems), sent := s.sent + tasks))
  {
    var s' := s.(problems := AfterSendAll(s.problems), sent := s.sent + tasks);
    forall k | IsDone(s', k)
      ensures k in s'.store
    {
      assert ClientManaged(s.clients[k.problem], k.problem, s.problems);
      SentDone(s.problems[k.problem]);
      assert IsDone(s, k);
    }
  }

  lemma DoneAfterReply(s: Cluster, k: TaskKey)
    requires Managed(s) && s.seen < |s.broker.replied| && Started(s, s.broker.replied[s.seen]) && IsDone(NextReply(s), k)
    ensures k == s.broker.replied[s.seen] || IsDone(s, k)
  {
    var r := s.broker.replied[s.seen];
    ReplyIs(s);
    assert ClientManaged(s.clients[r.problem], r.problem, s.problems);
    OnReplyAgrees(s.problems[r.problem], r.task);
    if k.problem == r.problem {
      assert s.clients[k.problem].dec == NextReply(s).clients[k.problem].dec;
    }
  }

  lemma ReplyRecorded(world: World, s: Cluster)
    requires Tidy(world, s) && s.seen < |s.broker.replied|
    ensures Recorded(NextReply(s))
  {
    NextReplyStarted(s);
    ReplyIs(s);
    forall k | IsDone(NextReply(s), k)
      ensures k in s.store
    {
      DoneAfterReply(s, k);
    }
  }

  lemma ClearRecorded(s: Cluster, p: ProblemId)
    requires Recorded(s) && Managed(s) && p < |s.clients| && s.clients[p].frame == Waiting(true)
    ensures Recorded(WithFrame(s, p, Cleared).(problems := s.problems - {p}, sync := s.sync - {p}))
  {
    var s' := WithFrame(s, p, Cleared).(problems := s.problems - {p}, sync := s.sync - {p});
    var c := s.clients[p];
    assert ClientManaged(c, p, s.problems);
    assert IsDone(s, ResultOf(c, p));
    forall k | IsDone(s', k)
      ensures k in s'.store
    {
      assert IsDone(s, k);
    }
    forall q | 0 <= q < |s'.clients| && s'.clients[q].frame.Cleared?
      ensures ResultOf(s'.clients[q], q) in s'.store
    {
      assert s'.clients[q].dec == s.clients[q].dec;
    }
  }

  lemma FetchRecorded(s: Cluster, p: ProblemId, frame: Frame)
    requires Recorded(s) && Managed(s) && p < |s.clients| && !s.clients[p].frame.Waiting? && frame.Fetched?
    ensures Recorded(WithFrame(s, p, frame))
  {
    var s' := WithFrame(s, p, frame);
    assert ClientManaged(s.clients[p], p, s.problems);
    forall k | IsDone(s', k)
      ensures k in s'.store
    {
      assert IsDone(s, k);
    }
  }

  /** Nothing a worker or the broker still has to report belongs to a problem that is over. */
  lemma ReportsAreStarted(s: Cluster, p: ProblemId)
    requires AllStarted(s) && p !in s.problems
    ensures forall w :: 0 <= w < |s.workers| ==> forall i :: 0 <= i < |s.workers[w].threads| && s.workers[w].threads[i].Reporting? ==> s.workers[w].threads[i].task.key.problem != p
    ensures forall w :: 0 <= w < |s.workers| ==> forall i :: 0 <= i < |s.workers[w].finished| ==> s.workers[w].finished[i].problem != p
    ensures forall w :: 0 <= w < |s.workers| ==> forall i :: 0 <= i < |s.workers[w].outbox| && s.workers[w].outbox[i].TaskDone? ==> s.workers[w].outbox[i].key.problem != p
    ensures forall i :: s.seen <= i < |s.broker.replied| ==> s.broker.replied[i].problem != p
  {
    forall w, i | 0 <= w < |s.workers| && 0 <= i < |s.workers[w].threads| && s.workers[w].threads[i].Reporting?
      ensures s.workers[w].threads[i].task.key.problem != p
    {
      ThreadIsInFlight(s, w, i);
    }
    forall w, i | 0 <= w < |s.workers| && 0 <= i < |s.workers[w].finished|
      ensures s.workers[w].finished[i].problem != p
    {
      assert AtWorker(s.broker.published, s.workers[w], w, s.workers[w].finished[i]);
      assert InFlight(s, s.workers[w].finished[i]);
    }
    forall w, i | 0 <= w < |s.workers| && 0 <= i < |s.workers[w].outbox| && s.workers[w].outbox[i].TaskDone?
      ensures s.workers[w].outbox[i].key.problem != p
    {
      InDoneKeys(s.workers[w].outbox, i);
      assert AtWorker(s.broker.published, s.workers[w], w, s.workers[w].outbox[i].key);
      assert InFlight(s, s.workers[w].outbox[i].key);
    }
    forall i | s.seen <= i < |s.broker.replied|
      ensures s.broker.replied[i].problem != p
    {
      assert s.broker.replied[s.seen..][i - s.seen] == s.broker.replied[i];
      assert InFlight(s, s.broker.replied[i]);
    }
  }

  lemma {:induction false} InDoneKeys(outbox: seq<WorkerMessage>, i: nat)
    requires i < |outbox| && outbox[i].TaskDone?
    ensures outbox[i].key in DoneKeys(outbox)
  {
    if i > 0 {
      InDoneKeys(outbox[1..], i - 1);
    }
  }

  lemma FinishRecorded(s: Cluster, p: ProblemId)
    requires Recorded(s) && Managed(s) && AllStarted(s) && p < |s.clients| && s.clients[p].frame.Fetched?
    ensures Recorded(WithFrame(s, p, Returned(s.clients[p].frame.v)).(store := WithoutProblem(s.store, p)))
  {
    var s' := WithFrame(s, p, Returned(s.clients[p].frame.v)).(store := WithoutProblem(s.store, p));
    assert ClientManaged(s.clients[p], p, s.problems);
    ReportsAreStarted(s, p);
    forall w | 0 <= w < |s'.workers|
      ensures WorkerRecorded(s'.store, s'.workers[w])
    {
      assert WorkerRecorded(s.store, s.workers[w]);
    }
    forall k | IsDone(s', k)
      ensures k in s'.store
    {
      assert IsDone(s, k);
    }
  }

  lemma ClientKeepsRecorded(drain: Drain, world: World, s: Cluster, a: Action)
    requires Tidy(world, s) && Enabled(world, s, a) && (a.Clear? || a.Fetch? || a.Finish?)
    ensures Recorded(Next(drain, world, s, a))
  {
    assert ClientManaged(s.clients[a.p], a.p, s.problems);
    match a {
      case Clear(p) => ClearRecorded(s, p);
      case Fetch(p) =>
        assert ResultOf(s.clients[p], p) in s.store;
        FetchRecorded(s, p, Fetched(s.store[ResultOf(s.clients[p], p)]));
      case Finish(p) => FinishRecorded(s, p);
    }
  }

  lemma StepKeepsRecorded(drain: Drain, world: World, s: Cluster, a: Action)
    requires Tidy(world, s) && Enabled(world, s, a)
    ensures Recorded(Next(drain, world, s, a))
  {
    if ByWorker(a) {
      StepIsSafe(drain, world, s, a);
      WorkerKeepsRecorded(drain, world, s, a);
    } else if ByManager(a) {
      ManagerKeepsRecorded(drain, world, s, a);
    } else {
      BrokerKeepsRecorded(drain, world, s, a);
    }
  }

  lemma BrokerKeepsRecorded(drain: Drain, world: World, s: Cluster, a: Action)
    requires Recorded(s) && WorkersFit(s.broker, s.workers) && Enabled(world, s, a) && (ByBroker(a) || a.Join?)
    ensures Recorded(Next(drain, world, s, a))
  {
    if a.FromWorker? {
      ReceiptRecorded(drain, s, a.w);
    } else if a.FromManager? {
      AssignRecorded(s, a.choice);
    } else {
      JoinRecorded(s, a.cores);
    }
  }

  lemma ManagerKeepsRecorded(drain: Drain, world: World, s: Cluster, a: Action)
    requires Tidy(world, s) && Enabled(world, s, a) && ByManager(a)
    ensures Recorded(Next(drain, world, s, a))
  {
    if a.Push? {
      PushRecorded(drain, world, s, a.ast, a.order);
    } else if a.Send? {
      SendRecorded(s, a.tasks);
    } else if a.Reply? {
      ReplyRecorded(world, s);
    } else {
      ClientKeepsRecorded(drain, world, s, a);
    }
  }

  // ---------- patient runs ----------

  lemma StepKeepsTidy(drain: Drain, world: World, s: Cluster, a: Action)
    requires Tidy(world, s) && Enabled(world, s, a) && Patient(s, a)
    ensures Tidy(world, Next(drain, world, s, a))
  {
    StepKeepsRegular(drain, world, s, a);
    StepIsSafe(drain, world, s, a);
    StepKeepsStarted(drain, world, s, a);
    StepKeepsRecorded(drain, world, s, a);
  }

  /** Every problem of the run is cleared only once nothing of it is in flight. */
  ghost predicate PatientRun(drain: Drain, world: World, run: seq<Action>) {
    run == [] ||
    var front, a := run[..|run| - 1], run[|run| - 1];
    PatientRun(drain, world, front) && (Run(drain, world, front).Some? ==> Patient(Run(drain, world, front).value, a))
  }

  lemma {:induction false} PatientRunIsTidy(drain: Drain, world: World, run: seq<Action>)
    requires PatientRun(drain, world, run) && Run(drain, world, run).Some?
    ensures Tidy(world, Run(drain, world, run).value)
  {
    if run == [] {
      RunIsRegular(drain, world, [], Boot());
    } else {
      var front, a := run[..|run| - 1], run[|run| - 1];
      PatientRunIsTidy(drain, world, front);
      StepKeepsTidy(drain, world, Run(drain, world, front).value, a);
    }
  }

  /** A patient run does not crash, whichever way the queue is drained. */
  lemma PatientRunNeverCrashes(drain: Drain, world: World, run: seq<Action>)
    requires PatientRun(drain, world, run) && Run(drain, world, run).Some?
    ensures !Run(drain, world, run).value.crashed
  {
    PatientRunIsTidy(drain, world, run);
  }

  /** A run that loses no task is patient: when the root has been answered nothing of the problem is in
      flight. */
  lemma {:induction false} ReachedIsPatient(drain: Drain, world: World, run: seq<Action>, s: Cluster)
    requires Reached(drain, world, run, s)
    ensures PatientRun(drain, world, run)
    decreases |run|
  {
    if run != [] {
      var front, a := run[..|run| - 1], run[|run| - 1];
      var s1 := Run(drain, world, front).value;
      ReachedIsPatient(drain, world, front, s1);
      var where := RunKeeps(drain, world, front, s1);
      if a.Clear? {
        GoodClearIsPatient(world, s1, where, a.p);
      }
    }
  }

  lemma GoodClearIsPatient(world: World, s: Cluster, where: Where, p: ProblemId)
    requires Good(world, s, where) && p < |s.clients| && s.clients[p].frame == Waiting(true)
    ensures Patient(s, Clear(p))
  {
    assert ClientGood(world, s.clients[p], p, s.problems, where.Keys);
    ComputedIsOver(world, s.clients[p], p, s.problems, where.Keys);
    forall k | InFlight(s, k)
      ensures k.problem != p
    {
      InFlightHasPlace(world, s, where, k);
    }
  }

  // ---------- coming to rest ----------

  /** A step to take: one that moves a message or makes a pass if there is one, then one of a client. */
  lemma SafeStep(world: World, s: Cluster) returns (a: Action)
    requires Tidy(world, s) && AllDefined(world, s.clients) && Staffed(s) && Flows(s) && exists a :: CanAct(world, s, a)
    ensures CanAct(world, s, a) && Patient(s, a)
  {
    a :| CanAct(world, s, a);
    if a.Clear? {
      if k :| InFlight(s, k) {
        a := MessageCanMove(world, s, k);
      }
    }
  }

  lemma StepSafely(drain: Drain, world: World, run: seq<Action>, s: Cluster) returns (a: Action, s1: Cluster)
    requires Run(drain, world, run) == Some(s) && Tidy(world, s)
    requires AllDefined(world, s.clients) && Staffed(s) && Equipped(s.workers) && exists a :: CanAct(world, s, a)
    ensures CanAct(world, s, a) && s1 == Next(drain, world, s, a) && Run(drain, world, run + [a]) == Some(s1) && Tidy(world, s1)
    ensures AllDefined(world, s1.clients) && Staffed(s1) && Equipped(s1.workers)
    ensures 0 <= Remaining(s1) < Remaining(s)
  {
    EquippedFlows(s);
    a := SafeStep(world, s);
    s1 := Next(drain, world, s, a);
    StepKeepsTidy(drain, world, s, a);
    StepKeepsStaff(drain, world, s, a);
    StepReducesRemaining(drain, world, s, a);
    RemainingNonNegative(s1);
    ContinueLast(drain, world, Boot(), run, a);
  }

  /** From any tidy state the system can come to rest without a crash. */
  lemma RestSafely(drain: Drain, world: World, run: seq<Action>, s: Cluster) returns (steps: seq<Action>, end: Cluster)
    requires Run(drain, world, run) == Some(s) && Tidy(world, s)
    requires AllDefined(world, s.clients) && Staffed(s) && Equipped(s.workers)
    ensures Continue(drain, world, s, steps) == Some(end) && AllSteps(steps) && AtRest(world, end)
    decreases Remaining(s)
  {
    if exists a :: CanAct(world, s, a) {
      var a, s1 := StepSafely(drain, world, run, s);
      var rest;
      rest, end := RestSafely(drain, world, run + [a], s1);
      StepThenContinue(drain, world, s, a, rest);
      steps := [a] + rest;
    } else {
      steps, end := [], s;
    }
  }
}
