/** Why the width of a problem is not all that counts: a worker with two cores takes one task at a time
    and answers in the order of the requests. So operations that become computable in stages do not all
    wait at once, even if none is computed from another.
 */
module Stages {
  import opened Domain
  import opened Expression
  import opened ValueNumbering
  import opened Sharing
  import opened Decomposition
  import opened Dispatch
  import opened Frontier
  import opened Broker
  import opened Worker
  import opened Places
  import opened Capacity
  import opened Pipeline
  import opened Cluster
  import opened Desk
  import opened Log
  import opened Ledger
  import opened AllRuns
  import opened Safety
  import opened Results
  import opened Liveness
  import opened Conservation
  import opened Overload
  import opened Width
  import opened Headroom

  // ---------- one worker answers in order ----------

  /** There is at most one worker, and it has two cores. */
  ghost predicate Alone(workers: seq<WorkerState>) {
    |workers| <= 1 && forall w :: 0 <= w < |workers| ==> workers[w].cores == 2
  }

  lemma AloneBefore(drain: Drain, world: World, s: Cluster, a: Action)
    requires Enabled(world, s, a) && Alone(Next(drain, world, s, a).workers)
    ensures Alone(s.workers)
  {
    StepFrame(drain, world, s, a);
  }

  /** It registers before anything is queued. */
  lemma AloneIsPolite(world: World, s: Cluster, a: Action)
    requires Regular(world, s) && Alone(s.workers)
    ensures PoliteAction(s, a)
  {
    if a.FromWorker? && a.w < |s.workers| && s.workers[a.w].outbox != [] && s.workers[a.w].outbox[0].CoreCount? && s.broker.queue != [] {
      assert WorkerFits(s.broker.free, s.broker.published, s.workers[a.w], a.w);
      var v: WorkerId :| IsFull(s.broker, v);
    }
  }

  lemma {:induction false} AloneRunIsPolite(drain: Drain, world: World, run: seq<Action>, s: Cluster)
    requires Run(drain, world, run) == Some(s) && Alone(s.workers)
    ensures PoliteRun(drain, world, run)
    decreases |run|
  {
    if run != [] {
      var front, a := run[..|run| - 1], run[|run| - 1];
      var s1 := Run(drain, world, front).value;
      AloneBefore(drain, world, s1, a);
      AloneRunIsPolite(drain, world, front, s1);
      RunIsRegular(drain, world, front, s1);
      AloneIsPolite(world, s1, a);
    }
  }

  /** The free core and the publications not yet answered are one. */
  ghost predicate OneSlot(b: BrokerState) {
    && (forall w :: w in b.free ==> w == 0)
    && (if 0 in b.free then b.free[0] + |b.published| == 1 + |b.replied| else b.published == [] && b.replied == [])
  }

  lemma StepKeepsSlot(drain: Drain, world: World, s: Cluster, a: Action)
    requires OneSlot(s.broker) && Alone(s.workers) && WorkersFit(s.broker, s.workers) && Enabled(world, s, a)
    ensures OneSlot(Next(drain, world, s, a).broker)
  {
    if ByWorker(a) {
      WorkerStepFrame(drain, world, s, a);
    } else if ByManager(a) {
      ManagerStepFrame(drain, world, s, a);
    } else if a.FromWorker? {
      ReceiptKeepsSlot(drain, s, a.w);
    } else if a.FromManager? {
      AssignKeepsSlot(s.broker, s.sent[s.taken], a.choice);
    }
  }

  lemma ReceiptKeepsSlot(drain: Drain, s: Cluster, w: WorkerId)
    requires OneSlot(s.broker) && Alone(s.workers) && WorkersFit(s.broker, s.workers) && w < |s.workers| && s.workers[w].outbox != []
    ensures OneSlot(NextFromWorker(drain, s, w).broker)
  {
    assert WorkerFits(s.broker.free, s.broker.published, s.workers[w], w);
    NoCoresAdvertisesAll();
    if s.workers[w].outbox[0].TaskDone? {
      ReplyKeepsSlot(drain, s.broker, s.workers[w].outbox[0].key);
    }
  }

  lemma ReplyKeepsSlot(drain: Drain, b: BrokerState, k: TaskKey)
    requires OneSlot(b) && 0 in b.free && b.free[0] < 2
    ensures OneSlot(Replied(drain, b, 0, k))
  {
  }

  lemma AssignKeepsSlot(b: BrokerState, t: Task, choice: Option<WorkerId>)
    requires OneSlot(b) && ValidChoice(b, choice)
    ensures OneSlot(Assign(b, t, choice))
  {
  }

  lemma {:induction false} RunKeepsSlot(drain: Drain, world: World, run: seq<Action>, s: Cluster)
    requires Run(drain, world, run) == Some(s) && Alone(s.workers)
    ensures OneSlot(s.broker)
    decreases |run|
  {
    if run != [] {
      var front, a := run[..|run| - 1], run[|run| - 1];
      var s1 := Run(drain, world, front).value;
      AloneBefore(drain, world, s1, a);
      RunKeepsSlot(drain, world, front, s1);
      RunFits(drain, world, front);
      StepKeepsSlot(drain, world, s1, a);
    }
  }

  /** The replies forwarded are the first requests published, in order. */
  ghost predicate InTurn(b: BrokerState) {
    |b.replied| <= |b.published| && forall i :: 0 <= i < |b.replied| ==> b.replied[i] == b.published[i].task.key
  }

  lemma FromWorkerKeepsTurn(drain: Drain, s: Cluster, w: WorkerId)
    requires InTurn(s.broker) && OneSlot(s.broker) && WorkersFit(s.broker, s.workers) && w < |s.workers| && s.workers[w].outbox != []
    requires s.workers[w].outbox[0].TaskDone? ==> IsNext(s.broker, s.workers[w].outbox[0].key)
    ensures InTurn(NextFromWorker(drain, s, w).broker)
  {
  }

  /** k is the key of the only publication not yet answered. */
  ghost predicate IsNext(b: BrokerState, k: TaskKey) {
    |b.replied| < |b.published| && b.published[|b.replied|].task.key == k
  }

  lemma HeldIsPublished(b: BrokerState, workers: seq<WorkerState>, w: WorkerId, k: TaskKey) returns (j: nat)
    requires Balanced(b, workers) && w < |workers| && Held(b.published, workers[w], w, k) > 0
    ensures j < |b.published| && b.published[j].task.key == k
  {
    assert AllHeld(b.published, workers, k) + Conservation.Answers(b, k) == Copies(Tasks(b.published), k);
    var ns := HeldEach(b.published, workers, k);
    TallyUpdate(ns, w, 0);
    assert k in Keys(Tasks(b.published));
    j :| 0 <= j < |b.published| && Keys(Tasks(b.published))[j] == k;
  }

  lemma AnsweredIsReplied(b: BrokerState, j: nat)
    requires InTurn(b) && j < |b.published|
    ensures j < |b.replied| ==> b.published[j].task.key in b.replied
  {
  }

  lemma HeadIsNext(b: BrokerState, workers: seq<WorkerState>, w: WorkerId)
    requires InTurn(b) && OneSlot(b) && Balanced(b, workers) && WorkersFit(b, workers) && Alone(workers) && w < |workers|
    requires workers[w].outbox != [] && workers[w].outbox[0].TaskDone? && workers[w].outbox[0].key !in b.replied
    ensures IsNext(b, workers[w].outbox[0].key)
  {
    ReceiptHolds(b.published, workers[w], w, workers[w].outbox[0].key);
    var j := HeldIsPublished(b, workers, w, workers[w].outbox[0].key);
    AnsweredIsReplied(b, j);
    OneIsOut(b, workers, w);
  }

  lemma OneIsOut(b: BrokerState, workers: seq<WorkerState>, w: WorkerId)
    requires OneSlot(b) && WorkersFit(b, workers) && Alone(workers) && w < |workers| && workers[w].outbox != [] && workers[w].outbox[0].TaskDone?
    ensures |b.published| == |b.replied| + 1
  {
    assert WorkerFits(b.free, b.published, workers[w], w);
    NoCoresAdvertisesAll();
    ReceiptFits(b.free, b.published, workers[w], w);
  }

  lemma StepKeepsTurn(drain: Drain, world: World, s: Cluster, a: Action)
    requires InTurn(s.broker) && OneSlot(s.broker) && Balanced(s.broker, s.workers) && WorkersFit(s.broker, s.workers) && Alone(s.workers)
    requires Enabled(world, s, a) && Distinct(Next(drain, world, s, a).broker.replied)
    ensures InTurn(Next(drain, world, s, a).broker)
  {
    if ByWorker(a) {
      WorkerStepFrame(drain, world, s, a);
    } else if ByManager(a) {
      ManagerStepFrame(drain, world, s, a);
    } else if a.FromWorker? {
      ReplyIsNew(drain, s, a.w);
      if s.workers[a.w].outbox[0].TaskDone? {
        HeadIsNext(s.broker, s.workers, a.w);
      }
      FromWorkerKeepsTurn(drain, s, a.w);
    }
  }

  lemma ReplyIsNew(drain: Drain, s: Cluster, w: WorkerId)
    requires WorkersFit(s.broker, s.workers) && w < |s.workers| && s.workers[w].outbox != []
    requires Distinct(NextFromWorker(drain, s, w).broker.replied)
    ensures s.workers[w].outbox[0].TaskDone? ==> s.workers[w].outbox[0].key !in s.broker.replied
  {
    assert WorkerFits(s.broker.free, s.broker.published, s.workers[w], w);
    if s.workers[w].outbox[0].TaskDone? {
      LastIsNew(s.broker.replied, s.workers[w].outbox[0].key);
    }
  }

  lemma LastIsNew(ks: seq<TaskKey>, k: TaskKey)
    ensures Distinct(ks + [k]) ==> k !in ks
  {
    forall i | Distinct(ks + [k]) && 0 <= i < |ks|
      ensures ks[i] != k
    {
      assert (ks + [k])[i] != (ks + [k])[|ks|];
    }
  }

  lemma {:induction false} RunKeepsTurn(drain: Drain, world: World, run: seq<Action>, s: Cluster)
    requires Reached(drain, world, run, s) && Alone(s.workers)
    ensures InTurn(s.broker)
    decreases |run|
  {
    if run != [] {
      var front, a := run[..|run| - 1], run[|run| - 1];
      var s1 := Run(drain, world, front).value;
      AloneBefore(drain, world, s1, a);
      RunKeepsTurn(drain, world, front, s1);
      RunKeepsSlot(drain, world, front, s1);
      RunFits(drain, world, front);
      PublicationsBalance(drain, world, front);
      var where := RunKeeps(drain, world, run, s);
      RepliesAreDistinct(world, s, where);
      StepKeepsTurn(drain, world, s1, a);
    }
  }

  /** A single worker with two cores: in every run that loses no task, the answers come in the order of
      the requests. */
  lemma AnswersInOrder(drain: Drain, world: World, run: seq<Action>, s: Cluster)
    requires Reached(drain, world, run, s) && Alone(s.workers)
    ensures |s.broker.replied| <= |s.sent| && s.broker.replied == Keys(s.sent)[..|s.broker.replied|]
  {
    AloneRunIsPolite(drain, world, run, s);
    PoliteRunIsOrderly(drain, world, run, s);
    RunKeepsTurn(drain, world, run, s);
    forall i | 0 <= i < |s.broker.replied|
      ensures i < |s.sent| && s.broker.replied[i] == s.sent[i].key
    {
      assert (Tasks(s.broker.published) + s.broker.queue)[i] == s.sent[..s.taken][i];
    }
  }

  // ---------- a problem in stages ----------

  /** a and b are operations on variables, c is computed from b, and of three independent operations one
      is a and another is computed from c. */
  ghost predicate Staged(g: Graph, a: TaskId, b: TaskId, c: TaskId) {
    && WellNumbered(g) && IsOpen(g, a) && IsOpen(g, b) && Uses(g, c, b)
    && forall ts: set<TaskId> {:trigger Independent(g, ts)} :: Independent(g, ts) && |ts| >= 3 ==> a in ts && exists d :: d in ts && Uses(g, d, c)
  }

  /** The only problem asked, if any, is ast. */
  ghost predicate Single(clients: seq<Client>, ast: Expr) {
    |clients| <= 1 && forall p :: 0 <= p < |clients| ==> clients[p].ast == ast
  }

  /** c is requested after a. */
  ghost predicate After(sent: seq<TaskKey>, a: TaskId, c: TaskId) {
    && (sent != [] ==> TaskKey(0, a) in sent)
    && forall j :: 0 <= j < |sent| && sent[j] == TaskKey(0, c) ==> TaskKey(0, a) in sent[..j]
  }

  /** What the books say of a problem with this graph. */
  ghost predicate Books(s: Cluster, g: Graph) {
    Managed(s) && |s.clients| <= 1 && forall p :: 0 <= p < |s.clients| ==> s.clients[p].dec.graph == g
  }

  /** Once anything has been sent, a has. */
  lemma FirstIsSent(problems: map<ProblemId, CalculationData>, g: Graph, a: TaskId)
    requires 0 in problems && problems[0].dec.graph == g && Agrees(problems[0]) && IsOpen(g, a)
    ensures a in problems[0].status || a in problems[0].computable
  {
    var c := problems[0];
    forall k | 0 <= k < |g.edges[a]|
      ensures g.edges[a][k] in Done(c)
    {
      assert AllBelow(g.edges[a], a);
      assert g.edges[a][k] in c.names;
    }
  }

  lemma AfterSendIsSent(s: Cluster, g: Graph, a: TaskId)
    requires Books(s, g) && IsOpen(g, a) && s.clients != []
    ensures WasSent(s.clients, AfterSendAll(s.problems), TaskKey(0, a))
  {
    assert ClientManaged(s.clients[0], 0, s.problems);
    if s.clients[0].frame.Waiting? {
      FirstIsSent(s.problems, g, a);
      FrontierIsNew(s.problems[0], a);
    }
  }

  /** When c is requested, a has been. */
  lemma ThenIsSent(s: Cluster, g: Graph, a: TaskId, b: TaskId, c: TaskId)
    requires Books(s, g) && Staged(g, a, b, c) && After(Keys(s.sent), a, c) && InFrontier(s.problems, TaskKey(0, c))
    ensures TaskKey(0, a) in Keys(s.sent)
  {
    var data := s.problems[0];
    assert ClientManaged(s.clients[0], 0, s.problems);
    assert Ready(g, Done(data), c) && b in Done(data);
    assert WasSent(s.clients, s.problems, TaskKey(0, b));
  }

  /** The first request of all goes out together with a's. */
  lemma SendKeepsFirst(s: Cluster, g: Graph, a: TaskId, keys': seq<TaskKey>)
    requires Books(s, g) && IsOpen(g, a) && SentGood(s.clients, AfterSendAll(s.problems), keys')
    ensures keys' != [] ==> TaskKey(0, a) in keys'
  {
    if keys' != [] {
      assert keys'[0] in keys' && WasSent(s.clients, AfterSendAll(s.problems), keys'[0]);
      AfterSendIsSent(s, g, a);
    }
  }

  lemma AfterGrows(keys: seq<TaskKey>, ks: seq<TaskKey>, a: TaskId, c: TaskId)
    requires After(keys, a, c) && (TaskKey(0, c) in ks ==> TaskKey(0, a) in keys) && (keys + ks != [] ==> TaskKey(0, a) in keys + ks)
    ensures After(keys + ks, a, c)
  {
    var keys' := keys + ks;
    forall j | 0 <= j < |keys'| && keys'[j] == TaskKey(0, c)
      ensures TaskKey(0, a) in keys'[..j]
    {
      if j < |keys| {
        assert keys'[..j] == keys[..j];
      } else {
        assert keys'[j] in ks && keys'[..j] == keys + ks[..j - |keys|];
      }
    }
  }

  lemma SendKeepsAfter(s: Cluster, g: Graph, a: TaskId, b: TaskId, c: TaskId, ks: seq<TaskKey>, tasks: seq<Task>)
    requires Books(s, g) && Staged(g, a, b, c) && After(Keys(s.sent), a, c)
    requires IsPass(s.problems, ks) && AreRequests(s.problems, ks, tasks)
    requires SentGood(s.clients, AfterSendAll(s.problems), Keys(s.sent + tasks))
    ensures After(Keys(s.sent + tasks), a, c)
  {
    assert Keys(s.sent + tasks) == Keys(s.sent) + ks;
    SendKeepsFirst(s, g, a, Keys(s.sent + tasks));
    if TaskKey(0, c) in ks {
      ThenIsSent(s, g, a, b, c);
    }
    AfterGrows(Keys(s.sent), ks, a, c);
  }

  lemma {:induction false} RunKeepsAfter(drain: Drain, world: World, run: seq<Action>, s: Cluster, ast: Expr, a: TaskId, b: TaskId, c: TaskId)
    requires Run(drain, world, run) == Some(s) && Single(s.clients, ast) && Staged(DagOf(ast), a, b, c)
    ensures After(Keys(s.sent), a, c)
    decreases |run|
  {
    if run != [] {
      var front, act := run[..|run| - 1], run[|run| - 1];
      var s1 := Run(drain, world, front).value;
      SingleBefore(drain, world, s1, act, ast);
      RunKeepsAfter(drain, world, front, s1, ast, a, b, c);
      if act.Send? {
        SingleBooks(drain, world, front, s1, ast);
        RunIsManaged(drain, world, run);
        SendKeepsAfter(s1, DagOf(ast), a, b, c, act.ks, act.tasks);
      } else if ByManager(act) {
        ManagerStepFrame(drain, world, s1, act);
      } else {
        OthersLeaveBooks(drain, world, s1, act);
      }
    }
  }

  lemma SingleBefore(drain: Drain, world: World, s: Cluster, a: Action, ast: Expr)
    requires Enabled(world, s, a) && Single(Next(drain, world, s, a).clients, ast)
    ensures Single(s.clients, ast)
  {
    StepFrame(drain, world, s, a);
    assert forall p :: 0 <= p < |s.clients| ==> SameClient(s.clients[p], Next(drain, world, s, a).clients[p]);
  }

  lemma SingleBooks(drain: Drain, world: World, run: seq<Action>, s: Cluster, ast: Expr)
    requires Run(drain, world, run) == Some(s) && Single(s.clients, ast)
    ensures Books(s, DagOf(ast))
  {
    RunIsManaged(drain, world, run);
    if s.clients != [] {
      GraphIsDag(drain, world, run, 0);
    }
  }

  // ---------- at most two at once ----------

  /** If c has been answered, a has. */
  lemma AnsweredBefore(s: Cluster, a: TaskId, c: TaskId)
    requires After(Keys(s.sent), a, c) && s.seen <= |s.broker.replied| <= |s.sent|
    requires s.broker.replied == Keys(s.sent)[..|s.broker.replied|]
    ensures TaskKey(0, c) in ReceivedKeys(s) ==> TaskKey(0, a) in ReceivedKeys(s)
  {
    var keys := Keys(s.sent);
    assert ReceivedKeys(s) == keys[..s.seen];
    if TaskKey(0, c) in keys[..s.seen] {
      var j :| 0 <= j < s.seen && keys[j] == TaskKey(0, c);
      assert TaskKey(0, a) in keys[..j];
      assert keys[..j] == keys[..s.seen][..j];
    }
  }

  lemma FewRunning(world: World, s: Cluster, where: Where, g: Graph, a: TaskId, b: TaskId, c: TaskId)
    requires Good(world, s, where) && Books(s, g) && Staged(g, a, b, c) && 0 in s.problems
    requires TaskKey(0, c) in ReceivedKeys(s) ==> TaskKey(0, a) in ReceivedKeys(s)
    ensures |Running(s.problems[0])| <= 2
  {
    var data := s.problems[0];
    assert ClientManaged(s.clients[0], 0, s.problems);
    RunningIsIndependent(data);
    forall d | d in Running(data) && Uses(g, d, c)
      ensures a in Done(data)
    {
      assert Ready(g, Done(data), d);
      assert WasCompleted(s.clients, s.problems, TaskKey(0, c));
      assert WasCompleted(s.clients, s.problems, TaskKey(0, a));
    }
  }

  lemma FewOutstanding(world: World, s: Cluster, where: Where, g: Graph, a: TaskId, b: TaskId, c: TaskId)
    requires Good(world, s, where) && Books(s, g) && Staged(g, a, b, c)
    requires TaskKey(0, c) in ReceivedKeys(s) ==> TaskKey(0, a) in ReceivedKeys(s)
    ensures |where.Keys| <= 2
  {
    if k :| k in where {
      LiveIsRunning(world, s, where, k);
      FewRunning(world, s, where, g, a, b, c);
      forall q | q in where
        ensures q in KeysOf(0, Running(s.problems[0]))
      {
        LiveIsRunning(world, s, where, q);
      }
      KeysOfSize(0, Running(s.problems[0]));
      Smaller(where.Keys, KeysOf(0, Running(s.problems[0])));
    }
  }

  lemma LiveIsRunning(world: World, s: Cluster, where: Where, k: TaskKey)
    requires Good(world, s, where) && |s.clients| <= 1 && k in where
    ensures 0 in s.problems && k in KeysOf(0, Running(s.problems[0]))
  {
    LiveTask(world, DeskOf(s), where.Keys, Past(where), k);
    assert k == TaskKey(0, k.task);
  }

  lemma StagedDrainIsHarmless(world: World, run: seq<Action>, s: Cluster, act: Action, ast: Expr, a: TaskId, b: TaskId, c: TaskId)
    requires Reached(AsWritten, world, run, s) && Alone(s.workers) && Single(s.clients, ast) && Staged(DagOf(ast), a, b, c)
    ensures Harmless(AsWritten, s, act)
  {
    if s.broker.queue != [] {
      var where := RunKeeps(AsWritten, world, run, s);
      SingleBooks(AsWritten, world, run, s, ast);
      RunKeepsAfter(AsWritten, world, run, s, ast, a, b, c);
      AnswersInOrder(AsWritten, world, run, s);
      AnsweredBefore(s, a, c);
      FewOutstanding(world, s, where, DagOf(ast), a, b, c);
      QueueIsShort(world, run, s, where);
    }
  }

  lemma QueueIsShort(world: World, run: seq<Action>, s: Cluster, where: Where)
    requires Run(AsWritten, world, run) == Some(s) && Good(world, s, where) && Alone(s.workers) && s.broker.queue != [] && |where.Keys| <= 2
    ensures |s.broker.queue| == 1
  {
    RunServes(AsWritten, world, run);
    RunFits(AsWritten, world, run);
    var w: WorkerId :| IsFull(s.broker, w);
    assert w < |s.workers|;
    QueueTakesMore(world, s, where, w);
  }

  /** A staged problem alone on one worker with two cores: the code as written loses no task. */
  lemma {:induction false} StagedLosesNothing(world: World, run: seq<Action>, s: Cluster, ast: Expr, a: TaskId, b: TaskId, c: TaskId)
    requires Run(AsWritten, world, run) == Some(s) && Alone(s.workers) && Single(s.clients, ast) && Staged(DagOf(ast), a, b, c)
    ensures DrainsSingly(world, run)
    decreases |run|
  {
    if run != [] {
      var front, act := run[..|run| - 1], run[|run| - 1];
      var s1 := Run(AsWritten, world, front).value;
      AloneBefore(AsWritten, world, s1, act);
      SingleBefore(AsWritten, world, s1, act, ast);
      StagedLosesNothing(world, front, s1, ast, a, b, c);
      StagedDrainIsHarmless(world, front, s1, act, ast, a, b, c);
    }
  }

  // ---------- an example ----------

  /** ((x+x+x)+x + (x+x+x)*x) + x*x and its subtrees, operands first. */
  ghost predicate IsExample(r: seq<Expr>) {
    && |r| == 8 && r[0] == ScalarVarExpr("x")
    && r[1] == ScalarOpExpr(SAdd, r[0], r[0]) && r[2] == ScalarOpExpr(SAdd, r[1], r[0])
    && r[3] == ScalarOpExpr(SAdd, r[2], r[0]) && r[4] == ScalarOpExpr(SMul, r[2], r[0]) && r[5] == ScalarOpExpr(SAdd, r[3], r[4])
    && r[6] == ScalarOpExpr(SMul, r[0], r[0]) && r[7] == ScalarOpExpr(SAdd, r[5], r[6])
  }

  lemma WalkOp(records: seq<Expr>, t: ScalarOpType, l: Expr, r: Expr, mid: seq<Expr>)
    requires Walk(Walk(records, l), r) == mid
    ensures Walk(records, ScalarOpExpr(t, l, r)) == Record(mid, ScalarOpExpr(t, l, r))
  {
  }

  lemma WalkVariable(records: seq<Expr>, x: Expr)
    requires x.ScalarVarExpr?
    ensures Walk(records, x) == Record(records, x)
  {
  }

  /** What has been recorded with its subtrees is walked without effect. */
  lemma FirstRecords(r: seq<Expr>, records: seq<Expr>)
    requires IsExample(r)
    ensures Walk([], r[1]) == [r[0], r[1]]
    ensures r[0] in records && r[1] in records ==> Walk(records, r[1]) == records
  {
    WalkVariable([], r[0]);
    WalkVariable([r[0]], r[0]);
    WalkOp([], SAdd, r[0], r[0], [r[0]]);
    if r[0] in records {
      WalkVariable(records, r[0]);
      WalkOp(records, SAdd, r[0], r[0], records);
    }
  }

  lemma SecondRecords(r: seq<Expr>, records: seq<Expr>)
    requires IsExample(r)
    ensures Walk([], r[2]) == [r[0], r[1], r[2]]
    ensures r[0] in records && r[1] in records && r[2] in records ==> Walk(records, r[2]) == records
  {
    FirstRecords(r, records);
    WalkVariable([r[0], r[1]], r[0]);
    WalkOp([], SAdd, r[1], r[0], [r[0], r[1]]);
    if r[0] in records && r[1] in records {
      WalkVariable(records, r[0]);
      WalkOp(records, SAdd, r[1], r[0], records);
    }
  }

  lemma LeftRecords(r: seq<Expr>)
    requires IsExample(r)
    ensures Walk([], r[3]) == r[..4]
  {
    SecondRecords(r, []);
    assert r[..3] == [r[0], r[1], r[2]] && r[..3][0] == r[0] && r[..4] == r[..3] + [r[3]];
    WalkVariable(r[..3], r[0]);
    WalkOp([], SAdd, r[2], r[0], r[..3]);
  }

  lemma RightRecords(r: seq<Expr>)
    requires IsExample(r)
    ensures Walk(r[..4], r[4]) == r[..5]
  {
    assert r[..4][0] == r[0] && r[..4][1] == r[1] && r[..4][2] == r[2] && r[..5] == r[..4] + [r[4]];
    SecondRecords(r, r[..4]);
    WalkVariable(r[..4], r[0]);
    WalkOp(r[..4], SMul, r[2], r[0], r[..4]);
  }

  lemma EarlyRecords(r: seq<Expr>)
    requires IsExample(r) && r[6] !in r[..6]
    ensures Walk(r[..6], r[6]) == r[..7]
  {
    assert r[..6][0] == r[0] && r[..7] == r[..6] + [r[6]];
    WalkVariable(r[..6], r[0]);
    WalkOp(r[..6], SMul, r[0], r[0], r[..6]);
  }

  lemma ExampleDistinct(r: seq<Expr>)
    requires IsExample(r)
    ensures r[5] !in r[..5] && r[6] !in r[..6] && r[7] !in r[..7]
  {
    assert r[6].lhs != r[2].lhs && r[6].rhs != r[5].rhs && r[6] != r[4];
    forall j | 0 <= j < 7
      ensures r[j] != r[7] && (j < 5 ==> r[j] != r[5])
    {
      assert j != 0 && j != 5 ==> r[j].rhs == r[0];
    }
  }

  lemma LastRecord(r: seq<Expr>, n: nat, l: Expr, o: Expr)
    requires n < |r| && r[n] == ScalarOpExpr(SAdd, l, o) && r[n] !in r[..n] && Walk(Walk([], l), o) == r[..n]
    ensures Walk([], r[n]) == r[..n + 1]
  {
    assert r[..n + 1] == r[..n] + [r[n]];
    WalkOp([], SAdd, l, o, r[..n]);
  }

  lemma ExampleRecords(r: seq<Expr>)
    requires IsExample(r)
    ensures Records(r[7]) == r
  {
    ExampleDistinct(r);
    LeftRecords(r);
    RightRecords(r);
    LastRecord(r, 5, r[3], r[4]);
    EarlyRecords(r);
    LastRecord(r, 7, r[5], r[6]);
    assert r[..8] == r;
  }

  /** Vertex v of the graph is the v-th record, and its edges lead to the records of its operands. */
  lemma VertexIsRecord(ast: Expr, v: TaskId)
    requires v < |Records(ast)|
    ensures IsOperation(DagOf(ast), v) <==> !IsVariable(GetType(Records(ast)[v]))
    ensures |DagOf(ast).edges[v]| == |Operands(Records(ast)[v])|
    ensures forall u :: 0 <= u < |Records(ast)| ==> (Uses(DagOf(ast), v, u) <==> Records(ast)[u] in Operands(Records(ast)[v]))
  {
    var g, records := DagOf(ast), Records(ast);
    EdgeIsOperand(g, records, ast, v);
    forall u | 0 <= u < |records|
      ensures Uses(g, v, u) <==> records[u] in Operands(records[v])
    {
      if records[u] in Operands(records[v]) {
        var k :| 0 <= k < |Operands(records[v])| && Operands(records[v])[k] == records[u];
        assert g.edges[v][k] == u;
      }
    }
  }

  lemma OperandUses(ast: Expr, v: TaskId, u: TaskId, e: Expr, o: Expr)
    requires v < |Records(ast)| && u < |Records(ast)| && Records(ast)[v] == e && Records(ast)[u] == o && o in Operands(e)
    ensures Uses(DagOf(ast), v, u)
  {
    VertexIsRecord(ast, v);
  }

  lemma OpenOperation(ast: Expr, v: TaskId, e: Expr)
    requires v < |Records(ast)| && Records(ast)[v] == e && Shallow(e)
    ensures IsOpen(DagOf(ast), v)
  {
    var g, records := DagOf(ast), Records(ast);
    VertexIsRecord(ast, v);
    EdgeIsOperand(g, records, ast, v);
    forall k | 0 <= k < |g.edges[v]|
      ensures !IsOperation(g, g.edges[v][k])
    {
      VertexIsRecord(ast, g.edges[v][k]);
    }
  }

  /** Numbers 1 and 6 are operations on variables; 2 uses 1, 3 and 4 use 2, 5 uses 3 and 7 uses 5. */
  ghost predicate InStages(r: seq<Expr>) {
    && |r| == 8 && IsVariable(GetType(r[0])) && Shallow(r[1]) && Shallow(r[6])
    && r[1] in Operands(r[2]) && r[2] in Operands(r[3]) && r[2] in Operands(r[4]) && r[3] in Operands(r[5]) && r[5] in Operands(r[7])
    && forall v, o :: v in {3, 4, 6} && o in Operands(r[v]) ==> o == r[0] || o == r[2]
  }

  lemma ExampleInStages(r: seq<Expr>)
    requires IsExample(r)
    ensures InStages(r)
  {
    assert Operands(r[2])[0] == r[1] && Operands(r[3])[0] == r[2] && Operands(r[4])[0] == r[2];
    assert Operands(r[5])[0] == r[3] && Operands(r[7])[0] == r[5];
  }

  lemma StagingEdges(ast: Expr, r: seq<Expr>)
    requires Records(ast) == r && InStages(r)
    ensures var g := DagOf(ast);
            && |g.vertices| == 8 && !IsOperation(g, 0) && IsOpen(g, 1) && IsOpen(g, 6)
            && Uses(g, 2, 1) && Uses(g, 3, 2) && Uses(g, 4, 2) && Uses(g, 5, 3) && Uses(g, 7, 5)
  {
    OperandUses(ast, 2, 1, r[2], r[1]);
    OperandUses(ast, 3, 2, r[3], r[2]);
    OperandUses(ast, 4, 2, r[4], r[2]);
    OperandUses(ast, 5, 3, r[5], r[3]);
    OperandUses(ast, 7, 5, r[7], r[5]);
    VertexIsRecord(ast, 0);
    OpenOperation(ast, 1, r[1]);
    OpenOperation(ast, 6, r[6]);
  }

  // ---------- its independent operations ----------

  lemma UnderStep(g: Graph, v: TaskId, u: TaskId, w: TaskId)
    requires WellNumbered(g) && v < |g.vertices| && u < |g.vertices| && (v == u || Under(g, v, u)) && Uses(g, u, w)
    ensures Under(g, v, w)
  {
    var k :| 0 <= k < |g.edges[u]| && g.edges[u][k] == w;
    if v == u {
      PathStep(g, v, [], k);
    } else {
      var path :| path != [] && VertexAt(g, v, path) == Some(u);
      PathStep(g, v, path, k);
    }
  }

  lemma PathStep(g: Graph, v: TaskId, path: seq<nat>, k: nat)
    requires WellNumbered(g) && v < |g.vertices| && VertexAt(g, v, path).Some? && k < |g.edges[VertexAt(g, v, path).value]|
    ensures VertexAt(g, v, path + [k]) == Some(g.edges[VertexAt(g, v, path).value][k])
  {
    assert (path + [k])[..|path|] == path;
  }

  /** Along a chain of uses each is above the later ones. */
  lemma {:induction false} ChainIsUnder(g: Graph, chain: seq<TaskId>, i: nat, j: nat)
    requires WellNumbered(g) && i < j < |chain|
    requires forall n :: 0 <= n < |chain| ==> chain[n] < |g.vertices|
    requires forall n {:trigger chain[n]} :: 0 < n < |chain| ==> Uses(g, chain[n - 1], chain[n])
    ensures Under(g, chain[i], chain[j])
  {
    if i < j - 1 {
      ChainIsUnder(g, chain, i, j - 1);
    }
    UnderStep(g, chain[i], chain[j - 1], chain[j]);
  }

  lemma OneOfChain(g: Graph, chain: seq<TaskId>, ts: set<TaskId>)
    requires WellNumbered(g) && Independent(g, ts)
    requires forall n :: 0 <= n < |chain| ==> chain[n] < |g.vertices|
    requires forall n {:trigger chain[n]} :: 0 < n < |chain| ==> Uses(g, chain[n - 1], chain[n])
    requires forall t :: t in ts ==> t in chain
    ensures |ts| <= 1
  {
    if t :| t in ts {
      forall u | u in ts
        ensures u == t
      {
        var i, j :| 0 <= i < |chain| && 0 <= j < |chain| && chain[i] == t && chain[j] == u;
        if i < j {
          ChainIsUnder(g, chain, i, j);
        } else if j < i {
          ChainIsUnder(g, chain, j, i);
        }
      }
      assert ts == {t};
    }
  }

  lemma StagingIsStaged(ast: Expr, r: seq<Expr>)
    requires Records(ast) == r && InStages(r)
    ensures Staged(DagOf(ast), 6, 1, 2)
  {
    StagingEdges(ast, r);
    forall ts: set<TaskId> | Independent(DagOf(ast), ts) && |ts| >= 3
      ensures 6 in ts && exists d :: d in ts && Uses(DagOf(ast), d, 2)
    {
      ThreeIndependent(DagOf(ast), ts);
      assert 4 in ts;
    }
  }

  lemma ThreeIndependent(g: Graph, ts: set<TaskId>)
    requires WellNumbered(g) && |g.vertices| == 8 && !IsOperation(g, 0)
    requires Uses(g, 2, 1) && Uses(g, 3, 2) && Uses(g, 5, 3) && Uses(g, 7, 5)
    requires Independent(g, ts) && |ts| >= 3
    ensures 4 in ts && 6 in ts
  {
    var chain: seq<TaskId> := [7, 5, 3, 2, 1];
    forall t | t in ts - {4, 6}
      ensures t in chain
    {
      assert t < 8 && t != 0;
      assert chain[0] == 7 && chain[1] == 5 && chain[2] == 3 && chain[3] == 2 && chain[4] == 1;
    }
    OneOfChain(g, chain, ts - {4, 6});
    ThreeParts(ts, 4, 6);
  }

  lemma {:induction false} BelowEdges(g: Graph, v: TaskId, path: seq<nat>, m: nat)
    requires WellNumbered(g) && v < |g.vertices| && path != [] && VertexAt(g, v, path).Some?
    requires forall k :: 0 <= k < |g.edges[v]| ==> g.edges[v][k] <= m
    ensures VertexAt(g, v, path).value <= m
    decreases |path|
  {
    var front := path[..|path| - 1];
    if front != [] {
      BelowEdges(g, v, front, m);
      assert AllBelow(g.edges[VertexAt(g, v, front).value], VertexAt(g, v, front).value);
    }
  }

  /** An operation on the first three records only. */
  lemma EarlyEdges(ast: Expr, r: seq<Expr>, v: TaskId)
    requires Records(ast) == r && |r| > 3 && v < |r| && forall o :: o in Operands(r[v]) ==> o == r[0] || o == r[1] || o == r[2]
    ensures forall k :: 0 <= k < |DagOf(ast).edges[v]| ==> DagOf(ast).edges[v][k] <= 2
  {
    var g := DagOf(ast);
    EdgeIsOperand(g, r, ast, v);
    forall k | 0 <= k < |g.edges[v]|
      ensures g.edges[v][k] <= 2
    {
      assert r[g.edges[v][k]] in Operands(r[v]);
    }
  }

  lemma NothingAbove(ast: Expr, r: seq<Expr>, t: TaskId)
    requires Records(ast) == r && |r| > 3 && t < |r| && Operands(r[t]) != [] && forall o :: o in Operands(r[t]) ==> o == r[0] || o == r[1] || o == r[2]
    ensures IsOperation(DagOf(ast), t) && forall u :: u >= 3 ==> !Under(DagOf(ast), t, u)
  {
    var g := DagOf(ast);
    VertexIsRecord(ast, t);
    EarlyEdges(ast, r, t);
    forall u, path: seq<nat> | u >= 3 && path != []
      ensures VertexAt(g, t, path) != Some(u)
    {
      if VertexAt(g, t, path).Some? {
        BelowEdges(g, t, path, 2);
      }
    }
  }

  lemma StagingIsWide(ast: Expr, r: seq<Expr>)
    requires Records(ast) == r && InStages(r)
    ensures Independent(DagOf(ast), {3, 4, 6}) && !Narrow(DagOf(ast), 2)
  {
    var ts: set<TaskId> := {3, 4, 6};
    NothingAbove(ast, r, 3);
    NothingAbove(ast, r, 4);
    NothingAbove(ast, r, 6);
    assert Independent(DagOf(ast), ts) && |ts| == 3;
  }

  lemma ThreeParts(ts: set<TaskId>, t: TaskId, u: TaskId)
    requires |ts| >= 3 && |ts - {t, u}| <= 1
    ensures t in ts && u in ts
  {
    assert ts == (ts - {t, u}) + (ts * {t, u});
    Smaller(ts * {t, u}, {t, u});
    if t !in ts {
      Smaller(ts * {t, u}, {u});
    } else if u !in ts {
      Smaller(ts * {t, u}, {t});
    }
  }

  lemma SomeExample() returns (r: seq<Expr>)
    ensures IsExample(r)
  {
    var x := ScalarVarExpr("x");
    var first := ScalarOpExpr(SAdd, x, x);
    var second := ScalarOpExpr(SAdd, first, x);
    var left, right := ScalarOpExpr(SAdd, second, x), ScalarOpExpr(SMul, second, x);
    var both, early := ScalarOpExpr(SAdd, left, right), ScalarOpExpr(SMul, x, x);
    r := [x, first, second, left, right, both, early, ScalarOpExpr(SAdd, both, early)];
  }

  lemma LoadIsAlone(world: World, ast: Expr, run: seq<Action>, s: Cluster)
    requires Loads(world, [2], [ast], run, s)
    ensures Alone(s.workers) && Single(s.clients, ast)
  {
    assert [2][0] == 2 && [ast][0] == ast;
  }

  lemma StagedLoad(world: World, r: seq<Expr>, ast: Expr, run: seq<Action>, s: Cluster)
    requires Records(ast) == r && InStages(r) && Loads(world, [2], [ast], run, s)
    ensures DrainsSingly(world, run)
  {
    StagingIsStaged(ast, r);
    LoadIsAlone(world, ast, run, s);
    StagedLosesNothing(world, run, s, ast, 6, 1, 2);
  }

  lemma SomeStaged() returns (ast: Expr, r: seq<Expr>)
    ensures Records(ast) == r && InStages(r) && NoConstants(ast)
  {
    r := SomeExample();
    ast := r[7];
    ExampleRecords(r);
    ExampleInStages(r);
    assert NoConstants(r[1]) && NoConstants(r[2]) && NoConstants(r[5]);
  }

  /** A problem with three independent operations, alone on a worker with two cores: no run of the code
      as written loses a task. */
  lemma WidthIsNotNeeded(world: World) returns (ast: Expr)
    ensures NoConstants(ast) && !Narrow(DagOf(ast), 2)
    ensures forall run, s :: Loads(world, [2], [ast], run, s) ==> DrainsSingly(world, run)
  {
    var r;
    ast, r := SomeStaged();
    StagingIsWide(ast, r);
    forall run, s | Loads(world, [2], [ast], run, s)
      ensures DrainsSingly(world, run)
    {
      StagedLoad(world, r, ast, run, s);
    }
  }
}
