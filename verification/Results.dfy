/** The guarantees of the composed system.

    That answers are right holds in every run of either drain. The others hold for a first-in
    first-out drain in every run, and for the drain as written in every run whose drains each find
    one task queued (see LostTasks for the other runs).
 */
module Results {
  import opened Domain
  import opened Expression
  import opened Meaning
  import opened ValueNumbering
  import opened Sharing
  import opened Decomposition
  import opened Dispatch
  import opened Frontier
  import opened Broker
  import opened Worker
  import opened Places
  import opened Pipeline
  import opened Cluster
  import opened Desk
  import opened Log
  import opened Ledger
  import opened Soundness
  import opened Safety

  // ---------- answers ----------

  /** End to end, in every run of either drain: a client that returns, returns the value of its AST. */
  lemma ReturnedValueIsEval(drain: Drain, world: World, run: seq<Action>, s: Cluster, p: ProblemId)
    requires Run(drain, world, run) == Some(s) && p < |s.clients| && s.clients[p].frame.Returned?
    ensures Eval(s.clients[p].ast, world) == Some(s.clients[p].frame.v)
  {
    RunIsSound(drain, world, run);
    assert ClientSound(world, s.clients[p]);
  }

  /** The same for the worker's own operations. */
  lemma ReturnedValueIsWorkersEval(drain: Drain, vars: map<VariableId, Value>, run: seq<Action>, s: Cluster, p: ProblemId)
    requires Run(drain, World(Apply, vars), run) == Some(s) && p < |s.clients| && s.clients[p].frame.Returned?
    ensures Eval(s.clients[p].ast, World(Apply, vars)) == Some(s.clients[p].frame.v)
  {
    ReturnedValueIsEval(drain, World(Apply, vars), run, s, p);
  }

  /** The value returned is the one the client's expression denotes. */
  lemma ReturnedValueIsDenoted(drain: Drain, vars: map<VariableId, Value>, run: seq<Action>, s: Cluster, p: ProblemId)
    requires Run(drain, World(Apply, vars), run) == Some(s) && p < |s.clients| && s.clients[p].frame.Returned?
    ensures Denotes(s.clients[p].ast, vars, s.clients[p].frame.v)
    ensures forall v :: Denotes(s.clients[p].ast, vars, v) ==> v == s.clients[p].frame.v
  {
    ReturnedValueIsWorkersEval(drain, vars, run, s, p);
    EvalDenotes(s.clients[p].ast, vars);
  }

  /** No lookup throws, no record is missing, no reference dangles. */
  lemma NeverCrashes(drain: Drain, world: World, run: seq<Action>, s: Cluster)
    requires Reached(drain, world, run, s)
    ensures !s.crashed
  {
    var where := RunKeeps(drain, world, run, s);
  }

  /** No insert hits an existing key: what a thread is about to compute has no record yet. */
  lemma NoDuplicateInsert(drain: Drain, world: World, run: seq<Action>, s: Cluster, w: WorkerId, i: nat)
    requires Reached(drain, world, run, s) && HasThread(s, w, i) && s.workers[w].threads[i].Reading?
    ensures s.workers[w].threads[i].task.key !in s.store
  {
    var where := RunKeeps(drain, world, run, s);
    var k := s.workers[w].threads[i].task.key;
    HeldTask(world, s, where, w, i);
    assert k !in Past(where);
    NotYetStored(world, DeskOf(s), where.Keys, Past(where), k);
  }

  lemma StepAddsClient(drain: Drain, world: World, s: Cluster, a: Action, p: ProblemId)
    requires Enabled(world, s, a) && |s.clients| <= p < |Next(drain, world, s, a).clients|
    ensures a.Push? && Next(drain, world, s, a).clients[p] == Client(a.ast, Decompositor(DagOf(a.ast), a.order), Waiting(false))
  {
    StepFrame(drain, world, s, a);
  }

  /** A client's graph is the one value numbering builds. */
  lemma {:induction false} GraphIsDag(drain: Drain, world: World, run: seq<Action>, p: ProblemId)
    requires Run(drain, world, run).Some? && p < |Run(drain, world, run).value.clients|
    ensures var c := Run(drain, world, run).value.clients[p]; c.dec.graph == DagOf(c.ast)
  {
    var front, a := run[..|run| - 1], run[|run| - 1];
    var s := Run(drain, world, front).value;
    if p < |s.clients| {
      GraphIsDag(drain, world, front, p);
      StepFrame(drain, world, s, a);
      assert SameClient(s.clients[p], Next(drain, world, s, a).clients[p]);
    } else {
      StepAddsClient(drain, world, s, a, p);
    }
  }

  /** Whatever the schedule and the drain, the record of a task holds the value of its subtree. */
  lemma StoredValueIsEval(drain: Drain, world: World, run: seq<Action>, s: Cluster, k: TaskKey)
    requires Run(drain, world, run) == Some(s) && k in s.store
    ensures k.problem < |s.clients|
    ensures var records := Records(s.clients[k.problem].ast);
            k.task < |records| && Eval(records[k.task], world) == Some(s.store[k])
  {
    RunIsSound(drain, world, run);
    assert ValueOf(world, Plans(s.clients), k) == Some(s.store[k]);
    var c := s.clients[k.problem];
    GraphIsDag(drain, world, run, k.problem);
    VertexValueIsSubtreeValue(c.dec.graph, Records(c.ast), c.ast, k.task, world);
  }

  /** Read after write: a thread at work finds every computed operand in the store, with the value
      of that operand's subtree. */
  lemma OperandsAreStored(drain: Drain, world: World, run: seq<Action>, s: Cluster, w: WorkerId, i: nat, j: nat)
    requires Reached(drain, world, run, s) && HasThread(s, w, i) && s.workers[w].threads[i].Reading?
    requires j < |s.workers[w].threads[i].task.operands| && s.workers[w].threads[i].task.operands[j].DynOperand?
    ensures var k := s.workers[w].threads[i].task.operands[j].key;
            k in s.store && ValueOf(world, Plans(s.clients), k) == Some(s.store[k])
  {
    var where := RunKeeps(drain, world, run, s);
    HeldTask(world, s, where, w, i);
    OperandAvailable(world, DeskOf(s), where.Keys, Past(where), s.workers[w].threads[i].task, j);
  }

  // ---------- the dispatcher ----------

  /** Replies are processed at most once each, only operations are answered, and a client whose AST has
      an operation at its root is past its wait, or flagged to leave it, exactly when all its
      operations have been answered. */
  lemma AnsweredExactlyOnce(drain: Drain, world: World, run: seq<Action>, s: Cluster)
    requires Reached(drain, world, run, s)
    ensures s.seen <= |s.broker.replied| && Distinct(s.broker.replied)
    ensures forall k :: k in s.broker.replied[..s.seen] ==> k.problem < |s.clients| && IsOperation(s.clients[k.problem].dec.graph, k.task)
    ensures forall p :: 0 <= p < |s.clients| && !IsVariable(GetType(s.clients[p].ast)) ==>
              (s.clients[p].frame != Waiting(false) <==> AllAnswered(s, p))
  {
    var where := RunKeeps(drain, world, run, s);
    RepliesAreDistinct(world, s, where);
    forall k: TaskKey
      ensures k in s.broker.replied[..s.seen] <==> WasCompleted(s.clients, s.problems, k)
    {
    }
    forall p | 0 <= p < |s.clients| && !IsVariable(GetType(s.clients[p].ast))
      ensures s.clients[p].frame != Waiting(false) <==> AllAnswered(s, p)
    {
      AnsweredIff(world, s, where, p);
    }
  }

  /** The replies to all operations of problem p have been processed. */
  ghost predicate AllAnswered(s: Cluster, p: ProblemId)
    requires p < |s.clients| && s.seen <= |s.broker.replied|
  {
    forall t :: IsOperation(s.clients[p].dec.graph, t) ==> TaskKey(p, t) in s.broker.replied[..s.seen]
  }

  lemma AnsweredIff(world: World, s: Cluster, where: Where, p: ProblemId)
    requires Good(world, s, where) && p < |s.clients| && !IsVariable(GetType(s.clients[p].ast))
    ensures s.clients[p].frame != Waiting(false) <==> AllAnswered(s, p)
  {
    var c := s.clients[p];
    assert ClientGood(world, c, p, s.problems, where.Keys);
    forall t
      ensures TaskKey(p, t) in s.broker.replied[..s.seen] <==> WasCompleted(s.clients, s.problems, TaskKey(p, t))
    {
    }
    if c.frame == Waiting(true) {
      ComputedIsOver(world, c, p, s.problems, where.Keys);
    } else if c.frame == Waiting(false) {
      var root := Root(c.dec.graph);
      assert IsOperation(c.dec.graph, root);
      assert !WasCompleted(s.clients, s.problems, TaskKey(p, root));
    }
  }

  lemma RepliesAreDistinct(world: World, s: Cluster, where: Where)
    requires Good(world, s, where)
    ensures Distinct(s.broker.replied)
  {
    var a, b := s.broker.replied[..s.seen], s.broker.replied[s.seen..];
    forall k | k in b
      ensures k !in a
    {
      LiveTask(world, DeskOf(s), where.Keys, Past(where), k);
      assert !WasCompleted(s.clients, s.problems, k);
    }
    DistinctHalves(s.broker.replied, s.seen);
  }

  lemma DistinctHalves(ks: seq<TaskKey>, n: nat)
    requires n <= |ks| && Distinct(ks[..n]) && Distinct(ks[n..]) && forall k :: k in ks[n..] ==> k !in ks[..n]
    ensures Distinct(ks)
  {
    forall i, j | 0 <= i < j < |ks|
      ensures ks[i] != ks[j]
    {
      if j < n {
        assert ks[..n][i] == ks[i] && ks[..n][j] == ks[j];
      } else if i < n {
        assert ks[n..][j - n] == ks[j] && ks[..n][i] == ks[i];
        assert ks[j] in ks[n..] && ks[i] in ks[..n];
      } else {
        assert ks[n..][i - n] == ks[i] && ks[n..][j - n] == ks[j];
      }
    }
  }

  // ---------- conservation ----------

  predicate AtThread(t: Thread, k: TaskKey) {
    !t.Idle? && t.task.key == k
  }

  ghost predicate AtThreads(threads: seq<Thread>, k: TaskKey) {
    exists i :: 0 <= i < |threads| && AtThread(threads[i], k)
  }

  ghost predicate AtWorker(published: seq<WorkerTask>, s: WorkerState, w: WorkerId, k: TaskKey) {
    || k in Keys(Mine(published, s.cursor, w))
    || k in Keys(s.pending)
    || AtThreads(s.threads, k)
    || k in s.finished
    || k in DoneKeys(s.outbox)
  }

  ghost predicate AtSomeWorker(published: seq<WorkerTask>, workers: seq<WorkerState>, k: TaskKey) {
    exists w :: 0 <= w < |workers| && AtWorker(published, workers[w], w, k)
  }

  /** Some message or queue between the dispatcher's request and its receipt of the reply names k. */
  ghost predicate InFlight(s: Cluster, k: TaskKey) {
    || (s.taken <= |s.sent| && k in Keys(s.sent[s.taken..]))
    || k in Keys(s.broker.queue)
    || AtSomeWorker(s.broker.published, s.workers, k)
    || (s.seen <= |s.broker.replied| && k in s.broker.replied[s.seen..])
  }

  lemma AtThreadsHasPlace(threads: seq<Thread>, where: Where, w: WorkerId, k: TaskKey)
    requires AtThreads(threads, k)
    requires forall i {:trigger ThreadHolds(threads[i], where, w, i)} :: 0 <= i < |threads| ==> ThreadHolds(threads[i], where, w, i)
    ensures k in where && At(where[k]) == w
  {
    var i :| 0 <= i < |threads| && AtThread(threads[i], k);
    assert ThreadHolds(threads[i], where, w, i);
    assert k in ReadingKeys(threads[i]) || k in ReportingKeys(threads[i]);
  }

  lemma AtWorkerHasPlace(world: World, s: Cluster, where: Where, w: WorkerId, k: TaskKey)
    requires Good(world, s, where) && w < |s.workers| && AtWorker(s.broker.published, s.workers[w], w, k)
    ensures k in where && At(where[k]) == w
  {
    assert WorkerGood(world, Plans(s.clients), s.broker, s.workers[w], where, w);
    if AtThreads(s.workers[w].threads, k) {
      AtThreadsHasPlace(s.workers[w].threads, where, w, k);
    }
  }

  lemma InFlightHasPlace(world: World, s: Cluster, where: Where, k: TaskKey)
    requires Good(world, s, where) && InFlight(s, k)
    ensures k in where
  {
    if AtSomeWorker(s.broker.published, s.workers, k) {
      var w :| 0 <= w < |s.workers| && AtWorker(s.broker.published, s.workers[w], w, k);
      AtWorkerHasPlace(world, s, where, w, k);
    }
  }

  lemma PlaceIsInFlight(world: World, s: Cluster, where: Where, k: TaskKey)
    requires Good(world, s, where) && k in where
    ensures InFlight(s, k)
  {
    var place := where[k];
    assert Exists(s.workers, place);
    if At(place) >= 0 {
      var w := At(place);
      assert WorkerGood(world, Plans(s.clients), s.broker, s.workers[w], where, w);
      if place.OnThread? || place.Stored? {
        assert ThreadHolds(s.workers[w].threads[place.i], where, w, place.i);
        assert AtThread(s.workers[w].threads[place.i], k);
      }
      assert AtWorker(s.broker.published, s.workers[w], w, k);
    }
  }

  /** Conservation: the tasks under way are those requested whose reply is not processed; each is in
      exactly one place and listed there once. */
  lemma EveryTaskInOnePlace(drain: Drain, world: World, run: seq<Action>, s: Cluster) returns (where: Where)
    requires Reached(drain, world, run, s)
    ensures PipeGood(world, Plans(s.clients), PipeOf(s), where)
    ensures forall k :: k in where <==> InFlight(s, k)
    ensures forall k :: k in where <==> k in Keys(s.sent) && k !in s.broker.replied[..s.seen]
  {
    where := RunKeeps(drain, world, run, s);
    RunIsManaged(drain, world, run);
    forall k: TaskKey
      ensures k in where <==> InFlight(s, k)
      ensures k in where <==> k in Keys(s.sent) && k !in s.broker.replied[..s.seen]
    {
      if InFlight(s, k) {
        InFlightHasPlace(world, s, where, k);
      }
      if k in where {
        PlaceIsInFlight(world, s, where, k);
        LiveIsOperation(world, s, where, k);
        LiveTask(world, DeskOf(s), where.Keys, Past(where), k);
      }
      if k in Keys(s.sent) && k !in s.broker.replied[..s.seen] {
        SentIsLiveOrDone(world, s, where, k);
      }
      assert k in Keys(s.sent) <==> WasSent(s.clients, s.problems, k);
      assert k in s.broker.replied[..s.seen] <==> WasCompleted(s.clients, s.problems, k);
    }
  }

  lemma SentIsLiveOrDone(world: World, s: Cluster, where: Where, k: TaskKey)
    requires Good(world, s, where) && WasSent(s.clients, s.problems, k) && !WasCompleted(s.clients, s.problems, k)
    ensures k in where
  {
    assert ClientGood(world, s.clients[k.problem], k.problem, s.problems, where.Keys);
    assert k.task in Running(s.problems[k.problem]);
    assert TaskKey(k.problem, k.task) == k;
  }

  /** The root finishes last: when its reply is next to be processed every other task of the problem
      is completed and nothing else of the problem is in flight. */
  lemma RootRepliesLast(drain: Drain, world: World, run: seq<Action>, s: Cluster)
    requires Reached(drain, world, run, s) && s.seen < |s.broker.replied|
    ensures var k := s.broker.replied[s.seen];
            && k.problem in s.problems && k.problem in s.sync && k.task in s.problems[k.problem].status
            && (IsLast(s.problems[k.problem], k.task) ==>
                  && (forall t: TaskId :: t < |s.problems[k.problem].dec.graph.vertices| && t != k.task ==>
                        t in With(s.problems[k.problem].status, Completed))
                  && (forall q :: InFlight(s, q) && q.problem == k.problem ==> q == k))
  {
    var where := RunKeeps(drain, world, run, s);
    var k := s.broker.replied[s.seen];
    assert k in s.broker.replied[s.seen..] by { assert s.broker.replied[s.seen..][0] == k; }
    LiveTask(world, DeskOf(s), where.Keys, Past(where), k);
    var c := s.problems[k.problem];
    if IsLast(c, k.task) {
      RootFinishesLast(c);
      forall q | InFlight(s, q) && q.problem == k.problem
        ensures q == k
      {
        InFlightHasPlace(world, s, where, q);
        LiveTask(world, DeskOf(s), where.Keys, Past(where), q);
      }
    }
  }
}
