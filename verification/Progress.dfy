/** Progress: while a problem with an operation at its root is unanswered some step that does something
    is possible, so the system comes to rest with every such problem answered; for the drain as
    written exactly if no drain of the run lost a task.
 */
module Progress {
  import opened Domain
  import opened Expression
  import opened ValueNumbering
  import opened Sharing
  import opened Decomposition
  import opened Dispatch
  import opened Frontier
  import opened Broker
  import opened Worker
  import opened Places
  import opened Pipeline
  import opened Cluster
  import opened Desk
  import opened Capacity
  import opened Soundness
  import opened Termination
  import opened AllRuns
  import opened Safety
  import opened Results
  import opened LostTasks

  /** There are workers, and each has a core. */
  ghost predicate Staffed(s: Cluster) {
    s.workers != [] && forall w :: 0 <= w < |s.workers| ==> 1 <= s.workers[w].cores <= UINT32
  }

  /** Every worker offers at least one core. */
  ghost predicate Equipped(workers: seq<WorkerState>) {
    forall w :: 0 <= w < |workers| ==> 2 <= workers[w].cores <= UINT32
  }

  /** Every problem has a value. */
  ghost predicate AllDefined(world: World, clients: seq<Client>) {
    forall p :: 0 <= p < |clients| ==> Eval(clients[p].ast, world).Some?
  }

  /** A step that does something is possible. */
  ghost predicate CanAct(world: World, s: Cluster, a: Action) {
    Enabled(world, s, a) && Internal(a) && !IsIdle(a)
  }

  // ---------- defined roots have defined vertices ----------

  lemma DefinedBelow(g: Graph, v: TaskId, world: World)
    requires WellNumbered(g) && v < |g.vertices| && Shaped(g) && EvalVertex(g, v, world).Some?
    ensures forall k :: 0 <= k < |g.edges[v]| ==> g.edges[v][k] < v && EvalVertex(g, g.edges[v][k], world).Some?
  {
    var ts := g.edges[v];
    assert AllBelow(ts, v);
    var values := seq(|ts|, k requires 0 <= k < |ts| => EvalVertex(g, ts[k], world));
    forall k | 0 <= k < |ts|
      ensures EvalVertex(g, ts[k], world).Some?
    {
      assert values[k] == EvalVertex(g, ts[k], world);
    }
  }

  lemma VertexDefined(g: Graph, ast: Expr, world: World, t: TaskId)
    requires PlanFor(g, ast) && Eval(ast, world).Some? && t < |g.vertices|
    ensures EvalVertex(g, t, world).Some?
  {
    var done := set v: nat | v < |g.vertices| && EvalVertex(g, v, world).Some?;
    forall v, k | v in done && v < |g.edges| && 0 <= k < |g.edges[v]|
      ensures g.edges[v][k] in done
    {
      DefinedBelow(g, v, world);
    }
    assert ClosedUnderEdges(g, done);
    assert EvalVertex(g, Root(g), world) == Eval(ast, world);
    assert t in done;
  }

  // ---------- a worker with a task can act ----------

  lemma {:induction false} SomeBusy(threads: seq<Thread>) returns (i: nat)
    requires Busy(threads) > 0
    ensures i < |threads| && !threads[i].Idle?
  {
    if !threads[0].Idle? {
      i := 0;
    } else {
      var j := SomeBusy(threads[1..]);
      i := j + 1;
    }
  }

  lemma OperandKnown(world: World, s: Cluster, task: Task, j: nat)
    requires Sound(world, s) && AllDefined(world, s.clients)
    requires Genuine(Plans(s.clients), task) && j < |task.operands| && task.operands[j].StaticOperand?
    ensures task.operands[j].id in world.vars
  {
    var p, t := task.key.problem, task.key.task;
    var c := s.clients[p];
    assert ClientSound(world, c);
    var g := c.dec.graph;
    assert AllBelow(g.edges[t], t);
    var o := g.edges[t][j];
    VertexDefined(g, c.ast, world, o);
    assert task.operands[j] == FormOperand(p, VariableNames(g), o);
  }

  lemma ComputeDefined(world: World, s: Cluster, task: Task, got: seq<Value>)
    requires Sound(world, s) && AllDefined(world, s.clients)
    requires Genuine(Plans(s.clients), task) && GotRight(world, Plans(s.clients), task, got) && |got| == |task.operands|
    ensures world.apply(task.etype, got).Some?
  {
    var c := s.clients[task.key.problem];
    assert ClientSound(world, c);
    ComputesValue(world, Plans(s.clients), task, got);
    VertexDefined(c.dec.graph, c.ast, world, task.key.task);
  }

  /** A step of worker w itself. */
  predicate OwnStep(a: Action, w: WorkerId) {
    ByWorker(a) && a.w == w
  }

  lemma BusyThreadCanAct(world: World, s: Cluster, w: WorkerId, i: nat) returns (a: Action)
    requires !s.crashed && Sound(world, s) && AllDefined(world, s.clients) && HasThread(s, w, i) && !s.workers[w].threads[i].Idle?
    ensures CanAct(world, s, a) && OwnStep(a, w)
  {
    var t := s.workers[w].threads[i];
    if t.Reporting? {
      a := Respond(w, i);
    } else {
      assert WorkerSound(world, Plans(s.clients), s.workers[w]);
      assert ThreadRight(world, Plans(s.clients), t);
      if |t.got| < |t.task.operands| {
        if NextOperand(t).StaticOperand? {
          OperandKnown(world, s, t.task, |t.got|);
        }
        a := ReadOne(w, i);
      } else {
        ComputeDefined(world, s, t.task, t.got);
        a := Compute(w, i);
      }
    }
  }

  /** A worker with a task has a step to take, which is its own unless it waits to be heard. */
  lemma WorkerCanAct(world: World, s: Cluster, w: WorkerId) returns (a: Action)
    requires !s.crashed && Regular(world, s) && AllDefined(world, s.clients) && Staffed(s)
    requires w < |s.workers| && Load(s.broker.published, s.workers[w], w) > 0
    ensures CanAct(world, s, a) && (OwnStep(a, w) || a == FromWorker(w)) && (s.workers[w].outbox == [] ==> OwnStep(a, w))
  {
    var x := s.workers[w];
    assert WorkerFits(s.broker.free, s.broker.published, x, w);
    if x.outbox != [] {
      a := FromWorker(w);
    } else if x.finished != [] {
      a := Output(w);
    } else if Busy(x.threads) > 0 {
      var i := SomeBusy(x.threads);
      a := BusyThreadCanAct(world, s, w, i);
    } else if x.pending != [] {
      var i := SomeIdle(x.threads);
      a := Take(w, i);
    } else {
      a := ReadInbox(w);
    }
  }

  // ---------- the dispatcher can always make a pass ----------

  lemma {:induction false} ListOf(ts: set<TaskId>) returns (xs: seq<TaskId>)
    ensures Distinct(xs) && forall t :: t in xs <==> t in ts
    decreases |ts|
  {
    if ts == {} {
      xs := [];
    } else {
      var t :| t in ts;
      var rest := ListOf(ts - {t});
      xs := rest + [t];
    }
  }

  lemma PartExists(p: ProblemId, c: CalculationData) returns (ks: seq<TaskKey>)
    ensures Covers(p, c, {}, ks)
  {
    var xs := ListOf(c.computable.Keys);
    ks := seq(|xs|, i requires 0 <= i < |xs| => TaskKey(p, xs[i]));
    forall k
      ensures k in ks <==> k.problem == p && k.task in c.computable
    {
      if k.problem == p && k.task in c.computable {
        assert k.task in xs;
        var i :| 0 <= i < |xs| && xs[i] == k.task;
        assert ks[i] == k;
      }
      if k in ks {
        var i :| 0 <= i < |ks| && ks[i] == k;
        assert xs[i] in xs;
      }
    }
  }

  lemma {:induction false} PassExistsUpTo(problems: map<ProblemId, CalculationData>, n: nat) returns (ks: seq<TaskKey>)
    requires forall p :: p in problems ==> InRange(problems[p])
    ensures PassUpTo(problems, n, ks)
  {
    if n == 0 {
      ks := [];
    } else {
      var front := PassExistsUpTo(problems, n - 1);
      if n - 1 in problems {
        var part := PartExists(n - 1, problems[n - 1]);
        PassGrows(problems, n - 1, front, part);
        ks := front + part;
      } else {
        PassSkips(problems, n - 1, front);
        ks := front;
      }
    }
  }

  lemma PassExists(problems: map<ProblemId, CalculationData>, n: nat) returns (ks: seq<TaskKey>, tasks: seq<Task>)
    requires forall p :: p in problems ==> p < n && InRange(problems[p])
    ensures IsPass(problems, ks) && AreRequests(problems, ks, tasks)
  {
    ks := PassExistsUpTo(problems, n);
    assert Older(problems, n) == problems;
    assert forall i :: 0 <= i < |ks| ==> ks[i] in ks && InFrontier(problems, ks[i]);
    tasks := seq(|ks|, i requires 0 <= i < |ks| && InFrontier(problems, ks[i]) => RequestOf(problems, ks[i]));
  }

  lemma SendCanAct(world: World, s: Cluster, p: ProblemId) returns (a: Action)
    requires !s.crashed && Sound(world, s) && p in s.problems && s.problems[p].computable != map[]
    ensures CanAct(world, s, a)
  {
    forall q | q in s.problems
      ensures q < |s.clients| && InRange(s.problems[q])
    {
      assert DataSound(s.problems[q]);
    }
    var ks, tasks := PassExists(s.problems, |s.clients|);
    var t :| t in s.problems[p].computable;
    assert InFrontier(s.problems, TaskKey(p, t));
    assert TaskKey(p, t) in ks;
    a := Send(ks, tasks);
  }

  // ---------- a task under way can be moved on ----------

  lemma ChoiceExists(b: BrokerState) returns (choice: Option<WorkerId>)
    ensures ValidChoice(b, choice)
  {
    if w :| w in b.free && b.free[w] != 0 {
      choice := Some(w);
    } else {
      choice := None;
    }
  }

  lemma UnregisteredCanAct(world: World, s: Cluster, w: WorkerId)
    requires !s.crashed && Regular(world, s) && w < |s.workers| && w !in s.broker.free
    ensures CanAct(world, s, FromWorker(w))
  {
    assert WorkerFits(s.broker.free, s.broker.published, s.workers[w], w);
  }

  predicate IsBusy(s: Cluster, w: WorkerId) {
    IsFull(s.broker, w) && w < |s.workers| && s.workers[w].cores >= 2
  }

  /** While a task waits at the broker, some registered worker that offers a core has all of them taken. */
  ghost predicate Flows(s: Cluster) {
    s.broker.queue != [] ==> exists w :: IsBusy(s, w)
  }

  lemma EquippedFlows(s: Cluster)
    requires Served(s.broker) && WorkersFit(s.broker, s.workers) && Equipped(s.workers)
    ensures Flows(s)
  {
    if s.broker.queue != [] {
      var w: WorkerId :| IsFull(s.broker, w);
      assert IsBusy(s, w);
    }
  }

  lemma QueueCanAct(world: World, s: Cluster) returns (a: Action)
    requires !s.crashed && Regular(world, s) && AllDefined(world, s.clients) && Staffed(s) && Flows(s) && s.broker.queue != []
    ensures CanAct(world, s, a) && (ByWorker(a) || a.FromWorker?)
  {
    var w: WorkerId :| IsBusy(s, w);
    assert WorkerFits(s.broker.free, s.broker.published, s.workers[w], w);
    NoCoresAdvertisesAll();
    a := WorkerCanAct(world, s, w);
  }

  lemma WireCanAct(world: World, s: Cluster) returns (a: Action)
    requires !s.crashed && Regular(world, s) && Staffed(s) && s.taken < |s.sent|
    ensures CanAct(world, s, a) && ByBroker(a)
  {
    if s.broker.free == map[] {
      UnregisteredCanAct(world, s, 0);
      a := FromWorker(0);
    } else {
      var choice := ChoiceExists(s.broker);
      a := FromManager(choice);
    }
  }

  lemma AtWorkerIsLoad(published: seq<WorkerTask>, x: WorkerState, w: WorkerId, k: TaskKey)
    requires AtWorker(published, x, w, k)
    ensures Load(published, x, w) > 0
  {
    if AtThreads(x.threads, k) {
      var i :| 0 <= i < |x.threads| && AtThread(x.threads[i], k);
      BusyUpdate(x.threads, i, Idle);
    }
  }

  /** While a message names a task, some message can move. */
  lemma MessageCanMove(world: World, s: Cluster, k: TaskKey) returns (a: Action)
    requires !s.crashed && Regular(world, s) && AllDefined(world, s.clients) && Staffed(s) && Flows(s) && InFlight(s, k)
    ensures CanAct(world, s, a) && (ByWorker(a) || ByBroker(a) || a.Reply?)
    ensures s.taken == |s.sent| ==> !a.FromManager?
  {
    if s.taken < |s.sent| {
      a := WireCanAct(world, s);
    } else if s.broker.queue != [] {
      a := QueueCanAct(world, s);
    } else if s.seen < |s.broker.replied| {
      a := Reply;
    } else {
      var w :| 0 <= w < |s.workers| && AtWorker(s.broker.published, s.workers[w], w, k);
      AtWorkerIsLoad(s.broker.published, s.workers[w], w, k);
      a := WorkerCanAct(world, s, w);
    }
  }

  /** While a problem with an operation at its root is unanswered, a step is possible. */
  lemma NeverStuck(drain: Drain, world: World, run: seq<Action>, s: Cluster, p: ProblemId) returns (a: Action)
    requires Reached(drain, world, run, s) && AllDefined(world, s.clients) && Staffed(s) && Flows(s)
    requires p < |s.clients| && !IsVariable(GetType(s.clients[p].ast)) && !s.clients[p].frame.Returned?
    ensures CanAct(world, s, a)
  {
    var where := RunKeeps(drain, world, run, s);
    RunIsRegular(drain, world, run, s);
    match s.clients[p].frame {
      case Cleared => a := Fetch(p);
      case Fetched(_) => a := Finish(p);
      case Waiting(b) =>
        if b {
          a := Clear(p);
        } else {
          a := WaitingCanAct(world, s, where, p);
        }
    }
  }

  lemma WaitingCanAct(world: World, s: Cluster, where: Where, p: ProblemId) returns (a: Action)
    requires Good(world, s, where) && Regular(world, s) && AllDefined(world, s.clients) && Staffed(s) && Flows(s)
    requires p < |s.clients| && !IsVariable(GetType(s.clients[p].ast)) && s.clients[p].frame == Waiting(false)
    ensures CanAct(world, s, a)
  {
    assert ClientGood(world, s.clients[p], p, s.problems, where.Keys);
    var data := s.problems[p];
    SomethingToDo(data);
    if data.computable != map[] {
      a := SendCanAct(world, s, p);
    } else {
      var t :| t in Running(data);
      PlaceIsInFlight(world, s, where, TaskKey(p, t));
      a := MessageCanMove(world, s, TaskKey(p, t));
    }
  }

  /** Every problem with an operation at its root has returned. */
  ghost predicate AllReturned(clients: seq<Client>) {
    forall p :: 0 <= p < |clients| && !IsVariable(GetType(clients[p].ast)) ==> clients[p].frame.Returned?
  }

  /** The system is up, and no step but an arrival or an empty pass is possible. */
  ghost predicate AtRest(world: World, s: Cluster) {
    !s.crashed && forall a :: !CanAct(world, s, a)
  }

  /** A problem with a task in progress has an operation at its root. */
  lemma RunningIsUnanswered(world: World, s: Cluster, h: TaskKey)
    requires Sound(world, s) && h.problem < |s.clients| && s.clients[h.problem].frame.Waiting?
    requires h.problem in s.problems && Agrees(s.problems[h.problem]) && h.task in Running(s.problems[h.problem])
    ensures !AllReturned(s.clients)
  {
    assert ClientSound(world, s.clients[h.problem]);
    var c := s.problems[h.problem];
    if Root(c.dec.graph) in c.names {
      RootFinishesLast(c);
    }
    assert !IsVariable(GetType(s.clients[h.problem].ast));
  }

  /** At rest, all problems have been answered exactly if nothing is left in the broker's queue. */
  lemma RestAnsweredIff(drain: Drain, world: World, run: seq<Action>, s: Cluster)
    requires Reached(drain, world, run, s) && Staffed(s) && AllDefined(world, s.clients) && AtRest(world, s)
    ensures AllReturned(s.clients) <==> s.broker.queue == []
  {
    var where := RunKeeps(drain, world, run, s);
    RunIsSound(drain, world, run);
    if s.broker.queue != [] {
      var h := s.broker.queue[0].key;
      KeyOf(s.broker.queue, 0);
      LiveTask(world, DeskOf(s), where.Keys, Past(where), h);
      RunningIsUnanswered(world, s, h);
    } else if !AllReturned(s.clients) {
      var p :| 0 <= p < |s.clients| && !IsVariable(GetType(s.clients[p].ast)) && !s.clients[p].frame.Returned?;
      var a := NeverStuck(drain, world, run, s, p);
    }
  }

  /** If every worker has two cores, all problems have been answered. */
  lemma RestMeansAnswered(drain: Drain, world: World, run: seq<Action>, s: Cluster)
    requires Reached(drain, world, run, s) && Staffed(s) && Equipped(s.workers) && AllDefined(world, s.clients) && AtRest(world, s)
    ensures AllReturned(s.clients)
  {
    RunIsRegular(drain, world, run, s);
    EquippedFlows(s);
    if p :| 0 <= p < |s.clients| && !IsVariable(GetType(s.clients[p].ast)) && !s.clients[p].frame.Returned? {
      var a := NeverStuck(drain, world, run, s, p);
    }
  }

  // ---------- the drain as written ----------

  /** The first drain of a run that finds two or more tasks. */
  lemma {:induction false} FirstLoss(world: World, run: seq<Action>) returns (n: nat)
    requires Run(AsWritten, world, run).Some? && !DrainsSingly(world, run)
    ensures n < |run| && Run(AsWritten, world, run[..n]).Some?
    ensures var s := Run(AsWritten, world, run[..n]).value;
            Reached(AsWritten, world, run[..n], s) && Enabled(world, s, run[n]) && Drains(s, run[n]) && |s.broker.queue| >= 2
  {
    var front := run[..|run| - 1];
    if DrainsSingly(world, front) {
      n := |run| - 1;
    } else {
      n := FirstLoss(world, front);
      assert front[..n] == run[..n];
    }
  }

  /** A run of the drain as written that loses a task leaves a client without an answer. */
  lemma LossIsUnanswered(world: World, run: seq<Action>, s: Cluster)
    requires Run(AsWritten, world, run) == Some(s) && !DrainsSingly(world, run)
    ensures !AllReturned(s.clients)
  {
    var n := FirstLoss(world, run);
    var s0 := Run(AsWritten, world, run[..n]).value;
    RunAfter(AsWritten, world, run, n, s0);
    WrittenDrainLosesProblem(world, run[..n], s0, run[n], AsWritten, run[n + 1..]);
    RunIsSound(AsWritten, world, run);
    RunningIsUnanswered(world, s, s0.broker.queue[0].key);
  }

  /** The code as written, with two cores at every worker: at rest, all problems have been answered if
      and only if every drain of the run found one task. */
  lemma WrittenRunAnswersIff(world: World, run: seq<Action>, s: Cluster)
    requires Run(AsWritten, world, run) == Some(s) && AtRest(world, s)
    requires Staffed(s) && Equipped(s.workers) && AllDefined(world, s.clients)
    ensures AllReturned(s.clients) <==> DrainsSingly(world, run)
  {
    if DrainsSingly(world, run) {
      RestMeansAnswered(AsWritten, world, run, s);
    } else {
      LossIsUnanswered(world, run, s);
    }
  }

  // ---------- every problem is answered ----------

  lemma {:induction false} StepsKeepStaff(drain: Drain, world: World, s: Cluster, steps: seq<Action>, end: Cluster)
    requires Continue(drain, world, s, steps) == Some(end) && AllSteps(steps) && Staffed(s) && Equipped(s.workers) && AllDefined(world, s.clients)
    ensures Staffed(end) && Equipped(end.workers) && AllDefined(world, end.clients) && |end.clients| == |s.clients|
    ensures |end.workers| == |s.workers| && SameCores(s.workers, end.workers)
    ensures forall p :: 0 <= p < |s.clients| ==> end.clients[p].ast == s.clients[p].ast
    decreases |steps|
  {
    if steps != [] {
      var front, last := steps[..|steps| - 1], steps[|steps| - 1];
      var s1 := Continue(drain, world, s, front).value;
      StepsKeepStaff(drain, world, s, front, s1);
      StepKeepsStaff(drain, world, s1, last);
    }
  }

  lemma StepKeepsStaff(drain: Drain, world: World, s: Cluster, a: Action)
    requires Enabled(world, s, a) && Internal(a) && Staffed(s) && Equipped(s.workers) && AllDefined(world, s.clients)
    ensures var s' := Next(drain, world, s, a);
            && Staffed(s') && Equipped(s'.workers) && AllDefined(world, s'.clients) && |s'.clients| == |s.clients|
            && |s'.workers| == |s.workers| && SameCores(s.workers, s'.workers)
            && forall p :: 0 <= p < |s.clients| ==> s'.clients[p].ast == s.clients[p].ast
  {
    StepFrame(drain, world, s, a);
    var s' := Next(drain, world, s, a);
    forall p | 0 <= p < |s.clients|
      ensures s'.clients[p].ast == s.clients[p].ast
    {
      assert SameClient(s.clients[p], s'.clients[p]);
    }
  }

  /** No drain of the run loses a task. */
  ghost predicate LosesNothing(drain: Drain, world: World, run: seq<Action>) {
    drain.Fifo? || DrainsSingly(world, run)
  }

  /** Every problem is answered, with two cores at every worker, exactly if no drain loses a task. From
      any state, the steps taken without new arrivals are bounded. If no drain of the run loses a task,
      the system stays up, and where no step is left every problem with an operation at its root has
      returned the value of its AST. If one does, some such problem has not returned, wherever the
      steps end. */
  lemma EveryProblemIsAnswered(drain: Drain, world: World, run: seq<Action>, s: Cluster, steps: seq<Action>, end: Cluster)
    requires Run(drain, world, run) == Some(s) && Staffed(s) && Equipped(s.workers) && AllDefined(world, s.clients)
    requires Continue(drain, world, s, steps) == Some(end) && AllSteps(steps)
    ensures |steps| <= Remaining(s) && |end.clients| == |s.clients|
    ensures LosesNothing(drain, world, run + steps) ==> !end.crashed
    ensures LosesNothing(drain, world, run + steps) && AtRest(world, end) ==>
              forall p :: 0 <= p < |s.clients| && !IsVariable(GetType(s.clients[p].ast)) ==>
                end.clients[p].frame.Returned? && Eval(s.clients[p].ast, world) == Some(end.clients[p].frame.v)
    ensures !LosesNothing(drain, world, run + steps) ==>
              exists p :: 0 <= p < |s.clients| && !IsVariable(GetType(s.clients[p].ast)) && !end.clients[p].frame.Returned?
  {
    StepsAreBounded(drain, world, run, s, steps);
    RunContinues(drain, world, run, s, steps);
    StepsKeepStaff(drain, world, s, steps, end);
    if !LosesNothing(drain, world, run + steps) {
      LossIsUnanswered(world, run + steps, end);
    } else {
      NeverCrashes(drain, world, run + steps, end);
      if AtRest(world, end) {
        RestMeansAnswered(drain, world, run + steps, end);
        forall p | 0 <= p < |s.clients| && !IsVariable(GetType(s.clients[p].ast))
          ensures end.clients[p].frame.Returned? && Eval(s.clients[p].ast, world) == Some(end.clients[p].frame.v)
        {
          ReturnedValueIsEval(drain, world, run + steps, end, p);
        }
      }
    }
  }

  /** From any state the system can come to rest, or to a crash. */
  lemma ComeToRest(drain: Drain, world: World, run: seq<Action>, s: Cluster) returns (steps: seq<Action>, end: Cluster)
    requires Run(drain, world, run) == Some(s)
    ensures Continue(drain, world, s, steps) == Some(end) && AllSteps(steps) && (AtRest(world, end) || end.crashed)
    decreases Remaining(s)
  {
    RunIsCounted(drain, world, run);
    RemainingNonNegative(s);
    if a :| CanAct(world, s, a) {
      RunIsSound(drain, world, run);
      StepReducesRemaining(drain, world, s, a);
      ContinueLast(drain, world, Boot(), run, a);
      var rest;
      rest, end := ComeToRest(drain, world, run + [a], Next(drain, world, s, a));
      StepThenContinue(drain, world, s, a, rest);
      steps := [a] + rest;
    } else {
      steps, end := [], s;
    }
  }
}
