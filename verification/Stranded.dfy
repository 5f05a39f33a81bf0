/** Why progress needs two cores at every worker: registering a worker does not make the broker look
    at its queue.

    A worker with one core advertises none. A task queued while only such a worker is registered stays
    queued when the others register, and the system comes to rest. So whatever the workers, all runs
    that come to rest have answered everything if and only if every worker has at least two cores.
 */
module Stranded {
  import opened Domain
  import opened Expression
  import opened Sharing
  import opened Decomposition
  import opened Dispatch
  import opened Frontier
  import opened Broker
  import opened Worker
  import opened Cluster
  import opened Desk
  import opened Safety
  import opened Progress

  // ---------- workers join and register ----------

  /** A worker whose registration has been received. */
  function Enlisted(cores: nat): WorkerState {
    Launch(cores, 0).(outbox := [])
  }

  /** Workers with these cores, those in the set registered and nothing given to any of them. */
  function Team(cores: seq<nat>, registered: set<WorkerId>): (r: seq<WorkerState>)
    ensures |r| == |cores|
    ensures forall w :: 0 <= w < |cores| ==> r[w] == if w in registered then Enlisted(cores[w]) else Launch(cores[w], 0)
  {
    seq(|cores|, w requires 0 <= w < |cores| => if w in registered then Enlisted(cores[w]) else Launch(cores[w], 0))
  }

  function Offers(cores: seq<nat>, registered: set<WorkerId>): map<WorkerId, nat> {
    map w: WorkerId | w in registered && w < |cores| :: AckCount(cores[w])
  }

  /** The workers have joined, and nothing else has happened. */
  function Joined(cores: seq<nat>): Cluster {
    Boot().(workers := Team(cores, {}))
  }

  lemma JoinOne(drain: Drain, world: World, run: seq<Action>, cores: seq<nat>, last: nat)
    requires Reached(drain, world, run, Joined(cores))
    ensures Reached(drain, world, run + [Join(last)], Joined(cores + [last]))
  {
    TeamGrows(cores, last);
    ReachedNext(drain, world, run, Joined(cores), Join(last));
  }

  lemma TeamGrows(cores: seq<nat>, last: nat)
    ensures Team(cores, {}) + [Launch(last, 0)] == Team(cores + [last], {})
  {
    forall w | 0 <= w < |cores|
      ensures Team(cores + [last], {})[w] == Team(cores, {})[w]
    {
      assert (cores + [last])[w] == cores[w];
    }
  }

  lemma {:induction false} JoinAll(drain: Drain, world: World, cores: seq<nat>) returns (run: seq<Action>)
    ensures Reached(drain, world, run, Joined(cores))
  {
    if cores == [] {
      run := [];
      assert Joined([]) == Boot();
    } else {
      var front, last := cores[..|cores| - 1], cores[|cores| - 1];
      assert cores == front + [last];
      run := JoinAll(drain, world, front);
      JoinOne(drain, world, run, front, last);
      run := run + [Join(last)];
    }
  }

  /** Only the workers in the set are registered, and none has been given a task. */
  ghost predicate Unused(s: Cluster, cores: seq<nat>, registered: set<WorkerId>) {
    s.workers == Team(cores, registered) && s.broker.free == Offers(cores, registered)
  }

  function WithTeam(s: Cluster, cores: seq<nat>, registered: set<WorkerId>): Cluster {
    s.(workers := Team(cores, registered), broker := s.broker.(free := Offers(cores, registered)))
  }

  lemma RegistrationIs(drain: Drain, s: Cluster, cores: seq<nat>, registered: set<WorkerId>, w: WorkerId)
    requires Unused(s, cores, registered) && w < |cores| && w !in registered
    ensures s.workers[w].outbox == [CoreCount(AckCount(cores[w]))]
    ensures NextFromWorker(drain, s, w) == WithTeam(s, cores, registered + {w})
  {
    var outbox := s.workers[w].outbox;
    assert outbox[1..] == [];
    assert s.workers[w := s.workers[w].(outbox := outbox[1..])] == Team(cores, registered + {w});
    assert s.broker.free[w := AckCount(cores[w])] == Offers(cores, registered + {w});
  }

  lemma RegisterOne(drain: Drain, world: World, run: seq<Action>, s: Cluster, cores: seq<nat>, registered: set<WorkerId>, w: WorkerId)
    requires Reached(drain, world, run, s) && !s.crashed && Unused(s, cores, registered) && w < |cores| && w !in registered
    ensures Reached(drain, world, run + [FromWorker(w)], WithTeam(s, cores, registered + {w}))
  {
    RegistrationIs(drain, s, cores, registered, w);
    ReachedNext(drain, world, run, s, FromWorker(w));
  }

  /** Worker i and the workers below n. */
  ghost function First(i: WorkerId, n: nat): set<WorkerId> {
    Below(n) + {i}
  }

  lemma FirstGrows(i: WorkerId, n: nat)
    ensures First(i, 0) == {i}
    ensures First(i, n + 1) == First(i, n) + {n}
    ensures n in First(i, n) <==> n == i
    ensures n == i ==> First(i, n + 1) == First(i, n)
  {
  }

  lemma TeamTwice(s: Cluster, cores: seq<nat>, registered: set<WorkerId>, more: set<WorkerId>)
    ensures WithTeam(WithTeam(s, cores, registered), cores, more) == WithTeam(s, cores, more)
    ensures Unused(WithTeam(s, cores, registered), cores, registered)
    ensures Unused(s, cores, registered) ==> WithTeam(s, cores, registered) == s
  {
  }

  lemma RegisterNext(drain: Drain, world: World, run: seq<Action>, s: Cluster, cores: seq<nat>, i: WorkerId, n: nat)
    returns (run': seq<Action>)
    requires Reached(drain, world, run, WithTeam(s, cores, First(i, n))) && !s.crashed && n < |cores|
    ensures Reached(drain, world, run', WithTeam(s, cores, First(i, n + 1)))
  {
    FirstGrows(i, n);
    if n == i {
      run' := run;
    } else {
      TeamTwice(s, cores, First(i, n), First(i, n + 1));
      RegisterOne(drain, world, run, WithTeam(s, cores, First(i, n)), cores, First(i, n), n);
      run' := run + [FromWorker(n)];
    }
  }

  /** The workers below n register, if they have not. */
  lemma {:induction false} RegisterBelow(drain: Drain, world: World, run: seq<Action>, s: Cluster, cores: seq<nat>, i: WorkerId, n: nat)
    returns (run': seq<Action>)
    requires Reached(drain, world, run, s) && !s.crashed && Unused(s, cores, {i}) && n <= |cores|
    ensures Reached(drain, world, run', WithTeam(s, cores, First(i, n)))
  {
    if n == 0 {
      FirstGrows(i, 0);
      TeamTwice(s, cores, {i}, {i});
      run' := run;
    } else {
      run' := RegisterBelow(drain, world, run, s, cores, i, n - 1);
      run' := RegisterNext(drain, world, run', s, cores, i, n - 1);
    }
  }

  // ---------- problems arrive, and their first tasks are requested ----------

  /** A problem that is admitted, has work to do and has a value. */
  ghost predicate Solvable(world: World, ast: Expr) {
    NoConstants(ast) && !IsVariable(GetType(ast)) && Eval(ast, world).Some?
  }

  ghost function PlanOf(ast: Expr): Decompositor {
    Decompositor(DagOf(ast), UpTo(|DagOf(ast).vertices|))
  }

  ghost function Asks(ast: Expr): Client {
    Client(ast, PlanOf(ast), Waiting(false))
  }

  ghost function AfterPush(s: Cluster, ast: Expr): Cluster {
    s.(problems := s.problems[|s.clients| := Dispatch.Start(PlanOf(ast))], sync := s.sync + {|s.clients|}, clients := s.clients + [Asks(ast)])
  }

  lemma PushOne(drain: Drain, world: World, run: seq<Action>, s: Cluster, ast: Expr)
    requires Reached(drain, world, run, s) && !s.crashed && NoConstants(ast) && |s.clients| < UINT32
    ensures Reached(drain, world, run + [Push(ast, PlanOf(ast).tasks)], AfterPush(s, ast))
  {
    NumberOrderIsOperandsFirst(DagOf(ast));
    ReachedNext(drain, world, run, s, Push(ast, PlanOf(ast).tasks));
  }

  lemma AnyOrderOfPlan(ast: Expr)
    requires NoConstants(ast)
    ensures ClientPlanned(Asks(ast)) && OperandsFirst(DagOf(ast), PlanOf(ast).tasks)
  {
    NumberOrderIsOperandsFirst(DagOf(ast));
    AnyOrderIsPlanned(ast, PlanOf(ast).tasks);
  }

  /** A new problem with an operation at its root has a task to send. */
  lemma StartHasWork(ast: Expr) returns (t: TaskId)
    requires NoConstants(ast) && !IsVariable(GetType(ast))
    ensures t in Dispatch.Start(PlanOf(ast)).computable
    ensures InRange(Dispatch.Start(PlanOf(ast)))
  {
    var c := Dispatch.Start(PlanOf(ast));
    AnyOrderOfPlan(ast);
    StartAgrees(PlanOf(ast));
    SomethingToDo(c);
    assert Running(c) == {};
    t :| t in c.computable;
  }

  // ---------- tasks queue up ----------

  ghost predicate NoneFree(b: BrokerState) {
    b.free != map[] && forall w :: w in b.free ==> b.free[w] == 0
  }

  /** The broker has taken all requests and queued them. */
  function AllQueued(s: Cluster): Cluster
    requires s.taken <= |s.sent|
  {
    s.(taken := |s.sent|, broker := s.broker.(queue := s.broker.queue + s.sent[s.taken..]))
  }

  function OneQueued(s: Cluster): Cluster
    requires s.taken < |s.sent|
  {
    s.(taken := s.taken + 1, broker := s.broker.(queue := s.broker.queue + [s.sent[s.taken]]))
  }

  lemma QueueOne(drain: Drain, world: World, run: seq<Action>, s: Cluster)
    requires Reached(drain, world, run, s) && !s.crashed && NoneFree(s.broker) && s.taken < |s.sent|
    ensures Reached(drain, world, run + [FromManager(None)], OneQueued(s))
  {
    ReachedNext(drain, world, run, s, FromManager(None));
  }

  lemma OneThenAll(s: Cluster)
    requires s.taken < |s.sent|
    ensures AllQueued(OneQueued(s)) == AllQueued(s)
  {
    assert s.broker.queue + [s.sent[s.taken]] + s.sent[s.taken + 1..] == s.broker.queue + s.sent[s.taken..];
  }

  lemma NoneLeft(s: Cluster)
    requires s.taken == |s.sent|
    ensures AllQueued(s) == s
  {
    assert s.broker.queue + s.sent[s.taken..] == s.broker.queue;
  }

  lemma {:induction false} QueueAll(drain: Drain, world: World, run: seq<Action>, s: Cluster) returns (run': seq<Action>)
    requires Reached(drain, world, run, s) && !s.crashed && NoneFree(s.broker) && s.taken <= |s.sent|
    ensures Reached(drain, world, run', AllQueued(s))
    decreases |s.sent| - s.taken
  {
    if s.taken == |s.sent| {
      NoneLeft(s);
      run' := run;
    } else {
      QueueOne(drain, world, run, s);
      run' := QueueAll(drain, world, run + [FromManager(None)], OneQueued(s));
      OneThenAll(s);
    }
  }

  // ---------- the stranded system ----------

  /** Worker i alone is registered, and all there is to do has been requested. */
  ghost predicate JustAsked(s: Cluster, cores: seq<nat>, i: WorkerId, ast: Expr) {
    && !s.crashed && Unused(s, cores, {i}) && s.clients == [Asks(ast)]
    && (forall p :: p in s.problems ==> s.problems[p].computable == map[])
    && s.broker.replied == [] && s.broker.published == [] && s.broker.queue == []
    && s.taken == 0 && s.sent != []
  }

  lemma HireOne(drain: Drain, world: World, cores: seq<nat>, i: WorkerId) returns (run: seq<Action>)
    requires i < |cores|
    ensures Reached(drain, world, run, WithTeam(Boot(), cores, {i}))
  {
    run := JoinAll(drain, world, cores);
    assert Offers(cores, {}) == map[];
    RegisterOne(drain, world, run, Joined(cores), cores, {}, i);
    assert {} + {i} == {i};
    run := run + [FromWorker(i)];
  }

  lemma FirstPass(ast: Expr) returns (ks: seq<TaskKey>, tasks: seq<Task>)
    requires NoConstants(ast) && !IsVariable(GetType(ast))
    ensures var problems := map[0 := Dispatch.Start(PlanOf(ast))];
            IsPass(problems, ks) && AreRequests(problems, ks, tasks) && tasks != []
  {
    var problems := map[0 := Dispatch.Start(PlanOf(ast))];
    var t := StartHasWork(ast);
    ks, tasks := PassExists(problems, 1);
    assert InFrontier(problems, TaskKey(0, t));
    assert TaskKey(0, t) in ks;
  }

  lemma AskOne(drain: Drain, world: World, cores: seq<nat>, i: WorkerId, ast: Expr) returns (run: seq<Action>, s: Cluster)
    requires i < |cores| && NoConstants(ast) && !IsVariable(GetType(ast))
    ensures Reached(drain, world, run, s) && JustAsked(s, cores, i, ast)
  {
    run := HireOne(drain, world, cores, i);
    var s1 := WithTeam(Boot(), cores, {i});
    PushOne(drain, world, run, s1, ast);
    run := run + [Push(ast, PlanOf(ast).tasks)];
    var ks, tasks := FirstPass(ast);
    var s2 := AfterPush(s1, ast);
    assert s2.problems == map[0 := Dispatch.Start(PlanOf(ast))];
    ReachedNext(drain, world, run, s2, Send(ks, tasks));
    run := run + [Send(ks, tasks)];
    s := s2.(problems := AfterSendAll(s2.problems), sent := s2.sent + tasks);
  }

  lemma FirstIsIn<T>(s: seq<T>)
    requires s != []
    ensures s[0] in s
  {
  }

  lemma EmptyPass(problems: map<ProblemId, CalculationData>, ks: seq<TaskKey>)
    requires IsPass(problems, ks) && forall p :: p in problems ==> problems[p].computable == map[]
    ensures ks == []
  {
    if ks != [] {
      FirstIsIn(ks);
    }
  }

  /** Nothing is in motion. */
  ghost predicate Still(s: Cluster) {
    && !s.crashed
    && (forall p :: p in s.problems ==> s.problems[p].computable == map[])
    && (forall p :: 0 <= p < |s.clients| ==> s.clients[p].frame == Waiting(false))
    && s.broker.replied == [] && s.broker.published == [] && s.taken == |s.sent|
    && (forall w :: 0 <= w < |s.workers| ==> s.workers[w] == Enlisted(s.workers[w].cores))
  }

  lemma StillIsAtRest(world: World, s: Cluster, a: Action)
    requires Still(s)
    ensures !CanAct(world, s, a)
  {
    match a {
      case Send(ks, _) =>
        if IsPass(s.problems, ks) {
          EmptyPass(s.problems, ks);
        }
      case FromWorker(w) => if w < |s.workers| { assert s.workers[w].outbox == []; }
      case Take(w, i) => if w < |s.workers| { assert s.workers[w].pending == []; }
      case ReadOne(w, i) => if HasThread(s, w, i) { assert s.workers[w].threads[i] == Idle; }
      case Compute(w, i) => if HasThread(s, w, i) { assert s.workers[w].threads[i] == Idle; }
      case Respond(w, i) => if HasThread(s, w, i) { assert s.workers[w].threads[i] == Idle; }
      case Output(w) => if w < |s.workers| { assert s.workers[w].finished == []; }
      case _ =>
    }
  }

  /** Whatever the other workers and whichever way the queue is drained, a one-core worker that
      registers first strands any problem: the system comes to rest with tasks queued and the client
      waiting, however many cores the workers that register later have. */
  lemma OneCoreWorkerStrands(drain: Drain, world: World, cores: seq<nat>, i: WorkerId, ast: Expr)
    returns (run: seq<Action>, s: Cluster)
    requires i < |cores| && cores[i] == 1 && NoConstants(ast) && !IsVariable(GetType(ast))
    ensures Reached(drain, world, run, s) && AtRest(world, s)
    ensures s.clients == [Asks(ast)] && s.broker.queue != []
    ensures Employs(s, cores) && forall w :: 0 <= w < |cores| ==> w in s.broker.free && s.broker.free[w] == AckCount(cores[w])
  {
    var s1;
    run, s1 := AskOne(drain, world, cores, i, ast);
    NothingOffered(s1, cores, i);
    run := QueueAll(drain, world, run, s1);
    run := RegisterBelow(drain, world, run, AllQueued(s1), cores, i, |cores|);
    s := WithTeam(AllQueued(s1), cores, First(i, |cores|));
    RestsStill(s1, cores, i, ast);
    EveryoneRegistered(s, cores, i);
    forall a
      ensures !CanAct(world, s, a)
    {
      StillIsAtRest(world, s, a);
    }
  }

  lemma NothingOffered(s: Cluster, cores: seq<nat>, i: WorkerId)
    requires Unused(s, cores, {i}) && i < |cores| && cores[i] == 1
    ensures NoneFree(s.broker)
  {
    assert i in s.broker.free;
  }

  lemma EveryoneRegistered(s: Cluster, cores: seq<nat>, i: WorkerId)
    requires Unused(s, cores, First(i, |cores|))
    ensures Employs(s, cores)
    ensures forall w :: 0 <= w < |cores| ==> w in s.broker.free && s.broker.free[w] == AckCount(cores[w])
  {
    forall w | 0 <= w < |cores|
      ensures w in First(i, |cores|)
    {
      assert w in Below(|cores|);
    }
  }

  lemma RestsStill(s: Cluster, cores: seq<nat>, i: WorkerId, ast: Expr)
    requires JustAsked(s, cores, i, ast)
    ensures Still(WithTeam(AllQueued(s), cores, First(i, |cores|)))
  {
    forall w | 0 <= w < |cores|
      ensures Team(cores, First(i, |cores|))[w] == Enlisted(cores[w])
    {
      assert w in Below(|cores|);
    }
  }

  // ---------- which staffings answer everything ----------

  /** The workers of s have these cores. */
  ghost predicate Employs(s: Cluster, cores: seq<nat>) {
    |s.workers| == |cores| && forall w :: 0 <= w < |cores| ==> s.workers[w].cores == cores[w]
  }

  /** A run, losing no task, that comes to rest with these workers and only problems that have a value. */
  ghost predicate RunsDown(drain: Drain, world: World, cores: seq<nat>, run: seq<Action>, s: Cluster) {
    Reached(drain, world, run, s) && Employs(s, cores) && AllDefined(world, s.clients) && AtRest(world, s)
  }

  /** All such runs have answered everything if and only if every worker has at least two cores. */
  lemma AnsweredIffTwoCores(drain: Drain, world: World, cores: seq<nat>, ast: Expr)
    requires cores != [] && (forall w :: 0 <= w < |cores| ==> 1 <= cores[w] <= UINT32) && Solvable(world, ast)
    ensures (forall run, s :: RunsDown(drain, world, cores, run, s) ==> AllReturned(s.clients))
            <==> forall w :: 0 <= w < |cores| ==> cores[w] >= 2
  {
    if w :| 0 <= w < |cores| && cores[w] < 2 {
      var run, s := OneCoreWorkerStrands(drain, world, cores, w, ast);
      assert RunsDown(drain, world, cores, run, s);
      assert s.clients[0] == Asks(ast) && !AllReturned(s.clients);
    } else {
      forall run, s | RunsDown(drain, world, cores, run, s)
        ensures AllReturned(s.clients)
      {
        RestMeansAnswered(drain, world, run, s);
      }
    }
  }
}
