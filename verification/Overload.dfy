/** The drain as written fails every staffing: however many workers with however many cores there are,
    enough problems at once make it lose a task, and the system comes to rest with a client waiting.
 */
module Overload {
  import opened Domain
  import opened Expression
  import opened ValueNumbering
  import opened Sharing
  import opened Decomposition
  import opened Dispatch
  import opened Frontier
  import opened Broker
  import opened Worker
  import opened Places
  import opened Capacity
  import opened Pipeline
  import opened Cluster
  import opened Desk
  import opened Termination
  import opened AllRuns
  import opened Safety
  import opened Results
  import opened Progress
  import opened Patience
  import opened Stranded

  // ---------- many problems at once ----------

  ghost function Starts(asts: seq<Expr>): map<ProblemId, CalculationData> {
    map p: nat | p < |asts| :: Dispatch.Start(PlanOf(asts[p]))
  }

  ghost function AllAsk(asts: seq<Expr>): (r: seq<Client>)
    ensures |r| == |asts| && forall p :: 0 <= p < |asts| ==> r[p] == Asks(asts[p])
  {
    seq(|asts|, p requires 0 <= p < |asts| => Asks(asts[p]))
  }

  /** One client for each of these problems. */
  ghost function Crowd(s: Cluster, asts: seq<Expr>): Cluster {
    s.(problems := Starts(asts), sync := Below(|asts|), clients := AllAsk(asts))
  }

  ghost predicate NoClients(s: Cluster) {
    s.problems == map[] && s.sync == {} && s.clients == []
  }

  ghost predicate NoneConstant(asts: seq<Expr>) {
    forall p :: 0 <= p < |asts| ==> NoConstants(asts[p])
  }

  lemma CrowdGrows(s: Cluster, asts: seq<Expr>, ast: Expr)
    ensures AfterPush(Crowd(s, asts), ast) == Crowd(s, asts + [ast])
  {
    StartsGrow(asts, ast);
    assert Below(|asts| + 1) == Below(|asts|) + {|asts|};
    assert AllAsk(asts) + [Asks(ast)] == AllAsk(asts + [ast]);
  }

  lemma StartsGrow(asts: seq<Expr>, ast: Expr)
    ensures Starts(asts)[|asts| := Dispatch.Start(PlanOf(ast))] == Starts(asts + [ast])
  {
    assert forall p :: 0 <= p < |asts| ==> (asts + [ast])[p] == asts[p];
  }

  lemma CrowdStarts(s: Cluster)
    requires NoClients(s)
    ensures Crowd(s, []) == s
  {
    assert Starts([]) == map[];
  }

  lemma PrefixGrows<T>(ts: seq<T>, n: nat)
    requires n < |ts|
    ensures ts[..n + 1] == ts[..n] + [ts[n]]
  {
  }

  lemma {:induction false} PushMany(drain: Drain, world: World, run: seq<Action>, s: Cluster, asts: seq<Expr>, n: nat) returns (run': seq<Action>)
    requires Reached(drain, world, run, s) && !s.crashed && NoClients(s) && NoneConstant(asts) && n <= |asts| <= UINT32
    ensures Reached(drain, world, run', Crowd(s, asts[..n]))
  {
    if n == 0 {
      CrowdStarts(s);
      run' := run;
    } else {
      run' := PushMany(drain, world, run, s, asts, n - 1);
      PrefixGrows(asts, n - 1);
      run' := PushOneMore(drain, world, run', s, asts[..n - 1], asts[n - 1]);
    }
  }

  lemma PushOneMore(drain: Drain, world: World, run: seq<Action>, s: Cluster, asts: seq<Expr>, ast: Expr) returns (run': seq<Action>)
    requires Reached(drain, world, run, Crowd(s, asts)) && !s.crashed && NoConstants(ast) && |asts| < UINT32
    ensures Reached(drain, world, run', Crowd(s, asts + [ast]))
  {
    PushOne(drain, world, run, Crowd(s, asts), ast);
    CrowdGrows(s, asts, ast);
    run' := run + [Push(ast, PlanOf(ast).tasks)];
  }

  // ---------- what one pass sends ----------

  /** The operations that can be requested as soon as the problem is admitted. */
  ghost function Opening(ast: Expr): set<TaskId> {
    Dispatch.Start(PlanOf(ast)).computable.Keys
  }

  ghost function Openings(asts: seq<Expr>): (r: seq<nat>)
    ensures |r| == |asts| && forall p :: 0 <= p < |asts| ==> r[p] == |Opening(asts[p])|
  {
    seq(|asts|, p requires 0 <= p < |asts| => |Opening(asts[p])|)
  }

  ghost function KeysOf(p: ProblemId, ts: set<TaskId>): set<TaskKey> {
    set t | t in ts :: TaskKey(p, t)
  }

  lemma {:induction false} KeysOfSize(p: ProblemId, ts: set<TaskId>)
    ensures |KeysOf(p, ts)| == |ts|
    decreases |ts|
  {
    if ts != {} {
      var t :| t in ts;
      KeysOfSize(p, ts - {t});
      assert KeysOf(p, ts) == KeysOf(p, ts - {t}) + {TaskKey(p, t)};
      assert TaskKey(p, t) !in KeysOf(p, ts - {t});
    } else {
      assert KeysOf(p, ts) == {};
    }
  }

  ghost function OpeningKeys(asts: seq<Expr>): set<TaskKey> {
    set p: nat, t | p < |asts| && t in Opening(asts[p]) :: TaskKey(p, t)
  }

  lemma OpeningKeysGrow(asts: seq<Expr>, ast: Expr)
    ensures OpeningKeys(asts + [ast]) == OpeningKeys(asts) + KeysOf(|asts|, Opening(ast))
    ensures OpeningKeys(asts) !! KeysOf(|asts|, Opening(ast))
  {
    forall k
      ensures k in OpeningKeys(asts + [ast]) <==> k in OpeningKeys(asts) || k in KeysOf(|asts|, Opening(ast))
      ensures !(k in OpeningKeys(asts) && k in KeysOf(|asts|, Opening(ast)))
    {
      OpeningKey(asts, k);
      OpeningKey(asts + [ast], k);
      KeyOfTask(|asts|, Opening(ast), k);
    }
  }

  lemma OpeningKey(asts: seq<Expr>, k: TaskKey)
    ensures k in OpeningKeys(asts) <==> k.problem < |asts| && k.task in Opening(asts[k.problem])
  {
    assert k == TaskKey(k.problem, k.task);
  }

  lemma KeyOfTask(p: ProblemId, ts: set<TaskId>, k: TaskKey)
    ensures k in KeysOf(p, ts) <==> k.problem == p && k.task in ts
  {
    assert k == TaskKey(k.problem, k.task);
  }

  lemma DisjointSize<T>(a: set<T>, b: set<T>)
    requires a !! b
    ensures |a + b| == |a| + |b|
  {
  }

  lemma {:induction false} OpeningKeysSize(asts: seq<Expr>)
    ensures |OpeningKeys(asts)| == Tally(Openings(asts))
  {
    if asts == [] {
      assert OpeningKeys(asts) == {};
    } else {
      var front, ast := asts[..|asts| - 1], asts[|asts| - 1];
      assert asts == front + [ast];
      OpeningKeysSize(front);
      MoreOpeningKeys(front, ast);
      OneMoreOpening(front, ast);
    }
  }

  lemma MoreOpeningKeys(asts: seq<Expr>, ast: Expr)
    ensures |OpeningKeys(asts + [ast])| == |OpeningKeys(asts)| + |Opening(ast)|
  {
    OpeningKeysGrow(asts, ast);
    KeysOfSize(|asts|, Opening(ast));
    DisjointSize(OpeningKeys(asts), KeysOf(|asts|, Opening(ast)));
  }

  lemma OneMoreOpening(asts: seq<Expr>, ast: Expr)
    ensures Tally(Openings(asts + [ast])) == Tally(Openings(asts)) + |Opening(ast)|
  {
    assert Openings(asts + [ast]) == Openings(asts) + [|Opening(ast)|];
    TallyGrows(Openings(asts), |Opening(ast)|);
  }

  lemma StartsInRange(asts: seq<Expr>)
    requires NoneConstant(asts)
    ensures forall p :: p in Starts(asts) ==> p < |asts| && InRange(Starts(asts)[p])
  {
    forall p | p in Starts(asts)
      ensures p < |asts| && InRange(Starts(asts)[p])
    {
      AnyOrderOfPlan(asts[p]);
      StartAgrees(PlanOf(asts[p]));
    }
  }

  lemma FirstFrontier(asts: seq<Expr>, k: TaskKey)
    requires NoneConstant(asts)
    ensures InFrontier(Starts(asts), k) <==> k in OpeningKeys(asts)
  {
    StartsInRange(asts);
    OpeningKey(asts, k);
  }

  /** The first pass over the problems sends every operation that can be requested at once. */
  lemma FirstPass(asts: seq<Expr>) returns (ks: seq<TaskKey>, tasks: seq<Task>)
    requires NoneConstant(asts)
    ensures IsPass(Starts(asts), ks) && AreRequests(Starts(asts), ks, tasks) && |tasks| == Tally(Openings(asts))
  {
    StartsInRange(asts);
    ks, tasks := PassExists(Starts(asts), |asts|);
    forall k
      ensures k in ks <==> k in OpeningKeys(asts)
    {
      FirstFrontier(asts, k);
    }
    CardinalityOfDistinct(ks, OpeningKeys(asts));
    OpeningKeysSize(asts);
  }

  // ---------- the same problem many times ----------

  /** A problem with an operation at its root has one to request. */
  lemma OpeningSize(ast: Expr)
    requires NoConstants(ast) && !IsVariable(GetType(ast))
    ensures |Opening(ast)| >= 1 && (Shallow(ast) ==> |Opening(ast)| == 1)
  {
    var t := StartHasWork(ast);
    if Opening(ast) != {t} {
      assert |Opening(ast) - {t}| == |Opening(ast)| - 1;
      var u :| u in Opening(ast) && u != t;
      if Shallow(ast) {
        StartTask(ast, u);
        StartTask(ast, t);
      }
    }
  }

  /** An operation on variables. */
  predicate Shallow(ast: Expr) {
    !IsVariable(GetType(ast)) && forall k :: 0 <= k < |Operands(ast)| ==> IsVariable(GetType(Operands(ast)[k]))
  }

  /** Its root is its only operation. */
  lemma OnlyRoot(ast: Expr, v: TaskId)
    requires Shallow(ast) && IsOperation(DagOf(ast), v)
    ensures v == Root(DagOf(ast))
  {
    var records := Records(ast);
    assert records[v] in Subtrees(ast);
    LeavesBelow(ast, records[v]);
    assert records[v] == ast == records[Root(DagOf(ast))];
  }

  lemma LeavesBelow(ast: Expr, e: Expr)
    requires Shallow(ast) && e in Subtrees(ast)
    ensures e == ast || IsVariable(GetType(e))
  {
    match ast
    case Reduce(_, o) => assert Operands(ast)[0] == o;
    case MapExpr(_, l, r) => assert Operands(ast)[0] == l && Operands(ast)[1] == r;
    case ListOp(_, l, r) => assert Operands(ast)[0] == l && Operands(ast)[1] == r;
    case ScalarOpExpr(_, l, r) => assert Operands(ast)[0] == l && Operands(ast)[1] == r;
  }

  lemma StartTask(ast: Expr, t: TaskId)
    requires NoConstants(ast) && Shallow(ast) && t in Opening(ast)
    ensures t == Root(DagOf(ast))
  {
    AnyOrderOfPlan(ast);
    StartAgrees(PlanOf(ast));
    FrontierIsNew(Dispatch.Start(PlanOf(ast)), t);
    OnlyRoot(ast, t);
  }

  // ---------- the registered worker is filled, the rest is queued ----------

  /** Only the manager's and the broker's positions differ. */
  ghost predicate SameElsewhere(s: Cluster, s': Cluster) {
    s' == s.(taken := s'.taken, broker := s'.broker)
  }

  /** Worker i alone is registered and has n free cores. */
  ghost predicate Offering(free: map<WorkerId, nat>, i: WorkerId, n: nat) {
    i in free && free[i] == n && forall w :: w in free ==> w == i
  }

  lemma {:induction false} Fill(drain: Drain, world: World, run: seq<Action>, s: Cluster, i: WorkerId, n: nat)
    returns (run': seq<Action>, s': Cluster)
    requires Reached(drain, world, run, s) && !s.crashed
    requires Offering(s.broker.free, i, n) && s.taken + n <= |s.sent|
    ensures Reached(drain, world, run', s') && SameElsewhere(s, s')
    ensures Offering(s'.broker.free, i, 0) && s'.taken == s.taken + n && SameReplies(s, s')
    ensures InOrder(s.broker, s.sent[..s.taken]) && s.broker.queue == [] ==> InOrder(s'.broker, s.sent[..s'.taken])
    decreases n
  {
    if n == 0 {
      run', s' := run, s;
    } else {
      var s1 := GiveOne(drain, world, run, s, i, n);
      run', s' := Fill(drain, world, run + [FromManager(Some(i))], s1, i, n - 1);
    }
  }

  ghost predicate SameReplies(s: Cluster, s': Cluster) {
    s'.broker.queue == s.broker.queue && s'.broker.replied == s.broker.replied
  }

  lemma GiveOne(drain: Drain, world: World, run: seq<Action>, s: Cluster, i: WorkerId, n: nat) returns (s': Cluster)
    requires Reached(drain, world, run, s) && !s.crashed
    requires Offering(s.broker.free, i, n) && n > 0 && s.taken < |s.sent|
    ensures Reached(drain, world, run + [FromManager(Some(i))], s') && SameElsewhere(s, s')
    ensures Offering(s'.broker.free, i, n - 1) && s'.taken == s.taken + 1 && SameReplies(s, s')
    ensures InOrder(s.broker, s.sent[..s.taken]) && s.broker.queue == [] ==> InOrder(s'.broker, s.sent[..s'.taken])
  {
    assert i in s.broker.free;
    ReachedNext(drain, world, run, s, FromManager(Some(i)));
    s' := Next(drain, world, s, FromManager(Some(i)));
    if s.broker.queue == [] && InOrder(s.broker, s.sent[..s.taken]) {
      GivenInOrder(s.broker, s'.broker, i, s.sent, s.taken);
    }
  }

  lemma GivenInOrder(b: BrokerState, b': BrokerState, i: WorkerId, sent: seq<Task>, taken: nat)
    requires taken < |sent| && b.queue == b'.queue == [] && InOrder(b, sent[..taken])
    requires b'.published == b.published + [WorkerTask(i, sent[taken])]
    ensures InOrder(b', sent[..taken + 1])
  {
    TasksOneMore(b.published, i, sent[taken]);
    assert sent[..taken + 1] == sent[..taken] + [sent[taken]];
  }

  /** A client for each of the problems; worker i has all it can take, the rest of their first tasks is
      queued, and no reply has reached the broker. */
  ghost predicate Overloaded(s: Cluster, cores: seq<nat>, i: WorkerId, asts: seq<Expr>) {
    && !s.crashed && Employs(s, cores) && i < |cores|
    && s.clients == AllAsk(asts) && s.problems == AfterSendAll(Starts(asts))
    && IsFull(s.broker, i) && |s.broker.queue| == Tally(Openings(asts)) - cores[i] + 1 && s.broker.replied == [] && s.seen == 0
    && s.taken == |s.sent| && InOrder(s.broker, s.sent)
  }

  /** Problems that have a value, with more operations to request at once than worker i has cores. */
  ghost predicate TooMany(world: World, cores: seq<nat>, i: WorkerId, asts: seq<Expr>) {
    && i < |cores| && 2 <= cores[i] < Tally(Openings(asts)) && (forall w :: 0 <= w < |cores| ==> 1 <= cores[w] <= UINT32)
    && |asts| <= UINT32 && forall p :: 0 <= p < |asts| ==> Solvable(world, asts[p])
  }

  lemma OfferOf(cores: seq<nat>, i: WorkerId)
    requires i < |cores| && 1 <= cores[i] <= UINT32
    ensures Offering(Offers(cores, {i}), i, cores[i] - 1)
  {
  }

  lemma AskMany(world: World, cores: seq<nat>, i: WorkerId, asts: seq<Expr>) returns (run: seq<Action>, s: Cluster)
    requires TooMany(world, cores, i, asts)
    ensures Reached(AsWritten, world, run, s) && JustAskedMany(s, cores, i, asts)
  {
    run := HireOne(AsWritten, world, cores, i);
    OfferOf(cores, i);
    var s1 := WithTeam(Boot(), cores, {i});
    run := PushMany(AsWritten, world, run, s1, asts, |asts|);
    assert asts[..|asts|] == asts;
    var s2 := Crowd(s1, asts);
    var ks, tasks := FirstPass(asts);
    ReachedNext(AsWritten, world, run, s2, Send(ks, tasks));
    run := run + [Send(ks, tasks)];
    s := s2.(problems := AfterSendAll(s2.problems), sent := s2.sent + tasks);
  }

  /** All requests are on the wire. */
  ghost predicate JustAskedMany(s: Cluster, cores: seq<nat>, i: WorkerId, asts: seq<Expr>) {
    && !s.crashed && Employs(s, cores) && i < |cores| && 1 <= cores[i] <= |s.sent|
    && s.clients == AllAsk(asts) && s.problems == AfterSendAll(Starts(asts))
    && Offering(s.broker.free, i, cores[i] - 1)
    && s.broker.queue == [] && s.broker.published == [] && s.broker.replied == [] && s.seen == 0
    && s.taken == 0 && |s.sent| == Tally(Openings(asts))
  }

  lemma Overwhelm(world: World, cores: seq<nat>, i: WorkerId, asts: seq<Expr>) returns (run: seq<Action>, s: Cluster)
    requires TooMany(world, cores, i, asts)
    ensures Reached(AsWritten, world, run, s) && Overloaded(s, cores, i, asts)
  {
    var s1, s2;
    run, s1 := AskMany(world, cores, i, asts);
    assert Tasks([]) + [] == s1.sent[..0];
    run, s2 := Fill(AsWritten, world, run, s1, i, cores[i] - 1);
    FullIsOverloaded(s1, s2, cores, i, asts);
    run := QueueAll(AsWritten, world, run, s2);
    s := AllQueued(s2);
  }

  lemma FullIsOverloaded(s1: Cluster, s: Cluster, cores: seq<nat>, i: WorkerId, asts: seq<Expr>)
    requires JustAskedMany(s1, cores, i, asts) && SameElsewhere(s1, s) && SameReplies(s1, s) && cores[i] >= 1
    requires Offering(s.broker.free, i, 0) && s.taken == cores[i] - 1 && InOrder(s.broker, s.sent[..s.taken])
    ensures NoneFree(s.broker) && Overloaded(AllQueued(s), cores, i, asts)
  {
    assert i in s.broker.free;
    QueuedInOrder(s.broker, s.sent, s.taken);
  }

  lemma QueuedInOrder(b: BrokerState, sent: seq<Task>, taken: nat)
    requires taken <= |sent| && b.queue == [] && InOrder(b, sent[..taken])
    ensures var b' := b.(queue := b.queue + sent[taken..]);
            InOrder(b', sent) && |b'.queue| == |sent| - taken
  {
    assert Tasks(b.published) + [] == Tasks(b.published) && [] + sent[taken..] == sent[taken..];
    assert sent == sent[..taken] + sent[taken..];
  }

  lemma CrowdDefined(world: World, s: Cluster, cores: seq<nat>, i: WorkerId, asts: seq<Expr>)
    requires Overloaded(s, cores, i, asts) && TooMany(world, cores, i, asts)
    ensures AllDefined(world, s.clients) && Staffed(s)
  {
  }

  // ---------- a worker with a task comes to reply ----------

  lemma OverloadStays(world: World, s: Cluster, cores: seq<nat>, i: WorkerId, asts: seq<Expr>, a: Action)
    requires Overloaded(s, cores, i, asts) && Enabled(world, s, a) && OwnStep(a, i) && !Next(AsWritten, world, s, a).crashed
    ensures Overloaded(Next(AsWritten, world, s, a), cores, i, asts)
  {
    WorkerStepFrame(AsWritten, world, s, a);
  }

  lemma WorkUntilReply(world: World, run: seq<Action>, s: Cluster, cores: seq<nat>, i: WorkerId, asts: seq<Expr>)
    returns (run': seq<Action>, s': Cluster)
    requires Reached(AsWritten, world, run, s) && Overloaded(s, cores, i, asts) && TooMany(world, cores, i, asts)
    ensures Reached(AsWritten, world, run', s') && Overloaded(s', cores, i, asts) && s'.workers[i].outbox != []
    decreases Remaining(s)
  {
    RunIsRegular(AsWritten, world, run, s);
    RemainingNonNegative(s);
    if s.workers[i].outbox != [] {
      run', s' := run, s;
    } else {
      var a := NextOwnStep(world, run, s, cores, i, asts);
      StepReducesRemaining(AsWritten, world, s, a);
      run', s' := WorkUntilReply(world, run + [a], Next(AsWritten, world, s, a), cores, i, asts);
    }
  }

  lemma NextOwnStep(world: World, run: seq<Action>, s: Cluster, cores: seq<nat>, i: WorkerId, asts: seq<Expr>) returns (a: Action)
    requires Reached(AsWritten, world, run, s) && Overloaded(s, cores, i, asts) && TooMany(world, cores, i, asts) && s.workers[i].outbox == []
    ensures CanAct(world, s, a) && OwnStep(a, i)
    ensures Reached(AsWritten, world, run + [a], Next(AsWritten, world, s, a)) && Overloaded(Next(AsWritten, world, s, a), cores, i, asts)
  {
    RunIsRegular(AsWritten, world, run, s);
    CrowdDefined(world, s, cores, i, asts);
    FullHasLoad(s, i);
    a := WorkerCanAct(world, s, i);
    OwnStepStays(world, run, s, cores, i, asts, a);
  }

  lemma FullHasLoad(s: Cluster, i: WorkerId)
    requires WorkersFit(s.broker, s.workers) && i < |s.workers| && IsFull(s.broker, i) && 2 <= s.workers[i].cores <= UINT32
    ensures Load(s.broker.published, s.workers[i], i) == s.workers[i].cores - 1
  {
    assert WorkerFits(s.broker.free, s.broker.published, s.workers[i], i);
    NoCoresAdvertisesAll();
  }

  lemma OwnStepStays(world: World, run: seq<Action>, s: Cluster, cores: seq<nat>, i: WorkerId, asts: seq<Expr>, a: Action)
    requires Reached(AsWritten, world, run, s) && Overloaded(s, cores, i, asts) && Enabled(world, s, a) && OwnStep(a, i)
    ensures Reached(AsWritten, world, run + [a], Next(AsWritten, world, s, a)) && Overloaded(Next(AsWritten, world, s, a), cores, i, asts)
  {
    ReachedNext(AsWritten, world, run, s, a);
    NeverCrashes(AsWritten, world, run + [a], Next(AsWritten, world, s, a));
    OverloadStays(world, s, cores, i, asts, a);
  }

  // ---------- the loss ----------

  lemma RepliesFirst(world: World, run: seq<Action>, s: Cluster, i: WorkerId)
    requires Run(AsWritten, world, run) == Some(s) && i < |s.workers| && i in s.broker.free && s.workers[i].outbox != []
    ensures s.workers[i].outbox[0].TaskDone?
  {
    RunFits(AsWritten, world, run);
    assert WorkerFits(s.broker.free, s.broker.published, s.workers[i], i);
  }

  /** If the operations that can be requested at once outnumber the cores of some worker, the drain as
      written comes to find two tasks, and loses one. */
  lemma WrittenDrainIsOverloaded(world: World, cores: seq<nat>, i: WorkerId, asts: seq<Expr>) returns (run: seq<Action>, s: Cluster)
    requires TooMany(world, cores, i, asts)
    ensures Reached(AsWritten, world, run, s) && Overloaded(s, cores, i, asts)
    ensures Enabled(world, s, FromWorker(i)) && Drains(s, FromWorker(i)) && |s.broker.queue| >= 2
  {
    run, s := Overwhelm(world, cores, i, asts);
    run, s := WorkUntilReply(world, run, s, cores, i, asts);
    RepliesFirst(world, run, s, i);
  }

  lemma {:induction false} LossShows(world: World, run: seq<Action>, steps: seq<Action>)
    requires !DrainsSingly(world, run)
    ensures !DrainsSingly(world, run + steps)
  {
    var all := run + steps;
    if steps == [] {
      assert all == run;
    } else {
      assert all[..|all| - 1] == run + steps[..|steps| - 1];
      LossShows(world, run, steps[..|steps| - 1]);
    }
  }

  lemma BadDrainShows(world: World, run: seq<Action>, s: Cluster, a: Action)
    requires Run(AsWritten, world, run) == Some(s) && Enabled(world, s, a) && Drains(s, a) && |s.broker.queue| >= 2
    ensures Run(AsWritten, world, run + [a]) == Some(Next(AsWritten, world, s, a)) && !DrainsSingly(world, run + [a])
  {
    assert (run + [a])[..|run|] == run;
  }

  /** A drain that loses a task goes on to a state at rest. */
  lemma LossRests(world: World, run: seq<Action>, s: Cluster, i: WorkerId) returns (run': seq<Action>, end: Cluster)
    requires Reached(AsWritten, world, run, s) && Enabled(world, s, FromWorker(i)) && Drains(s, FromWorker(i)) && |s.broker.queue| >= 2
    requires AllDefined(world, s.clients) && Staffed(s) && Equipped(s.workers)
    ensures Run(AsWritten, world, run') == Some(end) && !DrainsSingly(world, run') && AtRest(world, end)
    ensures |end.workers| == |s.workers| && SameCores(s.workers, end.workers)
    ensures |end.clients| == |s.clients| && forall p :: 0 <= p < |s.clients| ==> end.clients[p].ast == s.clients[p].ast
    ensures AllDefined(world, end.clients)
  {
    var steps;
    BadDrainShows(world, run, s, FromWorker(i));
    var s1 := DrainTidily(world, run, s, i);
    StepKeepsStaff(AsWritten, world, s, FromWorker(i));
    steps, end := RestSafely(AsWritten, world, run + [FromWorker(i)], s1);
    StepsKeepStaff(AsWritten, world, s1, steps, end);
    RunContinues(AsWritten, world, run + [FromWorker(i)], s1, steps);
    LossShows(world, run + [FromWorker(i)], steps);
    run' := run + [FromWorker(i)] + steps;
  }

  /** The overload goes on to a state at rest. */
  lemma OverloadRests(world: World, cores: seq<nat>, i: WorkerId, asts: seq<Expr>) returns (run: seq<Action>, s: Cluster)
    requires TooMany(world, cores, i, asts) && forall w :: 0 <= w < |cores| ==> 2 <= cores[w]
    ensures Run(AsWritten, world, run) == Some(s) && !DrainsSingly(world, run)
    ensures Employs(s, cores) && AllDefined(world, s.clients) && AtRest(world, s)
    ensures |s.clients| == |asts| && forall p :: 0 <= p < |asts| ==> s.clients[p].ast == asts[p]
  {
    var s1;
    run, s1 := WrittenDrainIsOverloaded(world, cores, i, asts);
    CrowdDefined(world, s1, cores, i, asts);
    run, s := LossRests(world, run, s1, i);
  }

  lemma DrainTidily(world: World, run: seq<Action>, s: Cluster, i: WorkerId) returns (s': Cluster)
    requires Reached(AsWritten, world, run, s) && Enabled(world, s, FromWorker(i))
    ensures s' == Next(AsWritten, world, s, FromWorker(i)) && Tidy(world, s')
  {
    ReachedIsPatient(AsWritten, world, run, s);
    PatientRunIsTidy(AsWritten, world, run);
    s' := Next(AsWritten, world, s, FromWorker(i));
    StepKeepsTidy(AsWritten, world, s, FromWorker(i));
  }

  /** The same problem often enough. */
  lemma Repeat(world: World, cores: seq<nat>, i: WorkerId, ast: Expr) returns (asts: seq<Expr>)
    requires i < |cores| && cores[i] >= 2 && (forall w :: 0 <= w < |cores| ==> 1 <= cores[w] <= INT_MAX) && Solvable(world, ast)
    ensures TooMany(world, cores, i, asts) && |asts| == cores[i] + 1 && forall p :: 0 <= p < |asts| ==> asts[p] == ast
    ensures Shallow(ast) ==> Tally(Openings(asts)) == |asts|
  {
    asts := seq(cores[i] + 1, _ => ast);
    SameOpenings(ast, asts);
  }

  lemma SameOpenings(ast: Expr, asts: seq<Expr>)
    requires NoConstants(ast) && !IsVariable(GetType(ast)) && forall p :: 0 <= p < |asts| ==> asts[p] == ast
    ensures Tally(Openings(asts)) >= |asts| && (Shallow(ast) ==> Tally(Openings(asts)) == |asts|)
  {
    OpeningSize(ast);
    TallyOfMany(Openings(asts));
  }

  /** Enough of the same problem leave one unanswered. */
  lemma RepeatsRest(world: World, cores: seq<nat>, ast: Expr) returns (run: seq<Action>, s: Cluster)
    requires cores != [] && (forall w :: 0 <= w < |cores| ==> 2 <= cores[w] <= INT_MAX) && Solvable(world, ast)
    ensures Run(AsWritten, world, run) == Some(s) && Employs(s, cores) && AllDefined(world, s.clients) && AtRest(world, s)
    ensures !AllReturned(s.clients)
  {
    var asts := Repeat(world, cores, 0, ast);
    run, s := OverloadRests(world, cores, 0, asts);
    LossIsUnanswered(world, run, s);
  }

  /** The code as written: with any workers, and any problem to ask for, some run comes to rest, the
      system up, with a client that is never answered, although every problem asked has a value. */
  lemma NoStaffingSuffices(world: World, cores: seq<nat>, ast: Expr) returns (run: seq<Action>, s: Cluster)
    requires cores != [] && (forall w :: 0 <= w < |cores| ==> 1 <= cores[w] <= INT_MAX) && Solvable(world, ast)
    ensures Run(AsWritten, world, run) == Some(s) && Employs(s, cores) && AllDefined(world, s.clients) && AtRest(world, s)
    ensures !s.crashed && !AllReturned(s.clients)
  {
    if i :| 0 <= i < |cores| && cores[i] == 1 {
      run, s := OneCoreWorkerStrands(AsWritten, world, cores, i, ast);
      assert s.clients[0] == Asks(ast);
    } else {
      run, s := RepeatsRest(world, cores, ast);
    }
  }
}
