/** When the code as written crashes: a task the drain has doubled is answered a second time after its
    problem has been cleared, and the dispatcher looks up what is no longer there. Some run does so if
    and only if some worker has two cores.
 */
module Collapse {
  import opened Domain
  import opened Expression
  import opened Sharing
  import opened Dispatch
  import opened Broker
  import opened Worker
  import opened Capacity
  import opened Pipeline
  import opened Cluster
  import opened Desk
  import opened Soundness
  import opened Ledger
  import opened Termination
  import opened AllRuns
  import opened Safety
  import opened Results
  import opened Progress
  import opened Conservation
  import opened Patience
  import opened Stranded
  import opened Overload

  // ---------- an operation on variables ----------

  /** A problem that has a value contains an operation on variables that has one. */
  lemma {:induction false} ShallowWithin(world: World, ast: Expr) returns (b: Expr)
    requires Solvable(world, ast)
    ensures Solvable(world, b) && Shallow(b)
    decreases ast
  {
    if k :| 0 <= k < |Operands(ast)| && !IsVariable(GetType(Operands(ast)[k])) {
      OperandSolvable(world, ast, k);
      b := ShallowWithin(world, Operands(ast)[k]);
    } else {
      b := ast;
    }
  }

  lemma OperandSolvable(world: World, ast: Expr, k: nat)
    requires NoConstants(ast) && Eval(ast, world).Some? && k < |Operands(ast)|
    ensures NoConstants(Operands(ast)[k]) && Eval(Operands(ast)[k], world).Some?
  {
    EvalFromOperands(ast, world);
    assert OperandValues(ast, world)[k] == Eval(Operands(ast)[k], world);
  }

  // ---------- every client asks for something that has a value ----------

  ghost predicate AllSolvable(world: World, clients: seq<Client>) {
    forall p :: 0 <= p < |clients| ==> Solvable(world, clients[p].ast)
  }

  /** What does not change on the way to the crash: the workers and what the clients ask for. */
  ghost predicate Manned(world: World, s: Cluster, cores: seq<nat>) {
    && Employs(s, cores) && cores != [] && (forall w :: 0 <= w < |cores| ==> 1 <= cores[w] <= UINT32)
    && AllSolvable(world, s.clients)
  }

  lemma MannedStays(world: World, s: Cluster, cores: seq<nat>, a: Action)
    requires Manned(world, s, cores) && Enabled(world, s, a) && Internal(a)
    ensures Manned(world, Next(AsWritten, world, s, a), cores)
  {
    var s' := Next(AsWritten, world, s, a);
    StepFrame(AsWritten, world, s, a);
    forall p | 0 <= p < |s'.clients|
      ensures Solvable(world, s'.clients[p].ast)
    {
      assert SameClient(s.clients[p], s'.clients[p]);
    }
  }

  lemma MannedIsStaffed(world: World, s: Cluster, cores: seq<nat>)
    requires Manned(world, s, cores)
    ensures Staffed(s) && AllDefined(world, s.clients)
  {
  }

  // ---------- nothing new is requested, and at most one task is queued ----------

  /** All requests have reached the broker; if a task waits there, worker i has all its cores taken. */
  ghost predicate Drying(s: Cluster, i: WorkerId) {
    && s.taken == |s.sent| && |s.broker.queue| <= 1
    && (s.broker.queue != [] ==> IsBusy(s, i))
  }

  /** A step that moves a message other than a request. */
  predicate MovesOn(a: Action) {
    ByWorker(a) || a.FromWorker? || a.Reply?
  }

  lemma MoveOn(world: World, s: Cluster, cores: seq<nat>, i: WorkerId, k: TaskKey) returns (a: Action)
    requires !s.crashed && Regular(world, s) && Manned(world, s, cores) && Drying(s, i) && Owed(s, k) > 0
    requires Balanced(s.broker, s.workers)
    ensures CanAct(world, s, a) && MovesOn(a)
  {
    OwedIsInFlight(s, k);
    MannedIsStaffed(world, s, cores);
    a := MessageCanMove(world, s, k);
  }

  lemma ReceiptKeepsDrying(s: Cluster, i: WorkerId, w: WorkerId)
    requires Drying(s, i) && WorkersFit(s.broker, s.workers) && w < |s.workers| && s.workers[w].outbox != []
    ensures Drying(NextFromWorker(AsWritten, s, w), i)
  {
    assert WorkerFits(s.broker.free, s.broker.published, s.workers[w], w);
  }

  lemma MoveKeepsDrying(world: World, s: Cluster, i: WorkerId, a: Action)
    requires Drying(s, i) && WorkersFit(s.broker, s.workers) && Enabled(world, s, a) && MovesOn(a)
    ensures Drying(Next(AsWritten, world, s, a), i)
  {
    if a.FromWorker? {
      ReceiptKeepsDrying(s, i, a.w);
    } else if a.Reply? {
      ManagerStepFrame(AsWritten, world, s, a);
    } else {
      WorkerStepFrame(AsWritten, world, s, a);
      assert s.broker.queue != [] ==> IsBusy(Next(AsWritten, world, s, a), i);
    }
  }

  lemma OwnMoveKeepsOwed(world: World, s: Cluster, a: Action, k: TaskKey)
    requires s.seen <= |s.broker.replied| && Enabled(world, s, a) && ByWorker(a)
    ensures var s' := Next(AsWritten, world, s, a);
            s'.broker == s.broker && s'.seen == s.seen && s'.seen <= |s'.broker.replied| && Owed(s', k) == Owed(s, k)
  {
    WorkerStepFrame(AsWritten, world, s, a);
  }

  lemma ReceiptKeepsSeen(s: Cluster, w: WorkerId)
    requires s.seen <= |s.broker.replied| && w < |s.workers| && s.workers[w].outbox != []
    ensures NextFromWorker(AsWritten, s, w).seen <= |NextFromWorker(AsWritten, s, w).broker.replied|
  {
  }

  /** What a step that moves a message leaves owed. */
  lemma OwedAfterMove(world: World, s: Cluster, a: Action, k: TaskKey)
    requires s.seen <= |s.broker.replied| && Enabled(world, s, a) && MovesOn(a) && |s.broker.queue| <= 1
    requires !Next(AsWritten, world, s, a).crashed
    ensures var s' := Next(AsWritten, world, s, a);
            && s'.seen <= |s'.broker.replied|
            && Owed(s', k) == Owed(s, k) - if a.Reply? && s.broker.replied[s.seen] == k then 1 else 0
  {
    if a.FromWorker? {
      ReceiptKeepsSeen(s, a.w);
      OwedAfterReceipt(AsWritten, s, a.w, k);
    } else if a.Reply? {
      OwedAfterReply(s, k);
    } else {
      OwnMoveKeepsOwed(world, s, a, k);
    }
  }

  // ---------- the first answer ----------

  ghost predicate Going(world: World, s: Cluster, cores: seq<nat>, i: WorkerId) {
    Tidy(world, s) && Balanced(s.broker, s.workers) && Manned(world, s, cores) && Drying(s, i)
  }

  /** c is the root of a problem whose client still waits. */
  ghost predicate Awaited(s: Cluster, c: TaskKey) {
    && c.problem < |s.clients| && s.clients[c.problem].frame == Waiting(false) && c.problem in s.problems
    && IsLast(s.problems[c.problem], c.task)
  }

  /** c is awaited, and owed twice. */
  ghost predicate Doubled(world: World, s: Cluster, cores: seq<nat>, i: WorkerId, c: TaskKey) {
    Going(world, s, cores, i) && Awaited(s, c) && Owed(s, c) >= 2
  }

  /** c's client has been flagged, and c is owed once more. */
  ghost predicate Answered(world: World, s: Cluster, cores: seq<nat>, i: WorkerId, c: TaskKey) {
    Going(world, s, cores, i) && c.problem < |s.clients| && s.clients[c.problem].frame == Waiting(true) && Owed(s, c) >= 1
  }

  lemma OtherReplyWaits(s: Cluster, c: TaskKey)
    requires Managed(s) && s.seen < |s.broker.replied| && !NextReply(s).crashed && !s.crashed && s.broker.replied[s.seen] != c
    requires Awaited(s, c)
    ensures Awaited(NextReply(s), c)
  {
    var k := s.broker.replied[s.seen];
    ReplyIs(s);
    if k.problem == c.problem {
      assert k.task != c.task by { assert TaskKey(k.problem, k.task) == k && TaskKey(c.problem, c.task) == c; }
    }
  }

  lemma FirstReplyFlags(s: Cluster, c: TaskKey)
    requires Managed(s) && s.seen < |s.broker.replied| && !NextReply(s).crashed && !s.crashed && s.broker.replied[s.seen] == c
    requires Awaited(s, c)
    ensures |NextReply(s).clients| == |s.clients| && NextReply(s).clients[c.problem].frame == Waiting(true)
  {
    ReplyIs(s);
  }

  lemma MoveKeepsGoing(world: World, s: Cluster, cores: seq<nat>, i: WorkerId, a: Action)
    requires Going(world, s, cores, i) && CanAct(world, s, a) && MovesOn(a)
    ensures Going(world, Next(AsWritten, world, s, a), cores, i)
  {
    StepKeepsTidy(AsWritten, world, s, a);
    StepBalances(AsWritten, world, s, a);
    MannedStays(world, s, cores, a);
    MoveKeepsDrying(world, s, i, a);
  }

  lemma MoveKeepsAwaited(world: World, s: Cluster, a: Action, c: TaskKey)
    requires !s.crashed && Managed(s) && Enabled(world, s, a) && MovesOn(a) && Awaited(s, c) && !Next(AsWritten, world, s, a).crashed
    requires a.Reply? ==> s.broker.replied[s.seen] != c
    ensures Awaited(Next(AsWritten, world, s, a), c)
  {
    if a.Reply? {
      OtherReplyWaits(s, c);
    } else {
      OthersLeaveBooks(AsWritten, world, s, a);
    }
  }

  /** The reply to c, or another move. */
  predicate Answers(s: Cluster, a: Action, c: TaskKey) {
    a.Reply? && s.seen < |s.broker.replied| && s.broker.replied[s.seen] == c
  }

  lemma MoveKeepsDoubled(world: World, s: Cluster, cores: seq<nat>, i: WorkerId, c: TaskKey, a: Action)
    requires Doubled(world, s, cores, i, c) && CanAct(world, s, a) && MovesOn(a)
    ensures Answers(s, a, c) ==> Answered(world, Next(AsWritten, world, s, a), cores, i, c)
    ensures !Answers(s, a, c) ==> Doubled(world, Next(AsWritten, world, s, a), cores, i, c)
  {
    MoveKeepsGoing(world, s, cores, i, a);
    OwedAfterMove(world, s, a, c);
    if Answers(s, a, c) {
      FirstReplyFlags(s, c);
    } else {
      MoveKeepsAwaited(world, s, a, c);
    }
  }

  lemma UntilAnswered(world: World, run: seq<Action>, s: Cluster, cores: seq<nat>, i: WorkerId, c: TaskKey)
    returns (run': seq<Action>, s': Cluster)
    requires Run(AsWritten, world, run) == Some(s) && Doubled(world, s, cores, i, c)
    ensures Run(AsWritten, world, run') == Some(s') && Answered(world, s', cores, i, c)
    decreases Remaining(s)
  {
    RemainingNonNegative(s);
    var a := MoveOn(world, s, cores, i, c);
    StepReducesRemaining(AsWritten, world, s, a);
    MoveKeepsDoubled(world, s, cores, i, c, a);
    ContinueLast(AsWritten, world, Boot(), run, a);
    run', s' := run + [a], Next(AsWritten, world, s, a);
    if !Answers(s, a, c) {
      run', s' := UntilAnswered(world, run', s', cores, i, c);
    }
  }

  // ---------- the second answer ----------

  /** c's problem is gone, and c is owed. */
  ghost predicate Doomed(world: World, s: Cluster, cores: seq<nat>, i: WorkerId, c: TaskKey) {
    && !s.crashed && Regular(world, s) && Balanced(s.broker, s.workers) && Manned(world, s, cores) && Drying(s, i)
    && c.problem !in s.problems && c.problem < |s.clients| && Owed(s, c) >= 1
  }

  lemma ClearDooms(world: World, run: seq<Action>, s: Cluster, cores: seq<nat>, i: WorkerId, c: TaskKey) returns (s': Cluster)
    requires Run(AsWritten, world, run) == Some(s) && Answered(world, s, cores, i, c)
    ensures Run(AsWritten, world, run + [Clear(c.problem)]) == Some(s') && Doomed(world, s', cores, i, c)
  {
    var a := Clear(c.problem);
    s' := Next(AsWritten, world, s, a);
    ContinueLast(AsWritten, world, Boot(), run, a);
    StepIsSafe(AsWritten, world, s, a);
    StepKeepsRegular(AsWritten, world, s, a);
    MannedStays(world, s, cores, a);
    ManagerStepFrame(AsWritten, world, s, a);
    ClearKeepsOwed(s, c);
  }

  lemma ClearKeepsOwed(s: Cluster, c: TaskKey)
    requires c.problem < |s.clients| && s.seen <= |s.broker.replied|
    ensures var s' := WithFrame(s, c.problem, Cleared).(problems := s.problems - {c.problem}, sync := s.sync - {c.problem});
            Owed(s', c) == Owed(s, c) && s'.seen == s.seen && c.problem !in s'.problems
  {
  }

  lemma SecondReplyCrashes(s: Cluster, c: TaskKey)
    requires s.seen < |s.broker.replied| && s.broker.replied[s.seen] == c && c.problem !in s.problems
    ensures NextReply(s).crashed
  {
  }

  lemma MoveKeepsDoomed(world: World, s: Cluster, cores: seq<nat>, i: WorkerId, c: TaskKey, a: Action)
    requires Doomed(world, s, cores, i, c) && CanAct(world, s, a) && MovesOn(a)
    ensures Next(AsWritten, world, s, a).crashed || Doomed(world, Next(AsWritten, world, s, a), cores, i, c)
  {
    var s' := Next(AsWritten, world, s, a);
    if !s'.crashed {
      StepKeepsRegular(AsWritten, world, s, a);
      StepBalances(AsWritten, world, s, a);
      MannedStays(world, s, cores, a);
      MoveKeepsDrying(world, s, i, a);
      OwedAfterMove(world, s, a, c);
      MoveKeepsGone(world, s, a, c.problem);
      if a.Reply? && s.broker.replied[s.seen] == c {
        SecondReplyCrashes(s, c);
      }
    }
  }

  lemma MoveKeepsGone(world: World, s: Cluster, a: Action, p: ProblemId)
    requires Regular(world, s) && Enabled(world, s, a) && MovesOn(a) && p !in s.problems && p < |s.clients|
    ensures p !in Next(AsWritten, world, s, a).problems && p < |Next(AsWritten, world, s, a).clients|
  {
    if a.Reply? {
      StepFrame(AsWritten, world, s, a);
    } else {
      OthersLeaveBooks(AsWritten, world, s, a);
    }
  }

  lemma UntilCrash(world: World, run: seq<Action>, s: Cluster, cores: seq<nat>, i: WorkerId, c: TaskKey)
    returns (run': seq<Action>, s': Cluster)
    requires Run(AsWritten, world, run) == Some(s) && Doomed(world, s, cores, i, c)
    ensures Run(AsWritten, world, run') == Some(s') && s'.crashed && Manned(world, s', cores)
    decreases Remaining(s)
  {
    RemainingNonNegative(s);
    var a := MoveOn(world, s, cores, i, c);
    StepReducesRemaining(AsWritten, world, s, a);
    MoveKeepsDoomed(world, s, cores, i, c, a);
    MannedStays(world, s, cores, a);
    ContinueLast(AsWritten, world, Boot(), run, a);
    run', s' := run + [a], Next(AsWritten, world, s, a);
    if !s'.crashed {
      run', s' := UntilCrash(world, run', s', cores, i, c);
    }
  }

  // ---------- the doubled task ----------

  /** An overload of problems with one operation each, of which two are queued. */
  ghost predicate Crammed(s: Cluster, cores: seq<nat>, i: WorkerId, asts: seq<Expr>) {
    Overloaded(s, cores, i, asts) && |s.broker.queue| == 2 && forall p :: 0 <= p < |asts| ==> Shallow(asts[p]) && NoConstants(asts[p])
  }

  /** The bad drain of an overload of one-operation problems doubles the last task. */
  lemma DrainDoubles(world: World, run: seq<Action>, s: Cluster, cores: seq<nat>, i: WorkerId, asts: seq<Expr>) returns (c: TaskKey)
    requires Reached(AsWritten, world, run, s) && Crammed(s, cores, i, asts) && TooMany(world, cores, i, asts)
    requires Enabled(world, s, FromWorker(i)) && Drains(s, FromWorker(i))
    ensures Run(AsWritten, world, run + [FromWorker(i)]) == Some(Next(AsWritten, world, s, FromWorker(i)))
    ensures Doubled(world, Next(AsWritten, world, s, FromWorker(i)), cores, i, c)
  {
    var s' := DrainTidily(world, run, s, i);
    ContinueLast(AsWritten, world, Boot(), run, FromWorker(i));
    RunIsRegular(AsWritten, world, run, s);
    PublicationsBalance(AsWritten, world, run);
    StepBalances(AsWritten, world, s, FromWorker(i));
    CrowdManned(world, s, cores, i, asts);
    MannedStays(world, s, cores, FromWorker(i));
    DrainDries(s, cores, i, asts);
    c := s.broker.queue[1].key;
    LastIsOwedTwice(world, s, cores, i, asts);
    QueuedIsRoot(world, run, s, cores, i, asts);
    OthersLeaveBooks(AsWritten, world, s, FromWorker(i));
  }

  lemma CrowdManned(world: World, s: Cluster, cores: seq<nat>, i: WorkerId, asts: seq<Expr>)
    requires Overloaded(s, cores, i, asts) && TooMany(world, cores, i, asts)
    ensures Manned(world, s, cores)
  {
    assert forall p :: 0 <= p < |asts| ==> s.clients[p] == Asks(asts[p]);
  }

  lemma DrainDries(s: Cluster, cores: seq<nat>, i: WorkerId, asts: seq<Expr>)
    requires Crammed(s, cores, i, asts) && cores[i] >= 2 && WorkersFit(s.broker, s.workers) && Drains(s, FromWorker(i))
    ensures Drying(NextFromWorker(AsWritten, s, i), i)
  {
    assert WorkerFits(s.broker.free, s.broker.published, s.workers[i], i);
    assert IsBusy(NextFromWorker(AsWritten, s, i), i);
  }

  lemma LastIsOwedTwice(world: World, s: Cluster, cores: seq<nat>, i: WorkerId, asts: seq<Expr>)
    requires Crammed(s, cores, i, asts) && WorkersFit(s.broker, s.workers) && Drains(s, FromWorker(i))
    ensures NextFromWorker(AsWritten, s, i).seen <= |NextFromWorker(AsWritten, s, i).broker.replied|
    ensures Owed(NextFromWorker(AsWritten, s, i), s.broker.queue[1].key) >= 2
  {
    var s', t := NextFromWorker(AsWritten, s, i), s.broker.queue[1];
    assert WorkerFits(s.broker.free, s.broker.published, s.workers[i], i);
    assert s'.broker.queue == [t];
    assert s'.broker.published == s.broker.published + [WorkerTask(i, t)];
    TasksOneMore(s.broker.published, i, t);
    CopiesLast(Tasks(s.broker.published), t, t.key);
    CopiesFirst([t], t.key);
    assert s'.broker.replied[..0] == [];
  }

  lemma QueuedIsRoot(world: World, run: seq<Action>, s: Cluster, cores: seq<nat>, i: WorkerId, asts: seq<Expr>)
    requires Run(AsWritten, world, run) == Some(s) && Crammed(s, cores, i, asts)
    ensures Awaited(s, s.broker.queue[1].key)
  {
    RunIsSound(AsWritten, world, run);
    var k := s.broker.queue[1].key;
    assert Genuine(Plans(s.clients), s.broker.queue[1]);
    OnlyRoot(asts[k.problem], k.task);
    CrowdAwaits(s, cores, i, asts, k);
  }

  lemma CrowdAwaits(s: Cluster, cores: seq<nat>, i: WorkerId, asts: seq<Expr>, k: TaskKey)
    requires Crammed(s, cores, i, asts) && k.problem < |s.clients| && k.task == Root(DagOf(asts[k.problem]))
    ensures Awaited(s, k)
  {
    AnyOrderOfPlan(asts[k.problem]);
  }

  // ---------- when the code as written crashes ----------

  /** For any workers of which one has two cores: a run of the code as written that crashes. */
  lemma WrittenRunCrashes(world: World, cores: seq<nat>, i: WorkerId, ast: Expr) returns (run: seq<Action>, s: Cluster)
    requires i < |cores| && cores[i] >= 2 && (forall w :: 0 <= w < |cores| ==> 1 <= cores[w] <= INT_MAX) && Solvable(world, ast)
    ensures Run(AsWritten, world, run) == Some(s) && s.crashed && Employs(s, cores) && AllSolvable(world, s.clients)
  {
    var one := ShallowWithin(world, ast);
    var asts := Repeat(world, cores, i, one);
    run, s := WrittenDrainIsOverloaded(world, cores, i, asts);
    var c := DrainDoubles(world, run, s, cores, i, asts);
    run, s := run + [FromWorker(i)], Next(AsWritten, world, s, FromWorker(i));
    run, s := UntilAnswered(world, run, s, cores, i, c);
    s := ClearDooms(world, run, s, cores, i, c);
    run := run + [Clear(c.problem)];
    run, s := UntilCrash(world, run, s, cores, i, c);
  }

  /** Workers with one core are never given a task, so nothing is ever drained. */
  lemma {:induction false} OneCoreDrainsNothing(world: World, run: seq<Action>, s: Cluster)
    requires Run(AsWritten, world, run) == Some(s) && forall w :: 0 <= w < |s.workers| ==> s.workers[w].cores == 1
    ensures DrainsSingly(world, run)
    decreases |run|
  {
    if run != [] {
      var front, a := run[..|run| - 1], run[|run| - 1];
      var s1 := Run(AsWritten, world, front).value;
      StepFrame(AsWritten, world, s1, a);
      OneCoreDrainsNothing(world, front, s1);
      RunFits(AsWritten, world, front);
      if Drains(s1, a) {
        assert WorkerFits(s1.broker.free, s1.broker.published, s1.workers[a.w], a.w);
        NoCoresAdvertisesAll();
      }
    }
  }

  /** Some run of the code as written, with these workers and problems that have a value, crashes if and
      only if some worker has at least two cores. */
  lemma WrittenCrashIff(world: World, cores: seq<nat>, ast: Expr)
    requires cores != [] && (forall w :: 0 <= w < |cores| ==> 1 <= cores[w] <= INT_MAX) && Solvable(world, ast)
    ensures (exists run, s :: Run(AsWritten, world, run) == Some(s) && Employs(s, cores) && AllSolvable(world, s.clients) && s.crashed)
            <==> exists w :: 0 <= w < |cores| && cores[w] >= 2
  {
    if i :| 0 <= i < |cores| && cores[i] >= 2 {
      var run, s := WrittenRunCrashes(world, cores, i, ast);
    } else {
      forall run, s | Run(AsWritten, world, run) == Some(s) && Employs(s, cores)
        ensures !s.crashed
      {
        OneCoreDrainsNothing(world, run, s);
        NeverCrashes(AsWritten, world, run, s);
      }
    }
  }
}
