/** Which loads the code as written carries: no drain loses a task, and every problem is answered, if
    the operations that can be outstanding at once are no more than the cores of the smallest worker.
    The converse holds for loads of a given size, and for problems with as many operations to request
    at the start as ever.

    The operations of one problem that can be outstanding at once are independent: none is computed
    from another. So a problem's share is the largest number of independent operations in its graph.
 */
module Headroom {
  import opened Domain
  import opened Expression
  import opened Sharing
  import opened Dispatch
  import opened Frontier
  import opened Broker
  import opened Worker
  import opened Places
  import opened Capacity
  import opened Pipeline
  import opened Cluster
  import opened Desk
  import opened Safety
  import opened Results
  import opened Progress
  import opened Stranded
  import opened Overload
  import opened Width
  import opened Collapse

  // ---------- what can be outstanding ----------

  ghost function LiveOf(live: set<TaskKey>, p: ProblemId): set<TaskKey> {
    set k | k in live && k.problem == p
  }

  ghost function LiveBelow(live: set<TaskKey>, n: nat): set<TaskKey> {
    set k | k in live && k.problem < n
  }

  lemma LiveOfOne(world: World, c: Client, p: ProblemId, problems: map<ProblemId, CalculationData>, live: set<TaskKey>, width: nat)
    requires ClientGood(world, c, p, problems, live) && Narrow(c.dec.graph, width)
    ensures |LiveOf(live, p)| <= width
  {
    if c.frame.Waiting? {
      RunningIsIndependent(problems[p]);
      KeysOfSize(p, Running(problems[p]));
      forall k
        ensures k in LiveOf(live, p) <==> k in KeysOf(p, Running(problems[p]))
      {
        if k.problem == p {
          assert TaskKey(p, k.task) == k;
        }
      }
      assert LiveOf(live, p) == KeysOf(p, Running(problems[p]));
    } else {
      assert LiveOf(live, p) == {};
    }
  }

  ghost predicate AllNarrow(clients: seq<Client>, widths: seq<nat>) {
    |widths| == |clients| && forall p :: 0 <= p < |clients| ==> WellNumbered(clients[p].dec.graph) && Narrow(clients[p].dec.graph, widths[p])
  }

  lemma {:induction false} LiveBound(world: World, clients: seq<Client>, problems: map<ProblemId, CalculationData>, live: set<TaskKey>, widths: seq<nat>, n: nat)
    requires ClientsGood(world, clients, problems, live) && AllNarrow(clients, widths) && n <= |clients|
    ensures |LiveBelow(live, n)| <= Tally(widths[..n])
  {
    if n == 0 {
      assert LiveBelow(live, 0) == {};
    } else {
      LiveBound(world, clients, problems, live, widths, n - 1);
      assert ClientGood(world, clients[n - 1], n - 1, problems, live);
      LiveOfOne(world, clients[n - 1], n - 1, problems, live, widths[n - 1]);
      assert LiveBelow(live, n) == LiveBelow(live, n - 1) + LiveOf(live, n - 1);
      DisjointSize(LiveBelow(live, n - 1), LiveOf(live, n - 1));
      assert widths[..n][..n - 1] == widths[..n - 1];
    }
  }

  /** No more tasks are under way than the problems are wide. */
  lemma OutstandingBound(world: World, s: Cluster, where: Where, widths: seq<nat>)
    requires Good(world, s, where) && AllNarrow(s.clients, widths)
    ensures |where.Keys| <= Tally(widths)
  {
    LiveBound(world, s.clients, s.problems, where.Keys, widths, |s.clients|);
    assert LiveBelow(where.Keys, |s.clients|) == where.Keys;
    assert widths[..|s.clients|] == widths;
  }

  // ---------- what a loss takes ----------

  ghost function PlacedAt(where: Where, place: Place): set<TaskKey> {
    set k | k in where && where[k] == place
  }

  lemma HoldsSize(ks: seq<TaskKey>, where: Where, place: Place)
    requires Holds(ks, where, place)
    ensures |PlacedAt(where, place)| == |ks|
  {
    CardinalityOfDistinct(ks, PlacedAt(where, place));
  }

  predicate OnThreadBelow(place: Place, w: WorkerId, n: nat) {
    (place.OnThread? || place.Stored?) && place.w == w && place.i < n
  }

  ghost function ThreadsBelow(where: Where, w: WorkerId, n: nat): set<TaskKey> {
    set k | k in where && OnThreadBelow(where[k], w, n)
  }

  lemma {:induction false} BusyPrefix(threads: seq<Thread>, n: nat)
    requires n < |threads|
    ensures Busy(threads[..n + 1]) == Busy(threads[..n]) + if threads[n].Idle? then 0 else 1
  {
    if n == 0 {
      assert threads[..1] == [threads[0]] && threads[..1][1..] == [] && threads[..0] == [];
    } else {
      BusyPrefix(threads[1..], n - 1);
      assert threads[..n + 1][1..] == threads[1..][..n] && threads[..n][1..] == threads[1..][..n - 1];
    }
  }

  lemma OffThreads(where: Where, w: WorkerId, n: nat, place: Place)
    requires !OnThreadBelow(place, w, n)
    ensures ThreadsBelow(where, w, n) !! PlacedAt(where, place)
  {
  }

  lemma OtherPlaces(where: Where, place: Place, other: Place)
    requires place != other
    ensures PlacedAt(where, place) !! PlacedAt(where, other)
  {
  }

  lemma ThreadsGrow(where: Where, w: WorkerId, n: nat)
    ensures |ThreadsBelow(where, w, n + 1)|
         == |ThreadsBelow(where, w, n)| + |PlacedAt(where, OnThread(w, n))| + |PlacedAt(where, Places.Stored(w, n))|
  {
    var below, reading, stored := ThreadsBelow(where, w, n), PlacedAt(where, OnThread(w, n)), PlacedAt(where, Places.Stored(w, n));
    assert ThreadsBelow(where, w, n + 1) == below + reading + stored by {
      forall k
        ensures k in ThreadsBelow(where, w, n + 1) <==> k in below + reading + stored
      {
        OnThreadNext(where, w, n, k);
      }
    }
    OffThreads(where, w, n, OnThread(w, n));
    OffThreads(where, w, n, Places.Stored(w, n));
    OtherPlaces(where, OnThread(w, n), Places.Stored(w, n));
    ThreeSizes(below, reading, stored);
  }

  lemma OnThreadNext(where: Where, w: WorkerId, n: nat, k: TaskKey)
    ensures k in ThreadsBelow(where, w, n + 1)
        <==> k in ThreadsBelow(where, w, n) || k in PlacedAt(where, OnThread(w, n)) || k in PlacedAt(where, Places.Stored(w, n))
  {
  }

  lemma ThreeSizes<T>(a: set<T>, b: set<T>, c: set<T>)
    requires a !! b && a !! c && b !! c
    ensures |a + b + c| == |a| + |b| + |c|
  {
    DisjointSize(a, b);
    DisjointSize(a + b, c);
  }

  lemma {:induction false} ThreadsSize(threads: seq<Thread>, where: Where, w: WorkerId, n: nat)
    requires ThreadsHold(threads, where, w) && n <= |threads|
    ensures |ThreadsBelow(where, w, n)| == Busy(threads[..n])
  {
    if n == 0 {
      assert ThreadsBelow(where, w, 0) == {};
    } else {
      ThreadsSize(threads, where, w, n - 1);
      BusyPrefix(threads, n - 1);
      ThreadsGrow(where, w, n - 1);
      assert ThreadHolds(threads[n - 1], where, w, n - 1);
      HoldsSize(ReadingKeys(threads[n - 1]), where, OnThread(w, n - 1));
      HoldsSize(ReportingKeys(threads[n - 1]), where, Places.Stored(w, n - 1));
    }
  }

  /** The tasks at worker w. */
  ghost function AtWorkerSet(where: Where, w: WorkerId, threads: nat): set<TaskKey> {
    PlacedAt(where, Inbox(w)) + PlacedAt(where, Pending(w)) + PlacedAt(where, Finished(w)) + PlacedAt(where, Outbox(w)) + ThreadsBelow(where, w, threads)
  }

  lemma AtWorkerAdds(where: Where, w: WorkerId, threads: nat)
    ensures |AtWorkerSet(where, w, threads)|
         == |PlacedAt(where, Inbox(w))| + |PlacedAt(where, Pending(w))| + |PlacedAt(where, Finished(w))|
            + |PlacedAt(where, Outbox(w))| + |ThreadsBelow(where, w, threads)|
  {
    var inbox, pending, finished, outbox := PlacedAt(where, Inbox(w)), PlacedAt(where, Pending(w)), PlacedAt(where, Finished(w)), PlacedAt(where, Outbox(w));
    OtherPlaces(where, Inbox(w), Pending(w));
    OtherPlaces(where, Inbox(w), Finished(w));
    OtherPlaces(where, Inbox(w), Outbox(w));
    OtherPlaces(where, Pending(w), Finished(w));
    OtherPlaces(where, Pending(w), Outbox(w));
    OtherPlaces(where, Finished(w), Outbox(w));
    OffThreads(where, w, threads, Inbox(w));
    OffThreads(where, w, threads, Pending(w));
    OffThreads(where, w, threads, Finished(w));
    OffThreads(where, w, threads, Outbox(w));
    ThreeSizes(inbox, pending, finished);
    ThreeSizes(inbox + pending + finished, outbox, ThreadsBelow(where, w, threads));
  }

  lemma AtWorkerSize(published: seq<WorkerTask>, x: WorkerState, where: Where, w: WorkerId)
    requires WorkerHolds(published, x, where, w)
    ensures |AtWorkerSet(where, w, |x.threads|)| == Load(published, x, w)
  {
    AtWorkerAdds(where, w, |x.threads|);
    HoldsSize(Keys(Mine(published, x.cursor, w)), where, Inbox(w));
    HoldsSize(Keys(x.pending), where, Pending(w));
    ThreadsSize(x.threads, where, w, |x.threads|);
    assert x.threads[..|x.threads|] == x.threads;
    HoldsSize(x.finished, where, Finished(w));
    HoldsSize(DoneKeys(x.outbox), where, Outbox(w));
  }

  lemma AtWorkerOrQueued(where: Where, w: WorkerId, threads: nat)
    ensures |AtWorkerSet(where, w, threads)| + |PlacedAt(where, Queued)| <= |where.Keys|
  {
    var queued := PlacedAt(where, Queued);
    OtherPlaces(where, Inbox(w), Queued);
    OtherPlaces(where, Pending(w), Queued);
    OtherPlaces(where, Finished(w), Queued);
    OtherPlaces(where, Outbox(w), Queued);
    OffThreads(where, w, threads, Queued);
    var at := AtWorkerSet(where, w, threads);
    assert at !! queued;
    DisjointSize(at, queued);
    AtWorkerIsUnderWay(where, w, threads);
    assert at + queued <= where.Keys;
    Smaller(at + queued, where.Keys);
  }

  lemma AtWorkerIsUnderWay(where: Where, w: WorkerId, threads: nat)
    ensures AtWorkerSet(where, w, threads) <= where.Keys
  {
  }

  /** A queue behind a full worker takes that worker's capacity and the queue. */
  lemma QueueTakesMore(world: World, s: Cluster, where: Where, w: WorkerId)
    requires Good(world, s, where) && w < |s.workers| && IsFull(s.broker, w) && 1 <= s.workers[w].cores <= UINT32
    ensures |where.Keys| >= s.workers[w].cores - 1 + |s.broker.queue|
  {
    assert WorkerGood(world, Plans(s.clients), s.broker, s.workers[w], where, w);
    NoCoresAdvertisesAll();
    AtWorkerSize(s.broker.published, s.workers[w], where, w);
    HoldsSize(Keys(s.broker.queue), where, Queued);
    AtWorkerOrQueued(where, w, |s.workers[w].threads|);
  }

  // ---------- loads that are carried ----------

  /** Every worker has a core for each task that can be outstanding. */
  ghost predicate Roomy(workers: seq<WorkerState>, n: nat) {
    forall w :: 0 <= w < |workers| ==> 1 <= workers[w].cores <= UINT32 && n <= workers[w].cores
  }

  lemma RoomyDrainIsHarmless(world: World, run: seq<Action>, s: Cluster, a: Action, widths: seq<nat>)
    requires Reached(AsWritten, world, run, s) && AllNarrow(s.clients, widths) && Roomy(s.workers, Tally(widths))
    ensures Harmless(AsWritten, s, a)
  {
    if s.broker.queue != [] && |s.broker.queue| != 1 {
      var where := RunKeeps(AsWritten, world, run, s);
      RunServes(AsWritten, world, run);
      RunFits(AsWritten, world, run);
      var w: WorkerId :| IsFull(s.broker, w);
      QueueTakesMore(world, s, where, w);
      OutstandingBound(world, s, where, widths);
    }
  }

  /** If the operations that can be outstanding at once are no more than the cores of any worker, no
      drain of the run loses a task. */
  lemma {:induction false} NarrowRunLosesNothing(world: World, run: seq<Action>, s: Cluster, widths: seq<nat>)
    requires Run(AsWritten, world, run) == Some(s) && AllNarrow(s.clients, widths) && Roomy(s.workers, Tally(widths))
    ensures DrainsSingly(world, run)
    decreases |run|
  {
    if run != [] {
      var front, a := run[..|run| - 1], run[|run| - 1];
      var s1 := Run(AsWritten, world, front).value;
      var widths1 := NarrowBefore(world, s1, a, widths);
      NarrowRunLosesNothing(world, front, s1, widths1);
      RoomyDrainIsHarmless(world, front, s1, a, widths1);
    }
  }

  lemma NarrowBefore(world: World, s: Cluster, a: Action, widths: seq<nat>) returns (widths1: seq<nat>)
    requires Enabled(world, s, a)
    requires AllNarrow(Next(AsWritten, world, s, a).clients, widths) && Roomy(Next(AsWritten, world, s, a).workers, Tally(widths))
    ensures AllNarrow(s.clients, widths1) && Roomy(s.workers, Tally(widths1))
  {
    var s' := Next(AsWritten, world, s, a);
    StepFrame(AsWritten, world, s, a);
    widths1 := widths[..|s.clients|];
    TallyOfPrefix(widths, |s.clients|);
    forall p | 0 <= p < |s.clients|
      ensures WellNumbered(s.clients[p].dec.graph) && Narrow(s.clients[p].dec.graph, widths1[p])
    {
      assert SameClient(s.clients[p], s'.clients[p]);
    }
  }

  // ---------- exactly which loads ----------

  ghost predicate AstsNarrow(clients: seq<Client>, widths: seq<nat>) {
    |widths| == |clients| && forall p :: 0 <= p < |clients| ==> Narrow(DagOf(clients[p].ast), widths[p])
  }

  /** The problems asked have together no more than n operations that can be outstanding at once. */
  ghost predicate Within(clients: seq<Client>, n: nat) {
    exists widths :: AstsNarrow(clients, widths) && Tally(widths) <= n
  }

  lemma WithinIsNarrow(drain: Drain, world: World, run: seq<Action>, s: Cluster, n: nat) returns (widths: seq<nat>)
    requires Run(drain, world, run) == Some(s) && Within(s.clients, n)
    ensures AllNarrow(s.clients, widths) && Tally(widths) <= n
  {
    widths :| AstsNarrow(s.clients, widths) && Tally(widths) <= n;
    forall p | 0 <= p < |s.clients|
      ensures s.clients[p].dec.graph == DagOf(s.clients[p].ast)
    {
      GraphIsDag(drain, world, run, p);
    }
  }

  function Ones(n: nat): seq<nat> {
    seq(n, _ => 1)
  }

  lemma {:induction false} TallyOfOnes(n: nat)
    ensures Tally(Ones(n)) == n
  {
    if n > 0 {
      TallyOfOnes(n - 1);
      assert Ones(n)[..n - 1] == Ones(n - 1);
    }
  }

  lemma ShallowWithinCount(clients: seq<Client>, ast: Expr, n: nat)
    requires Shallow(ast) && |clients| <= n && forall p :: 0 <= p < |clients| ==> clients[p].ast == ast
    ensures Within(clients, n)
  {
    ShallowIsNarrow(ast);
    TallyOfOnes(|clients|);
    assert AstsNarrow(clients, Ones(|clients|));
  }

  /** A run of the code as written that comes to rest, with these workers, defined problems and a load
      of at most n. */
  ghost predicate Carries(world: World, cores: seq<nat>, n: nat, run: seq<Action>, s: Cluster) {
    && Run(AsWritten, world, run) == Some(s) && Employs(s, cores) && AllDefined(world, s.clients) && Within(s.clients, n)
    && AtRest(world, s)
  }

  lemma CarriedIsAnswered(world: World, cores: seq<nat>, n: nat, run: seq<Action>, s: Cluster)
    requires Carries(world, cores, n, run, s) && cores != []
    requires forall w :: 0 <= w < |cores| ==> 2 <= cores[w] <= INT_MAX && n <= cores[w]
    ensures AllReturned(s.clients)
  {
    var widths := WithinIsNarrow(AsWritten, world, run, s, n);
    NarrowRunLosesNothing(world, run, s, widths);
    RestMeansAnswered(AsWritten, world, run, s);
  }

  /** If some worker has one core, or fewer cores than the load allows tasks, some run fails. */
  lemma OverloadFails(world: World, cores: seq<nat>, n: nat, ast: Expr, i: WorkerId) returns (run: seq<Action>, s: Cluster)
    requires (forall w :: 0 <= w < |cores| ==> 1 <= cores[w] <= INT_MAX) && n >= 1 && Solvable(world, ast)
    requires i < |cores| && (cores[i] == 1 || (cores[i] < n && forall w :: 0 <= w < |cores| ==> cores[w] >= 2))
    ensures Carries(world, cores, n, run, s) && !AllReturned(s.clients)
  {
    var one := ShallowWithin(world, ast);
    if cores[i] == 1 {
      run, s := OneCoreWorkerStrands(AsWritten, world, cores, i, one);
      assert s.clients[0] == Asks(one);
    } else {
      var asts := Repeat(world, cores, i, one);
      run, s := OverloadRests(world, cores, i, asts);
      LossIsUnanswered(world, run, s);
    }
    ShallowWithinCount(s.clients, one, n);
  }

  /** The code as written answers every load of at most n, whatever the schedule, if and only if every
      worker has at least two cores and at least n. */
  lemma WrittenAnswersIff(world: World, cores: seq<nat>, n: nat, ast: Expr)
    requires cores != [] && (forall w :: 0 <= w < |cores| ==> 1 <= cores[w] <= INT_MAX) && n >= 1 && Solvable(world, ast)
    ensures (forall run, s :: Carries(world, cores, n, run, s) ==> AllReturned(s.clients))
            <==> forall w :: 0 <= w < |cores| ==> cores[w] >= 2 && cores[w] >= n
  {
    if i :| 0 <= i < |cores| && cores[i] == 1 {
      var run, s := OverloadFails(world, cores, n, ast, i);
    } else if i :| 0 <= i < |cores| && cores[i] < n {
      var run, s := OverloadFails(world, cores, n, ast, i);
    } else {
      forall run, s | Carries(world, cores, n, run, s)
        ensures AllReturned(s.clients)
      {
        CarriedIsAnswered(world, cores, n, run, s);
      }
    }
  }

  // ---------- exactly which load ----------

  /** A run of the code as written, with these workers, in which these problems have been asked. */
  ghost predicate Loads(world: World, cores: seq<nat>, asts: seq<Expr>, run: seq<Action>, s: Cluster) {
    && Run(AsWritten, world, run) == Some(s) && Employs(s, cores)
    && |s.clients| == |asts| && forall p :: 0 <= p < |asts| ==> s.clients[p].ast == asts[p]
  }

  /** Every worker has a core for each operation that can be requested at the start. */
  ghost predicate HasRoom(cores: seq<nat>, asts: seq<Expr>) {
    forall w :: 0 <= w < |cores| ==> Tally(Openings(asts)) <= cores[w]
  }

  ghost predicate WideLoad(world: World, cores: seq<nat>, asts: seq<Expr>) {
    && cores != [] && (forall w :: 0 <= w < |cores| ==> 2 <= cores[w] <= UINT32)
    && |asts| <= UINT32 && forall p :: 0 <= p < |asts| ==> Solvable(world, asts[p]) && OpensWide(asts[p])
  }

  lemma RoomyLoadLosesNothing(world: World, cores: seq<nat>, asts: seq<Expr>, run: seq<Action>, s: Cluster)
    requires WideLoad(world, cores, asts) && HasRoom(cores, asts) && Loads(world, cores, asts, run, s)
    ensures DrainsSingly(world, run)
  {
    LoadIsNarrow(world, cores, asts, run, s);
    LoadIsRoomy(s, cores, Tally(Openings(asts)));
    NarrowRunLosesNothing(world, run, s, Openings(asts));
  }

  lemma LoadIsRoomy(s: Cluster, cores: seq<nat>, n: nat)
    requires Employs(s, cores) && forall w :: 0 <= w < |cores| ==> 2 <= cores[w] <= UINT32 && n <= cores[w]
    ensures Roomy(s.workers, n)
  {
  }

  lemma LoadIsNarrow(world: World, cores: seq<nat>, asts: seq<Expr>, run: seq<Action>, s: Cluster)
    requires WideLoad(world, cores, asts) && Loads(world, cores, asts, run, s)
    ensures AllNarrow(s.clients, Openings(asts))
  {
    forall p | 0 <= p < |s.clients|
      ensures WellNumbered(s.clients[p].dec.graph) && Narrow(s.clients[p].dec.graph, Openings(asts)[p])
    {
      GraphIsDag(AsWritten, world, run, p);
      assert OpensWide(asts[p]);
    }
  }

  lemma HeavyLoadFails(world: World, cores: seq<nat>, asts: seq<Expr>) returns (run: seq<Action>, s: Cluster)
    requires WideLoad(world, cores, asts) && !HasRoom(cores, asts)
    ensures Loads(world, cores, asts, run, s) && AtRest(world, s) && !DrainsSingly(world, run) && !AllReturned(s.clients)
  {
    var i :| 0 <= i < |cores| && Tally(Openings(asts)) > cores[i];
    run, s := OverloadRests(world, cores, i, asts);
    LossIsUnanswered(world, run, s);
  }

  lemma RoomyLoadIsAnswered(world: World, cores: seq<nat>, asts: seq<Expr>, run: seq<Action>, s: Cluster)
    requires WideLoad(world, cores, asts) && HasRoom(cores, asts) && Loads(world, cores, asts, run, s) && AtRest(world, s)
    ensures AllReturned(s.clients)
  {
    RoomyLoadLosesNothing(world, cores, asts, run, s);
    assert forall p :: 0 <= p < |asts| ==> s.clients[p].ast == asts[p] && Solvable(world, asts[p]);
    RestMeansAnswered(AsWritten, world, run, s);
  }

  /** Problems with no more independent operations than can be requested at the start, and workers with
      two cores: the code as written loses no task, and answers everything, whatever the schedule, if
      and only if no worker has fewer cores than those operations. */
  lemma WrittenLoadIff(world: World, cores: seq<nat>, asts: seq<Expr>)
    requires WideLoad(world, cores, asts)
    ensures (forall run, s :: Loads(world, cores, asts, run, s) ==> DrainsSingly(world, run)) <==> HasRoom(cores, asts)
    ensures (forall run, s :: Loads(world, cores, asts, run, s) && AtRest(world, s) ==> AllReturned(s.clients)) <==> HasRoom(cores, asts)
  {
    if HasRoom(cores, asts) {
      forall run, s | Loads(world, cores, asts, run, s)
        ensures DrainsSingly(world, run)
      {
        RoomyLoadLosesNothing(world, cores, asts, run, s);
      }
      forall run, s | Loads(world, cores, asts, run, s) && AtRest(world, s)
        ensures AllReturned(s.clients)
      {
        RoomyLoadIsAnswered(world, cores, asts, run, s);
      }
    } else {
      var run, s := HeavyLoadFails(world, cores, asts);
    }
  }
}
