/** Which tasks the drain as written loses, counted over whole runs: every request, and every copy that a
    drain has made, is in flight, has been answered, or was the oldest of two or more when a drain as
    written took the newest. Nothing else is ever lost.
 */
module Losses {
  import opened Domain
  import opened Expression
  import opened ValueNumbering
  import opened Dispatch
  import opened Broker
  import opened Worker
  import opened Cluster
  import opened Places
  import opened Capacity
  import opened Termination
  import opened Ledger
  import opened Safety
  import opened Results
  import opened Conservation

  /** The broker drains its queue as written, and finds two or more tasks. */
  ghost predicate Lossy(drain: Drain, s: Cluster, a: Action) {
    drain.AsWritten? && Drains(s, a) && |s.broker.queue| >= 2
  }

  /** How often k was the oldest task of such a drain. */
  ghost function Drops(drain: Drain, world: World, run: seq<Action>, k: TaskKey): nat {
    if run == [] then 0
    else
      var front, a := run[..|run| - 1], run[|run| - 1];
      Drops(drain, world, front, k) +
      if Run(drain, world, front).Some? then DropsNow(drain, Run(drain, world, front).value, a, k) else 0
  }

  ghost function DropsNow(drain: Drain, s: Cluster, a: Action, k: TaskKey): nat {
    if Lossy(drain, s, a) then Conservation.One(s.broker.queue[0], k) else 0
  }

  /** How often k was the newest. */
  ghost function Doubles(drain: Drain, world: World, run: seq<Action>, k: TaskKey): nat {
    if run == [] then 0
    else
      var front, a := run[..|run| - 1], run[|run| - 1];
      Doubles(drain, world, front, k) +
      if Run(drain, world, front).Some? then DoublesNow(drain, Run(drain, world, front).value, a, k) else 0
  }

  ghost function DoublesNow(drain: Drain, s: Cluster, a: Action, k: TaskKey): nat {
    if Lossy(drain, s, a) then Conservation.One(s.broker.queue[|s.broker.queue| - 1], k) else 0
  }

  // ---------- the broker ----------

  /** Copies queued or published. */
  ghost function Passed(b: BrokerState, k: TaskKey): nat {
    Copies(b.queue, k) + Copies(Tasks(b.published), k)
  }

  lemma PublishPasses(b: BrokerState, w: WorkerId, t: Task, k: TaskKey)
    requires w in b.free
    ensures Copies(Tasks(Publish(b, w, t).published), k) == Copies(Tasks(b.published), k) + Conservation.One(t, k)
  {
    TasksOneMore(b.published, w, t);
    CopiesLast(Tasks(b.published), t, k);
  }

  lemma AssignPasses(b: BrokerState, t: Task, choice: Option<WorkerId>, k: TaskKey)
    requires ValidChoice(b, choice)
    ensures Passed(Assign(b, t, choice), k) == Passed(b, k) + Conservation.One(t, k)
  {
    if choice.Some? {
      PublishPasses(b, choice.value, t, k);
    } else {
      CopiesLast(b.queue, t, k);
    }
  }

  lemma DrainPasses(drain: Drain, b: BrokerState, w: WorkerId, k: TaskKey)
    requires b.queue != [] && w in b.free
    ensures Passed(FromQueue(drain, b, w), k) + Conservation.One(b.queue[0], k) == Passed(b, k) + Conservation.One(Taken(drain, b.queue), k)
  {
    CopiesFirst(b.queue, k);
    PublishPasses(b.(queue := b.queue[1..]), w, Taken(drain, b.queue), k);
  }

  lemma ReplyPasses(drain: Drain, s: Cluster, w: WorkerId, k: TaskKey)
    requires WorkersFit(s.broker, s.workers) && w < |s.workers| && s.workers[w].outbox != []
    ensures Passed(NextFromWorker(drain, s, w).broker, k) + DropsNow(drain, s, FromWorker(w), k)
         == Passed(s.broker, k) + DoublesNow(drain, s, FromWorker(w), k)
  {
    assert WorkerFits(s.broker.free, s.broker.published, s.workers[w], w);
    if Drains(s, FromWorker(w)) {
      var b := s.broker.(free := s.broker.free[w := Increment(s.broker.free[w])]);
      DrainPasses(drain, b, w, k);
    }
  }

  // ---------- every run ----------

  ghost predicate BrokerCounts(drain: Drain, world: World, run: seq<Action>, s: Cluster, k: TaskKey) {
    s.taken <= |s.sent| && Copies(s.sent[..s.taken], k) + Doubles(drain, world, run, k) == Passed(s.broker, k) + Drops(drain, world, run, k)
  }

  /** What a step adds on the two sides. */
  lemma StepCounts(drain: Drain, world: World, s: Cluster, a: Action, k: TaskKey)
    requires Enabled(world, s, a) && WorkersFit(s.broker, s.workers) && s.taken <= |s.sent|
    ensures var s' := Next(drain, world, s, a);
            && s'.taken <= |s'.sent|
            && Copies(s'.sent[..s'.taken], k) + DoublesNow(drain, s, a, k) + Passed(s.broker, k)
               == Copies(s.sent[..s.taken], k) + Passed(s'.broker, k) + DropsNow(drain, s, a, k)
  {
    if a.FromManager? {
      AssignCounts(s, a.choice, k);
    } else if a.FromWorker? {
      FromWorkerLeavesSent(drain, s, a.w);
      ReplyPasses(drain, s, a.w, k);
    } else {
      OthersLeavePassed(drain, world, s, a);
    }
  }

  lemma AssignCounts(s: Cluster, choice: Option<WorkerId>, k: TaskKey)
    requires s.taken < |s.sent| && ValidChoice(s.broker, choice)
    ensures Copies(s.sent[..s.taken + 1], k) + Passed(s.broker, k)
         == Copies(s.sent[..s.taken], k) + Passed(Assign(s.broker, s.sent[s.taken], choice), k)
  {
    AssignPasses(s.broker, s.sent[s.taken], choice, k);
    TakenCounts(s.sent, s.taken, k);
  }

  lemma TakenCounts(sent: seq<Task>, taken: nat, k: TaskKey)
    requires taken < |sent|
    ensures Copies(sent[..taken + 1], k) == Copies(sent[..taken], k) + Conservation.One(sent[taken], k)
  {
    assert sent[..taken + 1] == sent[..taken] + [sent[taken]];
    CopiesLast(sent[..taken], sent[taken], k);
  }

  lemma FromWorkerLeavesSent(drain: Drain, s: Cluster, w: WorkerId)
    requires w < |s.workers| && s.workers[w].outbox != []
    ensures NextFromWorker(drain, s, w).sent == s.sent && NextFromWorker(drain, s, w).taken == s.taken
  {
  }

  lemma OthersLeavePassed(drain: Drain, world: World, s: Cluster, a: Action)
    requires Enabled(world, s, a) && !ByBroker(a) && s.taken <= |s.sent|
    ensures var s' := Next(drain, world, s, a);
            s'.broker == s.broker && s'.taken == s.taken <= |s'.sent| && s'.sent[..s.taken] == s.sent[..s.taken]
  {
    if a.Send? {
      assert (s.sent + a.tasks)[..s.taken] == s.sent[..s.taken];
    } else if ByWorker(a) {
      WorkerStepFrame(drain, world, s, a);
    } else if ByManager(a) {
      ManagerStepFrame(drain, world, s, a);
    }
  }

  lemma {:induction false} RunCounts(drain: Drain, world: World, run: seq<Action>, s: Cluster, k: TaskKey)
    requires Run(drain, world, run) == Some(s)
    ensures BrokerCounts(drain, world, run, s, k)
    decreases |run|
  {
    if run == [] {
      assert s.sent[..s.taken] == [];
    } else {
      var front, a := run[..|run| - 1], run[|run| - 1];
      var s1 := Run(drain, world, front).value;
      RunCounts(drain, world, front, s1, k);
      RunFits(drain, world, front);
      StepCounts(drain, world, s1, a, k);
    }
  }

  // ---------- what is in flight ----------

  /** The copies of k between the dispatcher's request and its receipt of the reply. */
  ghost function Under(s: Cluster, k: TaskKey): nat
    requires s.taken <= |s.sent| && s.seen <= |s.broker.replied|
  {
    Copies(s.sent[s.taken..], k) + Copies(s.broker.queue, k) + AllHeld(s.broker.published, s.workers, k) + Count(s.broker.replied[s.seen..], k)
  }

  lemma HeldThere(published: seq<WorkerTask>, s: WorkerState, w: WorkerId, k: TaskKey)
    requires AtWorker(published, s, w, k)
    ensures Held(published, s, w, k) > 0
  {
    if AtThreads(s.threads, k) {
      OnSomeThread(s.threads, k);
    }
  }

  lemma {:induction false} OnSomeThread(threads: seq<Thread>, k: TaskKey)
    requires AtThreads(threads, k)
    ensures OnThreads(threads, k) > 0
  {
    var i :| 0 <= i < |threads| && AtThread(threads[i], k);
    if i > 0 {
      assert AtThread(threads[1..][i - 1], k);
      OnSomeThread(threads[1..], k);
    }
  }

  lemma HeldSomewhere(published: seq<WorkerTask>, workers: seq<WorkerState>, k: TaskKey)
    ensures AtSomeWorker(published, workers, k) <==> AllHeld(published, workers, k) > 0
  {
    if AtSomeWorker(published, workers, k) {
      var w :| 0 <= w < |workers| && AtWorker(published, workers[w], w, k);
      HeldThere(published, workers[w], w, k);
      TallyUpdate(HeldEach(published, workers, k), w, 0);
    } else if AllHeld(published, workers, k) > 0 {
      var w := SomeHeld(published, workers, k);
      HeldIsAtWorker(published, workers[w], w, k);
    }
  }

  lemma UnderIsInFlight(s: Cluster, k: TaskKey)
    requires s.taken <= |s.sent| && s.seen <= |s.broker.replied|
    ensures InFlight(s, k) <==> Under(s, k) > 0
  {
    HeldSomewhere(s.broker.published, s.workers, k);
  }

  /** Every copy is accounted for: what was requested, and what drains as written have doubled, is in
      flight, was answered, or was dropped by such a drain. */
  lemma EveryCopyIsAccountedFor(drain: Drain, world: World, run: seq<Action>, s: Cluster, k: TaskKey)
    requires Run(drain, world, run) == Some(s)
    ensures s.taken <= |s.sent| && s.seen <= |s.broker.replied|
    ensures Copies(s.sent, k) + Doubles(drain, world, run, k)
         == Under(s, k) + Count(s.broker.replied[..s.seen], k) + Drops(drain, world, run, k)
  {
    RunCounts(drain, world, run, s, k);
    RunIsCounted(drain, world, run);
    PublicationsBalance(drain, world, run);
    assert AllHeld(s.broker.published, s.workers, k) + Conservation.Answers(s.broker, k) == Copies(Tasks(s.broker.published), k);
    SplitCopies(s.sent, s.taken, k);
    assert s.broker.replied == s.broker.replied[..s.seen] + s.broker.replied[s.seen..];
    CountConcat(s.broker.replied[..s.seen], s.broker.replied[s.seen..], k);
  }

  lemma SplitCopies(tasks: seq<Task>, n: nat, k: TaskKey)
    requires n <= |tasks|
    ensures Copies(tasks, k) == Copies(tasks[..n], k) + Copies(tasks[n..], k)
  {
    assert Keys(tasks) == Keys(tasks[..n]) + Keys(tasks[n..]);
    CountConcat(Keys(tasks[..n]), Keys(tasks[n..]), k);
  }

  /** In every run of either drain, a task is in flight exactly if its request and the copies that drains
      have made outnumber its answers and the times a drain has dropped it. */
  lemma InFlightIff(drain: Drain, world: World, run: seq<Action>, s: Cluster, k: TaskKey)
    requires Run(drain, world, run) == Some(s)
    ensures s.seen <= |s.broker.replied|
    ensures InFlight(s, k) <==>
            (if k in Keys(s.sent) then 1 else 0) + Doubles(drain, world, run, k)
            > multiset(s.broker.replied[..s.seen])[k] + Drops(drain, world, run, k)
  {
    EveryCopyIsAccountedFor(drain, world, run, s, k);
    UnderIsInFlight(s, k);
    DispatchedExactlyOnce(drain, world, run, s);
    OnceInDistinct(Keys(s.sent), k);
  }

  lemma {:induction false} OnceInDistinct(ks: seq<TaskKey>, k: TaskKey)
    requires Distinct(ks)
    ensures Count(ks, k) == if k in ks then 1 else 0
  {
    if ks != [] {
      CountFirst(ks, k);
      OnceInDistinct(ks[1..], k);
      assert ks == [ks[0]] + ks[1..];
      assert forall j :: 0 <= j < |ks[1..]| ==> ks[1..][j] == ks[j + 1] != ks[0];
    }
  }

  /** Only the oldest of two or more tasks is lost by a drain: a task requested and not answered, which
      nothing names any more, was dropped as the oldest. */
  lemma OnlyTheOldestIsLost(drain: Drain, world: World, run: seq<Action>, s: Cluster, k: TaskKey)
    requires Run(drain, world, run) == Some(s) && k in Keys(s.sent) && !InFlight(s, k)
    requires forall i :: 0 <= i < s.seen && i < |s.broker.replied| ==> s.broker.replied[i] != k
    ensures drain.AsWritten? && DroppedSomewhere(world, run, k)
  {
    UnnamedIsDropped(drain, world, run, s, k);
    SomeDrop(drain, world, run, k);
  }

  lemma UnnamedIsDropped(drain: Drain, world: World, run: seq<Action>, s: Cluster, k: TaskKey)
    requires Run(drain, world, run) == Some(s) && k in Keys(s.sent) && !InFlight(s, k)
    requires forall i :: 0 <= i < s.seen && i < |s.broker.replied| ==> s.broker.replied[i] != k
    ensures Drops(drain, world, run, k) > 0
  {
    InFlightIff(drain, world, run, s, k);
    assert k !in s.broker.replied[..s.seen];
  }

  /** Step n of the run is a drain as written that finds k the oldest of two or more. */
  ghost predicate DroppedAt(world: World, run: seq<Action>, n: nat, k: TaskKey)
    requires n < |run|
  {
    && Run(AsWritten, world, run[..n]).Some?
    && Lossy(AsWritten, Run(AsWritten, world, run[..n]).value, run[n])
    && Run(AsWritten, world, run[..n]).value.broker.queue[0].key == k
  }

  ghost predicate DroppedSomewhere(world: World, run: seq<Action>, k: TaskKey) {
    exists n: nat {:trigger run[..n]} :: n < |run| && DroppedAt(world, run, n, k)
  }

  lemma {:induction false} SomeDrop(drain: Drain, world: World, run: seq<Action>, k: TaskKey)
    requires Drops(drain, world, run, k) > 0
    ensures drain.AsWritten? && DroppedSomewhere(world, run, k)
  {
    var front := run[..|run| - 1];
    if Drops(drain, world, front, k) > 0 {
      SomeDrop(drain, world, front, k);
      var n: nat :| n < |front| && DroppedAt(world, front, n, k);
      assert run[..n] == front[..n];
    } else {
      assert DroppedAt(world, run, |run| - 1, k);
    }
  }
}
