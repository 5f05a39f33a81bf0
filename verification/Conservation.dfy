/** Publications and replies balance, in every run of either drain: each copy of a task that has been
    published is at the worker it names or has been answered. So it is in flight as long as it has been
    queued or published more often than its replies have been received.
 */
module Conservation {
  import opened Domain
  import opened Expression
  import opened Dispatch
  import opened Broker
  import opened Worker
  import opened Cluster
  import opened Places
  import opened Capacity
  import opened Results

  /** How often k is listed. */
  function Count(ks: seq<TaskKey>, k: TaskKey): nat {
    multiset(ks)[k]
  }

  lemma CountConcat(a: seq<TaskKey>, b: seq<TaskKey>, k: TaskKey)
    ensures Count(a + b, k) == Count(a, k) + Count(b, k)
  {
  }

  lemma CountFirst(ks: seq<TaskKey>, k: TaskKey)
    requires ks != []
    ensures Count(ks, k) == (if ks[0] == k then 1 else 0) + Count(ks[1..], k)
  {
    assert ks == [ks[0]] + ks[1..];
  }

  function Copies(tasks: seq<Task>, k: TaskKey): nat {
    Count(Keys(tasks), k)
  }

  function One(t: Task, k: TaskKey): nat {
    if t.key == k then 1 else 0
  }

  lemma CopiesFirst(tasks: seq<Task>, k: TaskKey)
    requires tasks != []
    ensures Copies(tasks, k) == One(tasks[0], k) + Copies(tasks[1..], k)
  {
    KeysPop(tasks);
    CountFirst(Keys(tasks), k);
  }

  lemma CopiesLast(tasks: seq<Task>, t: Task, k: TaskKey)
    ensures Copies(tasks + [t], k) == Copies(tasks, k) + One(t, k)
  {
    KeysPush(tasks, t);
  }

  // ---------- at one worker ----------

  function OnThreads(threads: seq<Thread>, k: TaskKey): nat {
    if threads == [] then 0 else (if AtThread(threads[0], k) then 1 else 0) + OnThreads(threads[1..], k)
  }

  lemma {:induction false} OnThreadsUpdate(threads: seq<Thread>, i: nat, t: Thread, k: TaskKey)
    requires i < |threads|
    ensures OnThreads(threads[i := t], k) + (if AtThread(threads[i], k) then 1 else 0) == OnThreads(threads, k) + (if AtThread(t, k) then 1 else 0)
  {
    if i == 0 {
      assert threads[0 := t][1..] == threads[1..];
    } else {
      assert threads[i := t][1..] == threads[1..][i - 1 := t];
      OnThreadsUpdate(threads[1..], i - 1, t, k);
    }
  }

  lemma {:induction false} NoneOnIdle(n: nat, k: TaskKey)
    ensures OnThreads(seq(n, _ => Idle), k) == 0
  {
    if n > 0 {
      NoneOnIdle(n - 1, k);
      assert seq(n, _ => Idle)[1..] == seq(n - 1, _ => Idle);
    }
  }

  /** The copies of k at worker w, from publication to the broker's receipt of the reply. */
  function Held(published: seq<WorkerTask>, s: WorkerState, w: WorkerId, k: TaskKey): nat {
    Copies(Mine(published, s.cursor, w), k) + Copies(s.pending, k) + OnThreads(s.threads, k) + Count(s.finished, k) + Count(DoneKeys(s.outbox), k)
  }

  lemma DeliverHolds(published: seq<WorkerTask>, s: WorkerState, w: WorkerId, k: TaskKey)
    requires s.cursor < |published|
    ensures Held(published, Deliver(w, s, published[s.cursor]), w, k) == Held(published, s, w, k)
  {
    var s' := Deliver(w, s, published[s.cursor]);
    assert s' == s.(cursor := s.cursor + 1, pending := s'.pending);
    MineFirst(published, s.cursor, w, k);
    PendingAfter(w, s, published[s.cursor], k);
  }

  lemma PendingAfter(w: WorkerId, s: WorkerState, m: WorkerTask, k: TaskKey)
    ensures Copies(Deliver(w, s, m).pending, k) == Copies(s.pending, k) + if m.identity == w then One(m.task, k) else 0
  {
    CopiesLast(s.pending, m.task, k);
  }

  lemma MineFirst(published: seq<WorkerTask>, from: nat, w: WorkerId, k: TaskKey)
    requires from < |published|
    ensures Copies(Mine(published, from, w), k)
         == (if published[from].identity == w then One(published[from].task, k) else 0) + Copies(Mine(published, from + 1, w), k)
  {
    var t, rest := published[from].task, Mine(published, from + 1, w);
    if published[from].identity == w {
      CopiesFirst([t] + rest, k);
      assert ([t] + rest)[1..] == rest;
    } else {
      assert [] + rest == rest;
    }
  }

  lemma TakeHolds(published: seq<WorkerTask>, s: WorkerState, w: WorkerId, i: nat, k: TaskKey)
    requires i < |s.threads| && s.threads[i].Idle? && s.pending != []
    ensures Held(published, TakeTask(s, i), w, k) == Held(published, s, w, k)
  {
    OnThreadsUpdate(s.threads, i, Reading(s.pending[0], []), k);
    CopiesFirst(s.pending, k);
  }

  lemma SameTaskHolds(published: seq<WorkerTask>, s: WorkerState, w: WorkerId, i: nat, t: Thread, k: TaskKey)
    requires i < |s.threads| && !s.threads[i].Idle? && !t.Idle? && t.task == s.threads[i].task
    ensures Held(published, s.(threads := s.threads[i := t]), w, k) == Held(published, s, w, k)
  {
    OnThreadsUpdate(s.threads, i, t, k);
  }

  lemma ReportHolds(published: seq<WorkerTask>, s: WorkerState, w: WorkerId, i: nat, k: TaskKey)
    requires i < |s.threads| && s.threads[i].Reporting?
    ensures Held(published, Report(s, i), w, k) == Held(published, s, w, k)
  {
    OnThreadsUpdate(s.threads, i, Idle, k);
  }

  lemma OutputHolds(published: seq<WorkerTask>, s: WorkerState, w: WorkerId, k: TaskKey)
    requires s.finished != []
    ensures Held(published, CheckOutput(w, s), w, k) == Held(published, s, w, k)
  {
    DoneKeysGrow(s.outbox, TaskDone(w, s.finished[0]));
    CountFirst(s.finished, k);
  }

  lemma LaunchHolds(published: seq<WorkerTask>, cores: nat, w: WorkerId, k: TaskKey)
    ensures Held(published, Launch(cores, |published|), w, k) == 0
  {
    NoneOnIdle(cores, k);
    var s := Launch(cores, |published|);
    assert s.threads == seq(cores, _ => Idle);
    assert s.outbox[1..] == [] && DoneKeys(s.outbox) == [];
    assert Mine(published, s.cursor, w) == [];
  }

  lemma ReceiptHolds(published: seq<WorkerTask>, s: WorkerState, w: WorkerId, k: TaskKey)
    requires s.outbox != []
    ensures Held(published, s, w, k) == Held(published, s.(outbox := s.outbox[1..]), w, k) + if s.outbox[0].TaskDone? && s.outbox[0].key == k then 1 else 0
  {
    if s.outbox[0].TaskDone? {
      assert DoneKeys(s.outbox) == [s.outbox[0].key] + DoneKeys(s.outbox[1..]);
    } else {
      assert DoneKeys(s.outbox) == [] + DoneKeys(s.outbox[1..]) == DoneKeys(s.outbox[1..]);
    }
  }

  lemma PublishHolds(published: seq<WorkerTask>, s: WorkerState, w: WorkerId, m: WorkerTask, k: TaskKey)
    requires s.cursor <= |published|
    ensures Held(published + [m], s, w, k) == Held(published, s, w, k) + if m.identity == w then One(m.task, k) else 0
  {
    MineGrows(published, s.cursor, w, m);
    if m.identity == w {
      CopiesLast(Mine(published, s.cursor, w), m.task, k);
    } else {
      assert Mine(published, s.cursor, w) + [] == Mine(published, s.cursor, w);
    }
  }

  // ---------- at all workers ----------

  function HeldEach(published: seq<WorkerTask>, workers: seq<WorkerState>, k: TaskKey): (r: seq<nat>)
    ensures |r| == |workers| && forall w :: 0 <= w < |workers| ==> r[w] == Held(published, workers[w], w, k)
  {
    seq(|workers|, w requires 0 <= w < |workers| => Held(published, workers[w], w, k))
  }

  function AllHeld(published: seq<WorkerTask>, workers: seq<WorkerState>, k: TaskKey): nat {
    Tally(HeldEach(published, workers, k))
  }

  lemma AllHeldUpdate(published: seq<WorkerTask>, workers: seq<WorkerState>, w: nat, s: WorkerState, k: TaskKey)
    requires w < |workers|
    ensures AllHeld(published, workers[w := s], k) + Held(published, workers[w], w, k) == AllHeld(published, workers, k) + Held(published, s, w, k)
  {
    var ns, n := HeldEach(published, workers, k), Held(published, s, w, k);
    assert HeldEach(published, workers[w := s], k) == ns[w := n];
    TallyUpdate(ns, w, n);
  }

  lemma AllHeldPublish(published: seq<WorkerTask>, workers: seq<WorkerState>, m: WorkerTask, k: TaskKey)
    requires forall w :: 0 <= w < |workers| ==> workers[w].cursor <= |published|
    ensures AllHeld(published + [m], workers, k) == AllHeld(published, workers, k) + if m.identity < |workers| then One(m.task, k) else 0
  {
    var ns, ns' := HeldEach(published, workers, k), HeldEach(published + [m], workers, k);
    forall w | 0 <= w < |workers|
      ensures ns'[w] == ns[w] + if m.identity == w then One(m.task, k) else 0
    {
      PublishHolds(published, workers[w], w, m, k);
    }
    if m.identity < |workers| {
      var n := ns[m.identity] + One(m.task, k);
      assert ns' == ns[m.identity := n];
      TallyUpdate(ns, m.identity, n);
    } else {
      assert ns' == ns;
    }
  }

  lemma SomeHeld(published: seq<WorkerTask>, workers: seq<WorkerState>, k: TaskKey) returns (w: WorkerId)
    requires AllHeld(published, workers, k) > 0
    ensures w < |workers| && Held(published, workers[w], w, k) > 0
  {
    w := TallyPositive(HeldEach(published, workers, k));
  }

  lemma {:induction false} SomeOnThreads(threads: seq<Thread>, k: TaskKey)
    requires OnThreads(threads, k) > 0
    ensures AtThreads(threads, k)
  {
    if AtThread(threads[0], k) {
      assert AtThreads(threads, k);
    } else {
      SomeOnThreads(threads[1..], k);
      var i :| 0 <= i < |threads[1..]| && AtThread(threads[1..][i], k);
      assert AtThread(threads[i + 1], k);
    }
  }

  lemma HeldIsAtWorker(published: seq<WorkerTask>, s: WorkerState, w: WorkerId, k: TaskKey)
    requires Held(published, s, w, k) > 0
    ensures AtWorker(published, s, w, k)
  {
    if OnThreads(s.threads, k) > 0 {
      SomeOnThreads(s.threads, k);
    }
  }

  // ---------- every run ----------

  function Answers(b: BrokerState, k: TaskKey): nat {
    Count(b.replied, k)
  }

  /** The copies published are at the workers or answered. */
  ghost predicate Balanced(b: BrokerState, workers: seq<WorkerState>) {
    forall k {:trigger Answers(b, k)} {:trigger AllHeld(b.published, workers, k)} ::
      AllHeld(b.published, workers, k) + Answers(b, k) == Copies(Tasks(b.published), k)
  }

  lemma PublishBalances(b: BrokerState, workers: seq<WorkerState>, w: WorkerId, t: Task)
    requires Balanced(b, workers) && WorkersFit(b, workers) && w in b.free
    ensures Balanced(Publish(b, w, t), workers)
  {
    var b' := Publish(b, w, t);
    forall k
      ensures AllHeld(b'.published, workers, k) + Answers(b', k) == Copies(Tasks(b'.published), k)
    {
      assert AllHeld(b.published, workers, k) + Answers(b, k) == Copies(Tasks(b.published), k);
      forall v | 0 <= v < |workers|
        ensures workers[v].cursor <= |b.published|
      {
        assert WorkerFits(b.free, b.published, workers[v], v);
      }
      AllHeldPublish(b.published, workers, WorkerTask(w, t), k);
      TasksOneMore(b.published, w, t);
      CopiesLast(Tasks(b.published), t, k);
    }
  }

  lemma WorkerBalances(b: BrokerState, workers: seq<WorkerState>, w: WorkerId, x: WorkerState)
    requires Balanced(b, workers) && w < |workers|
    requires forall k :: Held(b.published, x, w, k) == Held(b.published, workers[w], w, k)
    ensures Balanced(b, workers[w := x])
  {
    forall k
      ensures AllHeld(b.published, workers[w := x], k) + Answers(b, k) == Copies(Tasks(b.published), k)
    {
      assert Held(b.published, x, w, k) == Held(b.published, workers[w], w, k);
      AllHeldUpdate(b.published, workers, w, x, k);
    }
  }

  lemma SameBalance(b: BrokerState, b': BrokerState, workers: seq<WorkerState>)
    requires Balanced(b, workers) && b'.published == b.published && b'.replied == b.replied
    ensures Balanced(b', workers)
  {
    forall k
      ensures AllHeld(b'.published, workers, k) + Answers(b', k) == Copies(Tasks(b'.published), k)
    {
      assert AllHeld(b.published, workers, k) + Answers(b, k) == Copies(Tasks(b.published), k);
    }
  }

  /** The broker receives a reply and forwards it. */
  lemma ReplyBalances(b: BrokerState, workers: seq<WorkerState>, w: WorkerId)
    requires Balanced(b, workers) && w < |workers| && workers[w].outbox != [] && workers[w].outbox[0].TaskDone?
    ensures var x := workers[w];
            Balanced(b.(replied := b.replied + [x.outbox[0].key]), workers[w := x.(outbox := x.outbox[1..])])
  {
    var x, b' := workers[w], b.(replied := b.replied + [workers[w].outbox[0].key]);
    var x' := x.(outbox := x.outbox[1..]);
    forall k
      ensures AllHeld(b'.published, workers[w := x'], k) + Answers(b', k) == Copies(Tasks(b'.published), k)
    {
      assert AllHeld(b.published, workers, k) + Answers(b, k) == Copies(Tasks(b.published), k);
      ReceiptHolds(b.published, x, w, k);
      AllHeldUpdate(b.published, workers, w, x', k);
      CountConcat(b.replied, [x.outbox[0].key], k);
    }
  }

  lemma FromWorkerBalances(drain: Drain, s: Cluster, w: WorkerId)
    requires Balanced(s.broker, s.workers) && WorkersFit(s.broker, s.workers) && w < |s.workers| && s.workers[w].outbox != []
    ensures Balanced(NextFromWorker(drain, s, w).broker, NextFromWorker(drain, s, w).workers)
  {
    var b, x := s.broker, s.workers[w];
    var workers' := s.workers[w := x.(outbox := x.outbox[1..])];
    assert WorkerFits(b.free, b.published, x, w);
    match x.outbox[0] {
      case CoreCount(n) =>
        forall k
          ensures Held(b.published, x.(outbox := x.outbox[1..]), w, k) == Held(b.published, x, w, k)
        {
          ReceiptHolds(b.published, x, w, k);
        }
        WorkerBalances(b, s.workers, w, x.(outbox := x.outbox[1..]));
        SameBalance(b, Registered(b, w, n), workers');
      case TaskDone(_, k) =>
        ReplyBalances(b, s.workers, w);
        FromWorkerKeepsFits(drain, s, w);
        DrainBalances(drain, b, s.workers, workers', w, k);
    }
  }

  lemma DrainBalances(drain: Drain, b: BrokerState, workers: seq<WorkerState>, workers': seq<WorkerState>, w: WorkerId, r: TaskKey)
    requires w in b.free && w < |workers'| && Balanced(b.(replied := b.replied + [r]), workers')
    requires WorkersFit(b, workers) && |workers'| == |workers| && forall v :: 0 <= v < |workers| ==> workers'[v].cursor == workers[v].cursor
    ensures Balanced(Replied(drain, b, w, r), workers')
  {
    var b', b1 := Replied(drain, b, w, r), b.(replied := b.replied + [r]);
    if b.queue == [] {
      SameBalance(b1, b', workers');
    } else {
      var t := Taken(drain, b.queue);
      forall k
        ensures AllHeld(b'.published, workers', k) + Answers(b', k) == Copies(Tasks(b'.published), k)
      {
        assert AllHeld(b1.published, workers', k) + Answers(b1, k) == Copies(Tasks(b1.published), k);
        forall v | 0 <= v < |workers'|
          ensures workers'[v].cursor <= |b.published|
        {
          assert WorkerFits(b.free, b.published, workers[v], v);
        }
        AllHeldPublish(b.published, workers', WorkerTask(w, t), k);
        TasksOneMore(b.published, w, t);
        CopiesLast(Tasks(b.published), t, k);
      }
    }
  }

  lemma WorkerStepBalances(drain: Drain, world: World, s: Cluster, a: Action)
    requires Balanced(s.broker, s.workers) && Enabled(world, s, a) && ByWorker(a)
    ensures Balanced(Next(drain, world, s, a).broker, Next(drain, world, s, a).workers)
  {
    if !Next(drain, world, s, a).crashed {
      var x := Next(drain, world, s, a).workers[a.w];
      forall k
        ensures Held(s.broker.published, x, a.w, k) == Held(s.broker.published, s.workers[a.w], a.w, k)
      {
        OwnStepHolds(drain, world, s, a, k);
      }
      WorkerBalances(s.broker, s.workers, a.w, x);
      assert Next(drain, world, s, a).workers == s.workers[a.w := x];
    }
  }

  lemma OwnStepHolds(drain: Drain, world: World, s: Cluster, a: Action, k: TaskKey)
    requires Enabled(world, s, a) && ByWorker(a) && !Next(drain, world, s, a).crashed
    ensures Held(s.broker.published, Next(drain, world, s, a).workers[a.w], a.w, k) == Held(s.broker.published, s.workers[a.w], a.w, k)
  {
    var published, x := s.broker.published, s.workers[a.w];
    if a.ReadInbox? {
      DeliverHolds(published, x, a.w, k);
    } else if a.Take? {
      TakeHolds(published, x, a.w, a.i, k);
    } else if a.ReadOne? {
      var v := ReadOperand(world, s.store, NextOperand(x.threads[a.i])).value;
      SameTaskHolds(published, x, a.w, a.i, GotOperand(x, a.i, v).threads[a.i], k);
    } else if a.Compute? {
      SameTaskHolds(published, x, a.w, a.i, Reporting(x.threads[a.i].task), k);
    } else if a.Respond? {
      ReportHolds(published, x, a.w, a.i, k);
    } else {
      OutputHolds(published, x, a.w, k);
    }
  }

  lemma JoinBalances(b: BrokerState, workers: seq<WorkerState>, cores: nat)
    requires Balanced(b, workers)
    ensures Balanced(b, workers + [Launch(cores, |b.published|)])
  {
    var workers' := workers + [Launch(cores, |b.published|)];
    forall k
      ensures AllHeld(b.published, workers', k) + Answers(b, k) == Copies(Tasks(b.published), k)
    {
      assert AllHeld(b.published, workers, k) + Answers(b, k) == Copies(Tasks(b.published), k);
      LaunchHolds(b.published, cores, |workers|, k);
      assert HeldEach(b.published, workers', k) == HeldEach(b.published, workers, k) + [0];
      TallyGrows(HeldEach(b.published, workers, k), 0);
    }
  }

  lemma AssignBalances(b: BrokerState, workers: seq<WorkerState>, t: Task, choice: Option<WorkerId>)
    requires Balanced(b, workers) && WorkersFit(b, workers) && ValidChoice(b, choice)
    ensures Balanced(Assign(b, t, choice), workers)
  {
    if choice.Some? {
      PublishBalances(b, workers, choice.value, t);
    } else {
      SameBalance(b, Assign(b, t, choice), workers);
    }
  }

  lemma StepBalances(drain: Drain, world: World, s: Cluster, a: Action)
    requires Balanced(s.broker, s.workers) && WorkersFit(s.broker, s.workers) && Enabled(world, s, a)
    ensures Balanced(Next(drain, world, s, a).broker, Next(drain, world, s, a).workers)
  {
    if ByManager(a) {
      ManagerStepFrame(drain, world, s, a);
    } else if ByWorker(a) {
      WorkerStepBalances(drain, world, s, a);
    } else if a.FromWorker? {
      FromWorkerBalances(drain, s, a.w);
    } else if a.FromManager? {
      AssignBalances(s.broker, s.workers, s.sent[s.taken], a.choice);
    } else {
      JoinBalances(s.broker, s.workers, a.cores);
    }
  }

  /** Every published copy of a task is at a worker or has been answered, in every run. */
  lemma {:induction false} PublicationsBalance(drain: Drain, world: World, run: seq<Action>)
    requires Run(drain, world, run).Some?
    ensures Balanced(Run(drain, world, run).value.broker, Run(drain, world, run).value.workers)
  {
    if run != [] {
      var front, a := run[..|run| - 1], run[|run| - 1];
      PublicationsBalance(drain, world, front);
      RunFits(drain, world, front);
      StepBalances(drain, world, Run(drain, world, front).value, a);
    }
  }

  // ---------- copies still to be answered ----------

  /** The copies of k queued or published, less the replies received. */
  function OwedBy(b: BrokerState, seen: nat, k: TaskKey): int
    requires seen <= |b.replied|
  {
    Copies(b.queue, k) + Copies(Tasks(b.published), k) - Count(b.replied[..seen], k)
  }

  function Owed(s: Cluster, k: TaskKey): int
    requires s.seen <= |s.broker.replied|
  {
    OwedBy(s.broker, s.seen, k)
  }

  lemma OwedIsInFlight(s: Cluster, k: TaskKey)
    requires Balanced(s.broker, s.workers) && s.seen <= |s.broker.replied| && Owed(s, k) > 0
    ensures InFlight(s, k)
  {
    assert AllHeld(s.broker.published, s.workers, k) + Answers(s.broker, k) == Copies(Tasks(s.broker.published), k);
    assert s.broker.replied == s.broker.replied[..s.seen] + s.broker.replied[s.seen..];
    CountConcat(s.broker.replied[..s.seen], s.broker.replied[s.seen..], k);
    if AllHeld(s.broker.published, s.workers, k) > 0 {
      var w := SomeHeld(s.broker.published, s.workers, k);
      HeldIsAtWorker(s.broker.published, s.workers[w], w, k);
    }
  }

  /** A drain that finds at most one task only moves it. */
  lemma OwedAfterDrain(drain: Drain, b: BrokerState, seen: nat, w: WorkerId, r: TaskKey, k: TaskKey)
    requires w in b.free && seen <= |b.replied| && |b.queue| <= 1
    ensures OwedBy(Replied(drain, b, w, r), seen, k) == OwedBy(b, seen, k)
  {
    var b' := Replied(drain, b, w, r);
    assert b'.replied[..seen] == b.replied[..seen];
    if b.queue != [] {
      TasksOneMore(b.published, w, b.queue[0]);
      CopiesLast(Tasks(b.published), b.queue[0], k);
      CopiesFirst(b.queue, k);
    }
  }

  lemma OwedAfterReceipt(drain: Drain, s: Cluster, w: WorkerId, k: TaskKey)
    requires w < |s.workers| && s.workers[w].outbox != [] && s.seen <= |s.broker.replied| && |s.broker.queue| <= 1
    ensures Owed(NextFromWorker(drain, s, w), k) == Owed(s, k)
  {
    match s.workers[w].outbox[0] {
      case CoreCount(_) =>
      case TaskDone(id, r) =>
        if id in s.broker.free {
          OwedAfterDrain(drain, s.broker, s.seen, id, r, k);
        }
    }
  }

  lemma OwedAfterReply(s: Cluster, k: TaskKey)
    requires s.seen < |s.broker.replied| && !NextReply(s).crashed && !s.crashed
    ensures Owed(NextReply(s), k) == Owed(s, k) - if s.broker.replied[s.seen] == k then 1 else 0
  {
    assert NextReply(s).broker == s.broker && NextReply(s).seen == s.seen + 1;
    assert s.broker.replied[..s.seen + 1] == s.broker.replied[..s.seen] + [s.broker.replied[s.seen]];
    CountConcat(s.broker.replied[..s.seen], [s.broker.replied[s.seen]], k);
  }
}
