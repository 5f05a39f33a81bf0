/** The other runs of the drain as written: a drain that finds two or more tasks queued loses the
    oldest, and the client waiting for it is never answered, whatever happens afterwards.
 */
module LostTasks {
  import opened Domain
  import opened Expression
  import opened ValueNumbering
  import opened Decomposition
  import opened Dispatch
  import opened Frontier
  import opened Broker
  import opened Worker
  import opened Places
  import opened Pipeline
  import opened Cluster
  import opened Desk
  import opened Safety
  import opened Results

  /** Task h is processing and nothing in flight names it; whatever is in flight of its problem has
      been started. */
  ghost predicate Lost(s: Cluster, h: TaskKey) {
    && h.problem < |s.clients| && s.clients[h.problem].frame == Waiting(false)
    && h.problem in s.problems && Agrees(s.problems[h.problem])
    && h.task in Running(s.problems[h.problem])
    && forall k :: InFlight(s, k) && k.problem == h.problem ==> k != h && k.task in s.problems[h.problem].status
  }

  // ---------- no step but sending puts a new name in flight ----------

  lemma {:induction false} MineShrinks(published: seq<WorkerTask>, from: nat, w: WorkerId, k: TaskKey)
    requires from < |published| && k in Keys(Mine(published, from + 1, w))
    ensures k in Keys(Mine(published, from, w))
  {
    var rest, all := Mine(published, from + 1, w), Mine(published, from, w);
    var i :| 0 <= i < |Keys(rest)| && Keys(rest)[i] == k;
    assert all[i + |all| - |rest|] == rest[i];
    assert Keys(all)[i + |all| - |rest|] == k;
  }

  lemma KeyOf(tasks: seq<Task>, i: nat)
    requires i < |tasks|
    ensures tasks[i].key in Keys(tasks)
  {
    assert Keys(tasks)[i] == tasks[i].key;
  }

  lemma DoneKeysShrink(outbox: seq<WorkerMessage>, k: TaskKey)
    requires outbox != [] && k in DoneKeys(outbox[1..])
    ensures k in DoneKeys(outbox)
  {
  }

  lemma ReadNames(published: seq<WorkerTask>, s: WorkerState, w: WorkerId, k: TaskKey)
    requires s.cursor < |published| && AtWorker(published, Deliver(w, s, published[s.cursor]), w, k)
    ensures AtWorker(published, s, w, k)
  {
    var m := published[s.cursor];
    if k in Keys(Mine(published, s.cursor + 1, w)) {
      MineShrinks(published, s.cursor, w, k);
    } else if m.identity == w {
      KeysPush(s.pending, m.task);
      KeyOf(Mine(published, s.cursor, w), 0);
    }
  }

  lemma ThreadNames(threads: seq<Thread>, i: nat, t: Thread, k: TaskKey)
    requires i < |threads| && AtThreads(threads[i := t], k)
    ensures AtThread(t, k) || AtThreads(threads, k)
  {
    var threads' := threads[i := t];
    var j :| 0 <= j < |threads'| && AtThread(threads'[j], k);
    if j != i {
      assert AtThread(threads[j], k);
    }
  }

  lemma TakeNames(published: seq<WorkerTask>, s: WorkerState, w: WorkerId, i: nat, k: TaskKey)
    requires i < |s.threads| && s.pending != [] && AtWorker(published, TakeTask(s, i), w, k)
    ensures AtWorker(published, s, w, k)
  {
    KeyOf(s.pending, 0);
    KeysPop(s.pending);
    if AtThreads(TakeTask(s, i).threads, k) {
      ThreadNames(s.threads, i, Reading(s.pending[0], []), k);
    }
  }

  /** A thread goes on with the task it has. */
  lemma SameTaskNames(published: seq<WorkerTask>, s: WorkerState, w: WorkerId, i: nat, t: Thread, k: TaskKey)
    requires i < |s.threads| && !s.threads[i].Idle? && !t.Idle? && t.task == s.threads[i].task
    requires AtWorker(published, s.(threads := s.threads[i := t]), w, k)
    ensures AtWorker(published, s, w, k)
  {
    if AtThreads(s.threads[i := t], k) {
      ThreadNames(s.threads, i, t, k);
      if AtThread(t, k) {
        assert AtThread(s.threads[i], k);
      }
    }
  }

  lemma RespondNames(published: seq<WorkerTask>, s: WorkerState, w: WorkerId, i: nat, k: TaskKey)
    requires i < |s.threads| && s.threads[i].Reporting? && AtWorker(published, Report(s, i), w, k)
    ensures AtWorker(published, s, w, k)
  {
    if AtThreads(Report(s, i).threads, k) {
      ThreadNames(s.threads, i, Idle, k);
    }
    if k == s.threads[i].task.key {
      assert AtThread(s.threads[i], k);
    }
  }

  lemma OutputNames(published: seq<WorkerTask>, s: WorkerState, w: WorkerId, k: TaskKey)
    requires s.finished != [] && AtWorker(published, CheckOutput(w, s), w, k)
    ensures AtWorker(published, s, w, k)
  {
    DoneKeysGrow(s.outbox, TaskDone(w, s.finished[0]));
  }

  lemma PublishNames(published: seq<WorkerTask>, m: WorkerTask, s: WorkerState, w: WorkerId, k: TaskKey)
    requires AtWorker(published + [m], s, w, k)
    ensures AtWorker(published, s, w, k) || k == m.task.key
  {
    if s.cursor <= |published| {
      MineGrows(published, s.cursor, w, m);
      if m.identity == w {
        KeysPush(Mine(published, s.cursor, w), m.task);
      }
    }
  }

  /** One worker changes and gains no name. */
  lemma WorkerNames(s: Cluster, w: WorkerId, worker: WorkerState, k: TaskKey)
    requires w < |s.workers| && InFlight(WithWorker(s, w, worker), k)
    requires AtWorker(s.broker.published, worker, w, k) ==> AtWorker(s.broker.published, s.workers[w], w, k)
    ensures InFlight(s, k)
  {
    var workers' := s.workers[w := worker];
    if AtSomeWorker(s.broker.published, workers', k) {
      var v :| 0 <= v < |workers'| && AtWorker(s.broker.published, workers'[v], v, k);
      assert AtWorker(s.broker.published, s.workers[v], v, k);
    }
  }

  lemma PublishedNames(workers: seq<WorkerState>, published: seq<WorkerTask>, m: WorkerTask, k: TaskKey)
    requires AtSomeWorker(published + [m], workers, k)
    ensures AtSomeWorker(published, workers, k) || k == m.task.key
  {
    var w :| 0 <= w < |workers| && AtWorker(published + [m], workers[w], w, k);
    PublishNames(published, m, workers[w], w, k);
  }

  lemma FromManagerNames(s: Cluster, choice: Option<WorkerId>, k: TaskKey)
    requires s.taken < |s.sent| && ValidChoice(s.broker, choice)
    requires InFlight(s.(broker := Assign(s.broker, s.sent[s.taken], choice), taken := s.taken + 1), k)
    ensures InFlight(s, k)
  {
    var t, wire := s.sent[s.taken], s.sent[s.taken..];
    KeyOf(wire, 0);
    assert wire[1..] == s.sent[s.taken + 1..];
    KeysPop(wire);
    match choice {
      case None => KeysPush(s.broker.queue, t);
      case Some(w) =>
        if AtSomeWorker(s.broker.published + [WorkerTask(w, t)], s.workers, k) {
          PublishedNames(s.workers, s.broker.published, WorkerTask(w, t), k);
        }
    }
  }

  lemma BrokerReplyNames(drain: Drain, s: Cluster, w: WorkerId, id: WorkerId, r: TaskKey, k: TaskKey)
    requires w < |s.workers| && id in s.broker.free && s.workers[w].outbox != [] && s.workers[w].outbox[0] == TaskDone(id, r)
    requires InFlight(s.(broker := Replied(drain, s.broker, id, r)), k)
    ensures InFlight(s, k)
  {
    var broker' := Replied(drain, s.broker, id, r);
    assert AtWorker(s.broker.published, s.workers[w], w, r);
    if k in Keys(broker'.queue) {
      KeysPop(s.broker.queue);
    } else if AtSomeWorker(broker'.published, s.workers, k) {
      if s.broker.queue != [] {
        var t := Taken(drain, s.broker.queue);
        PublishedNames(s.workers, s.broker.published, WorkerTask(id, t), k);
        KeyOf(s.broker.queue, if drain.AsWritten? then |s.broker.queue| - 1 else 0);
      }
    } else if s.seen <= |broker'.replied| && k in broker'.replied[s.seen..] && k != r {
      assert k in broker'.replied[s.seen..];
      RepliedNames(s.broker.replied, r, s.seen, k);
    }
  }

  lemma RepliedNames(replied: seq<TaskKey>, r: TaskKey, seen: nat, k: TaskKey)
    requires seen <= |replied| + 1 && k in (replied + [r])[seen..] && k != r
    ensures seen <= |replied| && k in replied[seen..]
  {
    var i :| 0 <= i < |(replied + [r])[seen..]| && (replied + [r])[seen..][i] == k;
    assert replied[seen + i] == k;
    assert replied[seen..][i] == k;
  }

  lemma PopOutboxNames(s: Cluster, w: WorkerId, k: TaskKey)
    requires w < |s.workers| && s.workers[w].outbox != []
    requires InFlight(WithWorker(s, w, s.workers[w].(outbox := s.workers[w].outbox[1..])), k)
    ensures InFlight(s, k)
  {
    var worker := s.workers[w].(outbox := s.workers[w].outbox[1..]);
    if k in DoneKeys(worker.outbox) {
      DoneKeysShrink(s.workers[w].outbox, k);
    }
    WorkerNames(s, w, worker, k);
  }

  lemma FromWorkerNames(drain: Drain, s: Cluster, w: WorkerId, k: TaskKey)
    requires w < |s.workers| && s.workers[w].outbox != [] && InFlight(NextFromWorker(drain, s, w), k)
    ensures InFlight(s, k)
  {
    var worker := s.workers[w].(outbox := s.workers[w].outbox[1..]);
    match s.workers[w].outbox[0] {
      case CoreCount(n) =>
        if w !in s.broker.free {
          assert InFlight(WithWorker(s, w, worker), k);
          PopOutboxNames(s, w, k);
        }
      case TaskDone(id, r) =>
        if id in s.broker.free {
          var s1 := s.(broker := Replied(drain, s.broker, id, r));
          assert NextFromWorker(drain, s, w) == WithWorker(s1, w, worker);
          PopOutboxNames(s1, w, k);
          BrokerReplyNames(drain, s, w, id, r, k);
        }
    }
  }

  lemma JoinNames(s: Cluster, cores: nat, k: TaskKey)
    requires InFlight(s.(workers := s.workers + [Launch(cores, |s.broker.published|)]), k)
    ensures InFlight(s, k)
  {
    var newcomer := Launch(cores, |s.broker.published|);
    var workers' := s.workers + [newcomer];
    if AtSomeWorker(s.broker.published, workers', k) {
      var w :| 0 <= w < |workers'| && AtWorker(s.broker.published, workers'[w], w, k);
      assert newcomer.outbox[1..] == [] && DoneKeys(newcomer.outbox) == [];
      assert w < |s.workers| ==> AtWorker(s.broker.published, s.workers[w], w, k);
    }
  }

  lemma ReplyNames(s: Cluster, k: TaskKey)
    requires s.seen < |s.broker.replied| && InFlight(NextReply(s), k)
    ensures InFlight(s, k)
  {
    if k in s.broker.replied[s.seen + 1..] {
      assert s.broker.replied[s.seen + 1..] == s.broker.replied[s.seen..][1..];
    }
  }

  /** No action but a send puts a new name in flight. */
  lemma NoNewNames(drain: Drain, world: World, s: Cluster, a: Action, k: TaskKey)
    requires Enabled(world, s, a) && !a.Send? && InFlight(Next(drain, world, s, a), k)
    ensures InFlight(s, k)
  {
    if a.Reply? {
      ReplyNames(s, k);
    } else if a.Join? {
      JoinNames(s, a.cores, k);
    } else if a.FromWorker? {
      FromWorkerNames(drain, s, a.w, k);
    } else if a.FromManager? {
      FromManagerNames(s, a.choice, k);
    } else if a.ReadOne? {
      ReadOneNames(world, s, a.w, a.i, k);
    } else if a.Compute? {
      ComputeNames(world, s, a.w, a.i, k);
    } else if ByWorker(a) {
      WorkerActionNames(drain, world, s, a, k);
    } else {
      ManagerActionNames(drain, world, s, a, k);
    }
  }

  lemma ManagerActionNames(drain: Drain, world: World, s: Cluster, a: Action, k: TaskKey)
    requires Enabled(world, s, a) && InFlight(Next(drain, world, s, a), k) && (a.Push? || a.Clear? || a.Fetch? || a.Finish?)
    ensures InFlight(s, k)
  {
    ManagerStepFrame(drain, world, s, a);
    assert Next(drain, world, s, a).seen == s.seen;
  }

  lemma ReadOneNames(world: World, s: Cluster, w: WorkerId, i: nat, k: TaskKey)
    requires Enabled(world, s, ReadOne(w, i)) && InFlight(NextReadOne(world, s, w, i), k)
    ensures InFlight(s, k)
  {
    var v := ReadOperand(world, s.store, NextOperand(s.workers[w].threads[i]));
    if v.Some? {
      var x := GotOperand(s.workers[w], i, v.value);
      if AtWorker(s.broker.published, x, w, k) { SameTaskNames(s.broker.published, s.workers[w], w, i, x.threads[i], k); }
      WorkerNames(s, w, x, k);
    }
  }

  lemma ComputeNames(world: World, s: Cluster, w: WorkerId, i: nat, k: TaskKey)
    requires Enabled(world, s, Compute(w, i)) && InFlight(NextCompute(world, s, w, i), k)
    ensures InFlight(s, k)
  {
    var x := Worker.Stored(s.workers[w], i);
    assert InFlight(WithWorker(s, w, x), k);
    if AtWorker(s.broker.published, x, w, k) { SameTaskNames(s.broker.published, s.workers[w], w, i, x.threads[i], k); }
    WorkerNames(s, w, x, k);
  }

  lemma WorkerActionNames(drain: Drain, world: World, s: Cluster, a: Action, k: TaskKey)
    requires Enabled(world, s, a) && InFlight(Next(drain, world, s, a), k) && (a.ReadInbox? || a.Take? || a.Respond? || a.Output?)
    ensures InFlight(s, k)
  {
    var published := s.broker.published;
    match a {
      case ReadInbox(w) =>
        var x := Deliver(w, s.workers[w], published[s.workers[w].cursor]);
        if AtWorker(published, x, w, k) { ReadNames(published, s.workers[w], w, k); }
        WorkerNames(s, w, x, k);
      case Take(w, i) =>
        var x := TakeTask(s.workers[w], i);
        if AtWorker(published, x, w, k) { TakeNames(published, s.workers[w], w, i, k); }
        WorkerNames(s, w, x, k);
      case Respond(w, i) =>
        var x := Report(s.workers[w], i);
        if AtWorker(published, x, w, k) { RespondNames(published, s.workers[w], w, i, k); }
        WorkerNames(s, w, x, k);
      case Output(w) =>
        var x := CheckOutput(w, s.workers[w]);
        if AtWorker(published, x, w, k) { OutputNames(published, s.workers[w], w, k); }
        WorkerNames(s, w, x, k);
    }
  }

  // ---------- a lost task stays lost ----------

  /** While a task of the problem is missing, no reply can be the root's. */
  lemma RootNotInFlight(s: Cluster, h: TaskKey, k: TaskKey)
    requires Lost(s, h) && InFlight(s, k) && k.problem == h.problem
    ensures !IsLast(s.problems[h.problem], k.task)
  {
    var c := s.problems[h.problem];
    assert TaskKey(h.problem, k.task) == k && TaskKey(h.problem, h.task) == h;
    assert k.task != h.task;
    if IsLast(c, k.task) {
      RootFinishesLast(c);
    }
  }

  lemma StatusAfterReply(c: CalculationData, t: TaskId, h: TaskId)
    requires Agrees(c) && t in c.status && t != h && h in Running(c)
    ensures Agrees(AfterReply(c, t)) && h in Running(AfterReply(c, t)) && AfterReply(c, t).status.Keys == c.status.Keys
  {
    if c.status[t] == Processing {
      ReplyAgrees(c, t);
    } else {
      assert c.status[t := Completed] == c.status;
    }
  }

  lemma ReplyKeepsLost(s: Cluster, h: TaskKey)
    requires Lost(s, h) && s.seen < |s.broker.replied|
    ensures Lost(NextReply(s), h)
  {
    var k := s.broker.replied[s.seen];
    assert k in s.broker.replied[s.seen..] by { assert s.broker.replied[s.seen..][0] == k; }
    assert InFlight(s, k);
    var s' := NextReply(s);
    if k.problem == h.problem {
      RootNotInFlight(s, h, k);
      assert k.task != h.task by {
        assert TaskKey(h.problem, k.task) == k && TaskKey(h.problem, h.task) == h;
      }
      StatusAfterReply(s.problems[h.problem], k.task, h.task);
    }
    forall q | InFlight(s', q) && q.problem == h.problem
      ensures q != h && q.task in s'.problems[h.problem].status
    {
      ReplyNames(s, q);
    }
  }

  lemma SendKeepsLost(s: Cluster, h: TaskKey, ks: seq<TaskKey>, tasks: seq<Task>)
    requires Lost(s, h) && IsPass(s.problems, ks) && AreRequests(s.problems, ks, tasks)
    ensures Lost(s.(problems := AfterSendAll(s.problems), sent := s.sent + tasks), h)
  {
    var s' := s.(problems := AfterSendAll(s.problems), sent := s.sent + tasks);
    var c := s.problems[h.problem];
    SendAgrees(c);
    SendMovesFrontier(c);
    forall q | InFlight(s', q) && q.problem == h.problem
      ensures q != h && q.task in s'.problems[h.problem].status
    {
      if !InFlight(s, q) {
        SentNames(s.sent, s.taken, tasks, q);
        var i :| 0 <= i < |tasks| && tasks[i].key == q;
        assert InFrontier(s.problems, ks[i]) && tasks[i] == RequestOf(s.problems, ks[i]);
        FrontierIsNew(c, q.task);
      }
    }
  }

  lemma SentNames(sent: seq<Task>, taken: nat, tasks: seq<Task>, k: TaskKey)
    requires taken <= |sent + tasks| && k in Keys((sent + tasks)[taken..])
    ensures (taken <= |sent| && k in Keys(sent[taken..])) || exists i :: 0 <= i < |tasks| && tasks[i].key == k
  {
    var all := (sent + tasks)[taken..];
    var i :| 0 <= i < |Keys(all)| && Keys(all)[i] == k;
    if taken + i < |sent| {
      assert sent[taken..][i].key == k;
      KeyOf(sent[taken..], i);
    } else {
      assert tasks[taken + i - |sent|].key == k;
    }
  }

  lemma OtherActionsKeepClient(drain: Drain, world: World, s: Cluster, p: ProblemId, a: Action)
    requires Enabled(world, s, a) && !a.Send? && !a.Reply?
    requires p < |s.clients| && s.clients[p].frame == Waiting(false) && p in s.problems
    ensures var s' := Next(drain, world, s, a);
            && p < |s'.clients| && s'.clients[p] == s.clients[p]
            && p in s'.problems && s'.problems[p] == s.problems[p]
  {
    if ByWorker(a) {
      WorkerStepFrame(drain, world, s, a);
    } else if ByBroker(a) {
      BrokerStepFrame(drain, world, s, a);
    }
  }

  lemma OtherActionsKeepLost(drain: Drain, world: World, s: Cluster, h: TaskKey, a: Action)
    requires Lost(s, h) && Enabled(world, s, a) && !a.Send? && !a.Reply?
    ensures Lost(Next(drain, world, s, a), h)
  {
    var s' := Next(drain, world, s, a);
    OtherActionsKeepClient(drain, world, s, h.problem, a);
    forall q | InFlight(s', q) && q.problem == h.problem
      ensures q != h && q.task in s'.problems[h.problem].status
    {
      NoNewNames(drain, world, s, a, q);
    }
  }

  lemma StepKeepsLost(drain: Drain, world: World, s: Cluster, h: TaskKey, a: Action)
    requires Lost(s, h) && Enabled(world, s, a)
    ensures Lost(Next(drain, world, s, a), h)
  {
    match a {
      case Send(ks, tasks) => SendKeepsLost(s, h, ks, tasks);
      case Reply => ReplyKeepsLost(s, h);
      case _ => OtherActionsKeepLost(drain, world, s, h, a);
    }
  }

  lemma {:induction false} LostForever(drain: Drain, world: World, s: Cluster, h: TaskKey, run: seq<Action>)
    requires Lost(s, h) && Continue(drain, world, s, run).Some?
    ensures Lost(Continue(drain, world, s, run).value, h)
  {
    if run != [] {
      var front, a := run[..|run| - 1], run[|run| - 1];
      LostForever(drain, world, s, h, front);
      StepKeepsLost(drain, world, Continue(drain, world, s, front).value, h, a);
    }
  }

  // ---------- the written drain loses a task ----------

  lemma QueuedOnlyThere(world: World, s: Cluster, where: Where, h: TaskKey)
    requires Good(world, s, where) && h in where && where[h] == Queued
    ensures !AtSomeWorker(s.broker.published, s.workers, h)
    ensures h !in Keys(s.sent[s.taken..]) && h !in s.broker.replied[s.seen..]
  {
    if AtSomeWorker(s.broker.published, s.workers, h) {
      var w :| 0 <= w < |s.workers| && AtWorker(s.broker.published, s.workers[w], w, h);
      AtWorkerHasPlace(world, s, where, w, h);
    }
  }

  lemma DrainDropsName(s: Cluster, w: WorkerId, h: TaskKey)
    requires w < |s.workers| && s.workers[w].outbox != [] && s.workers[w].outbox[0].TaskDone?
    requires s.workers[w].outbox[0].identity in s.broker.free
    requires |s.broker.queue| >= 2 && Distinct(Keys(s.broker.queue)) && h == s.broker.queue[0].key
    requires !AtSomeWorker(s.broker.published, s.workers, h)
    requires s.taken <= |s.sent| && h !in Keys(s.sent[s.taken..]) && s.seen <= |s.broker.replied| && h !in s.broker.replied[s.seen..]
    ensures !InFlight(NextFromWorker(AsWritten, s, w), h)
  {
    var id, r := s.workers[w].outbox[0].identity, s.workers[w].outbox[0].key;
    var queue := s.broker.queue;
    var worker := s.workers[w].(outbox := s.workers[w].outbox[1..]);
    var broker' := Replied(AsWritten, s.broker, id, r);
    var last := queue[|queue| - 1];
    assert Keys(queue)[0] == h && Keys(queue)[|queue| - 1] == last.key;
    KeysPop(queue);
    assert h !in Keys(queue[1..]);
    assert r != h by { assert !AtWorker(s.broker.published, s.workers[w], w, h); }
    assert broker'.published == s.broker.published + [WorkerTask(id, last)];
    if AtSomeWorker(broker'.published, s.workers[w := worker], h) {
      PublishedNames(s.workers[w := worker], s.broker.published, WorkerTask(id, last), h);
      var s1 := s.(broker := s.broker.(queue := [], replied := []), taken := |s.sent| + 1);
      assert InFlight(WithWorker(s1, w, worker), h);
      PopOutboxNames(s1, w, h);
    }
    if h in broker'.replied[s.seen..] {
      RepliedNames(s.broker.replied, r, s.seen, h);
    }
  }

  /** A drain as written of two or more queued tasks loses the oldest: from then on its problem is
      never answered, in any continuation and with either drain. */
  lemma WrittenDrainLosesProblem(world: World, run: seq<Action>, s: Cluster, a: Action, drain: Drain, rest: seq<Action>)
    requires Reached(AsWritten, world, run, s) && Enabled(world, s, a) && Drains(s, a) && |s.broker.queue| >= 2
    requires Continue(drain, world, Next(AsWritten, world, s, a), rest).Some?
    ensures var p := s.broker.queue[0].key.problem;
            var end := Continue(drain, world, Next(AsWritten, world, s, a), rest).value;
            Lost(end, s.broker.queue[0].key) && p < |end.clients| && end.clients[p].frame == Waiting(false)
  {
    var where := RunKeeps(AsWritten, world, run, s);
    var h := s.broker.queue[0].key;
    DrainLoses(world, s, where, a.w);
    LostForever(drain, world, Next(AsWritten, world, s, a), h, rest);
  }

  lemma DrainLoses(world: World, s: Cluster, where: Where, w: WorkerId)
    requires Good(world, s, where) && Enabled(world, s, FromWorker(w)) && Drains(s, FromWorker(w)) && |s.broker.queue| >= 2
    ensures Lost(Next(AsWritten, world, s, FromWorker(w)), s.broker.queue[0].key)
  {
    var h := s.broker.queue[0].key;
    KeyOf(s.broker.queue, 0);
    assert WorkerGood(world, Plans(s.clients), s.broker, s.workers[w], where, w);
    QueuedOnlyThere(world, s, where, h);
    LiveTask(world, DeskOf(s), where.Keys, Past(where), h);
    StillWaiting(world, s, where, h);
    DrainDropsName(s, w, h);
    var s' := NextFromWorker(AsWritten, s, w);
    forall q | InFlight(s', q) && q.problem == h.problem
      ensures q != h && q.task in s.problems[h.problem].status
    {
      FromWorkerNames(AsWritten, s, w, q);
      InFlightHasPlace(world, s, where, q);
      LiveTask(world, DeskOf(s), where.Keys, Past(where), q);
    }
  }

  lemma StillWaiting(world: World, s: Cluster, where: Where, h: TaskKey)
    requires Good(world, s, where) && h in where
    ensures h.problem < |s.clients| && s.clients[h.problem].frame == Waiting(false)
  {
    LiveTask(world, DeskOf(s), where.Keys, Past(where), h);
    var c := s.clients[h.problem];
    assert ClientGood(world, c, h.problem, s.problems, where.Keys);
    if c.frame == Waiting(true) {
      ComputedIsOver(world, c, h.problem, s.problems, where.Keys);
    }
  }

  /** The drain as written loses the oldest queued task exactly when it finds more than one. */
  lemma WrittenDrainLosesIff(world: World, run: seq<Action>, s: Cluster, a: Action)
    requires Reached(AsWritten, world, run, s) && Enabled(world, s, a) && Drains(s, a)
    ensures Lost(Next(AsWritten, world, s, a), s.broker.queue[0].key) <==> |s.broker.queue| >= 2
  {
    var where := RunKeeps(AsWritten, world, run, s);
    var h := s.broker.queue[0].key;
    if |s.broker.queue| >= 2 {
      DrainLoses(world, s, where, a.w);
    } else {
      var where' := StepKeeps(AsWritten, world, s, where, a);
      var s' := Next(AsWritten, world, s, a);
      KeyOf(s.broker.queue, 0);
      LiveTask(world, DeskOf(s), where.Keys, Past(where), h);
      LiveIsOperation(world, s, where, h);
      FromWorkerLeavesDesk(s, a.w);
      SentIsLiveOrDone(world, s', where', h);
      PlaceIsInFlight(world, s', where', h);
    }
  }

  lemma FromWorkerLeavesDesk(s: Cluster, w: WorkerId)
    requires w < |s.workers| && s.workers[w].outbox != []
    ensures NextFromWorker(AsWritten, s, w).clients == s.clients && NextFromWorker(AsWritten, s, w).problems == s.problems
  {
  }
}
