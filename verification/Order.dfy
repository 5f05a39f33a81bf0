/** First in, first out at each worker, in every run of either drain: its threads take the tasks in the
    order in which the broker published them to it, and its answers reach the broker in the order in
    which its threads reported them.
 */
module Order {
  import opened Domain
  import opened Expression
  import opened Dispatch
  import opened Broker
  import opened Worker
  import opened Cluster
  import opened Places
  import opened Capacity

  // ---------- what has happened at worker w ----------

  /** The tasks among the first n publications that name worker w. */
  function Given(published: seq<WorkerTask>, n: nat, w: WorkerId): seq<Task>
    requires n <= |published|
  {
    if n == 0 then []
    else Given(published, n - 1, w) + if published[n - 1].identity == w then [published[n - 1].task] else []
  }

  /** The tasks its threads have begun with, in that order. */
  ghost function Begun(drain: Drain, world: World, run: seq<Action>, w: WorkerId): seq<Task> {
    if run == [] then []
    else
      var front, a := run[..|run| - 1], run[|run| - 1];
      Begun(drain, world, front, w) +
      if Run(drain, world, run).Some? && a.Take? && a.w == w then BegunNow(Run(drain, world, run).value, w, a.i) else []
  }

  ghost function BegunNow(s: Cluster, w: WorkerId, i: nat): seq<Task> {
    if HasThread(s, w, i) && s.workers[w].threads[i].Reading? then [s.workers[w].threads[i].task] else []
  }

  /** The tasks its threads have reported, in that order. */
  ghost function Reported(drain: Drain, world: World, run: seq<Action>, w: WorkerId): seq<TaskKey> {
    if run == [] then []
    else
      var front, a := run[..|run| - 1], run[|run| - 1];
      Reported(drain, world, front, w) +
      if Run(drain, world, front).Some? && a.Respond? && a.w == w then ReportedNow(Run(drain, world, front).value, w, a.i) else []
  }

  ghost function ReportedNow(s: Cluster, w: WorkerId, i: nat): seq<TaskKey> {
    if HasThread(s, w, i) && s.workers[w].threads[i].Reporting? then [s.workers[w].threads[i].task.key] else []
  }

  /** The answers the broker has forwarded on receipt from it, in that order. */
  ghost function Forwarded(drain: Drain, world: World, run: seq<Action>, w: WorkerId): seq<TaskKey> {
    if run == [] then []
    else
      var front, a := run[..|run| - 1], run[|run| - 1];
      Forwarded(drain, world, front, w) +
      if Run(drain, world, run).Some? && a == FromWorker(w) then
        ForwardedNow(Run(drain, world, front).value.broker, Run(drain, world, run).value.broker)
      else []
  }

  ghost function ForwardedNow(b: BrokerState, b': BrokerState): seq<TaskKey> {
    if |b'.replied| == |b.replied| + 1 then [b'.replied[|b.replied|]] else []
  }

  // ---------- tasks ----------

  /** Publications name registered workers. */
  ghost predicate Addressed(b: BrokerState) {
    forall i :: 0 <= i < |b.published| ==> b.published[i].identity in b.free
  }

  lemma {:induction false} GivenStays(published: seq<WorkerTask>, more: seq<WorkerTask>, n: nat, w: WorkerId)
    requires n <= |published|
    ensures Given(published + more, n, w) == Given(published, n, w)
  {
    if n > 0 {
      GivenStays(published, more, n - 1, w);
    }
  }

  lemma {:induction false} NothingGiven(b: BrokerState, n: nat, w: WorkerId)
    requires Addressed(b) && w !in b.free && n <= |b.published|
    ensures Given(b.published, n, w) == []
  {
    if n > 0 {
      NothingGiven(b, n - 1, w);
    }
  }

  /** What worker w has begun with and what waits there is what it has read of its publications. */
  ghost predicate TakesInOrder(s: Cluster, begun: seq<Task>, w: WorkerId) {
    if w < |s.workers| then
      s.workers[w].cursor <= |s.broker.published| && begun + s.workers[w].pending == Given(s.broker.published, s.workers[w].cursor, w)
    else
      begun == []
  }

  lemma StepKeepsAddressed(drain: Drain, world: World, s: Cluster, a: Action)
    requires Addressed(s.broker) && Enabled(world, s, a) && WorkersFit(s.broker, s.workers)
    ensures Addressed(Next(drain, world, s, a).broker) && s.broker.published <= Next(drain, world, s, a).broker.published
  {
    if ByWorker(a) {
      WorkerStepFrame(drain, world, s, a);
    } else if ByManager(a) {
      ManagerStepFrame(drain, world, s, a);
    } else if a.FromWorker? {
      FromWorkerKeepsAddressed(drain, s, a.w);
    }
  }

  lemma FromWorkerKeepsAddressed(drain: Drain, s: Cluster, w: WorkerId)
    requires Addressed(s.broker) && w < |s.workers| && s.workers[w].outbox != []
    ensures Addressed(NextFromWorker(drain, s, w).broker) && s.broker.published <= NextFromWorker(drain, s, w).broker.published
  {
  }

  /** A step other than a delivery, a take or a join leaves the order of tasks alone. */
  lemma StaysInOrder(s: Cluster, s': Cluster, begun: seq<Task>, w: WorkerId)
    requires TakesInOrder(s, begun, w) && s.broker.published <= s'.broker.published && |s'.workers| == |s.workers|
    requires w < |s.workers| ==> s'.workers[w].cursor == s.workers[w].cursor && s'.workers[w].pending == s.workers[w].pending
    ensures TakesInOrder(s', begun, w)
  {
    if w < |s.workers| {
      var n := |s.broker.published|;
      assert s'.broker.published == s.broker.published + s'.broker.published[n..];
      GivenStays(s.broker.published, s'.broker.published[n..], s.workers[w].cursor, w);
    }
  }

  lemma DeliverInOrder(published: seq<WorkerTask>, s: WorkerState, begun: seq<Task>, w: WorkerId)
    requires s.cursor < |published| && begun + s.pending == Given(published, s.cursor, w)
    ensures var s' := Deliver(w, s, published[s.cursor]);
            s'.cursor <= |published| && begun + s'.pending == Given(published, s'.cursor, w)
  {
    var s' := Deliver(w, s, published[s.cursor]);
    if published[s.cursor].identity == w {
      assert begun + s'.pending == begun + s.pending + [published[s.cursor].task];
    } else {
      assert Given(published, s.cursor, w) + [] == Given(published, s.cursor, w);
    }
  }

  lemma TakeInOrder(s: Cluster, begun: seq<Task>, w: WorkerId, i: nat)
    requires TakesInOrder(s, begun, w) && HasThread(s, w, i) && s.workers[w].pending != []
    ensures var s' := WithWorker(s, w, TakeTask(s.workers[w], i)); TakesInOrder(s', begun + BegunNow(s', w, i), w)
  {
    var s', pending := WithWorker(s, w, TakeTask(s.workers[w], i)), s.workers[w].pending;
    assert BegunNow(s', w, i) == [pending[0]];
    assert begun + [pending[0]] + pending[1..] == begun + pending;
  }

  lemma StepKeepsOrder(drain: Drain, world: World, s: Cluster, a: Action, begun: seq<Task>, w: WorkerId)
    requires TakesInOrder(s, begun, w) && Addressed(s.broker) && WorkersFit(s.broker, s.workers) && Enabled(world, s, a)
    ensures var s' := Next(drain, world, s, a);
            TakesInOrder(s', begun + (if a.Take? && a.w == w then BegunNow(s', w, a.i) else []), w)
  {
    var s' := Next(drain, world, s, a);
    StepKeepsAddressed(drain, world, s, a);
    if a.Take? && a.w == w {
      TakeInOrder(s, begun, w, a.i);
    } else {
      assert begun + [] == begun;
      if a.ReadInbox? && a.w == w {
        DeliverInOrder(s.broker.published, s.workers[w], begun, w);
      } else if a.Join? {
        JoinInOrder(s, a.cores, begun, w);
      } else {
        OthersLeaveInbox(drain, world, s, a, w);
        StaysInOrder(s, s', begun, w);
      }
    }
  }

  lemma JoinInOrder(s: Cluster, cores: nat, begun: seq<Task>, w: WorkerId)
    requires TakesInOrder(s, begun, w) && Addressed(s.broker) && WorkersFit(s.broker, s.workers)
    ensures TakesInOrder(s.(workers := s.workers + [Launch(cores, |s.broker.published|)]), begun, w)
  {
    if w == |s.workers| {
      NothingGiven(s.broker, |s.broker.published|, w);
    }
  }

  lemma OthersLeaveInbox(drain: Drain, world: World, s: Cluster, a: Action, w: WorkerId)
    requires Enabled(world, s, a) && !a.Join? && !((a.Take? || a.ReadInbox?) && a.w == w)
    ensures var s' := Next(drain, world, s, a);
            && |s'.workers| == |s.workers|
            && (w < |s.workers| ==> s'.workers[w].cursor == s.workers[w].cursor && s'.workers[w].pending == s.workers[w].pending)
  {
    if ByManager(a) {
      ManagerStepFrame(drain, world, s, a);
    }
  }

  lemma {:induction false} RunIsAddressed(drain: Drain, world: World, run: seq<Action>, s: Cluster)
    requires Run(drain, world, run) == Some(s)
    ensures Addressed(s.broker)
    decreases |run|
  {
    if run != [] {
      var front, a := run[..|run| - 1], run[|run| - 1];
      var s1 := Run(drain, world, front).value;
      RunIsAddressed(drain, world, front, s1);
      RunFits(drain, world, front);
      StepKeepsAddressed(drain, world, s1, a);
    }
  }

  lemma {:induction false} RunTakesInOrder(drain: Drain, world: World, run: seq<Action>, s: Cluster, w: WorkerId)
    requires Run(drain, world, run) == Some(s)
    ensures TakesInOrder(s, Begun(drain, world, run, w), w)
    decreases |run|
  {
    if run != [] {
      var front, a := run[..|run| - 1], run[|run| - 1];
      var s1 := Run(drain, world, front).value;
      RunTakesInOrder(drain, world, front, s1, w);
      RunIsAddressed(drain, world, front, s1);
      RunFits(drain, world, front);
      StepKeepsOrder(drain, world, s1, a, Begun(drain, world, front, w), w);
    }
  }

  /** The threads of a worker begin with the tasks in the order in which they were published to it; those
      they have not begun with follow in its queue, and then in its inbox. */
  lemma TasksAreTakenInOrder(drain: Drain, world: World, run: seq<Action>, s: Cluster, w: WorkerId)
    requires Run(drain, world, run) == Some(s) && w < |s.workers|
    ensures s.workers[w].cursor <= |s.broker.published|
    ensures Begun(drain, world, run, w) + s.workers[w].pending + Mine(s.broker.published, s.workers[w].cursor, w)
         == Given(s.broker.published, |s.broker.published|, w)
  {
    RunTakesInOrder(drain, world, run, s, w);
    GivenThenMine(s.broker.published, s.workers[w].cursor, w);
  }

  lemma {:induction false} GivenThenMine(published: seq<WorkerTask>, n: nat, w: WorkerId)
    requires n <= |published|
    ensures Given(published, n, w) + Mine(published, n, w) == Given(published, |published|, w)
    decreases |published| - n
  {
    if n < |published| {
      GivenThenMine(published, n + 1, w);
      var first: seq<Task> := if published[n].identity == w then [published[n].task] else [];
      assert Given(published, n, w) + (first + Mine(published, n + 1, w)) == Given(published, n, w) + first + Mine(published, n + 1, w);
    }
  }

  // ---------- answers ----------

  /** What the broker has forwarded, what is on its way and what waits to be sent is what was reported. */
  ghost predicate AnswersInOrder(s: Cluster, forwarded: seq<TaskKey>, reported: seq<TaskKey>, w: WorkerId) {
    if w < |s.workers| then forwarded + DoneKeys(s.workers[w].outbox) + s.workers[w].finished == reported
    else forwarded == [] && reported == []
  }

  lemma ReceiptInOrder(drain: Drain, s: Cluster, w: WorkerId, forwarded: seq<TaskKey>, reported: seq<TaskKey>)
    requires AnswersInOrder(s, forwarded, reported, w) && WorkersFit(s.broker, s.workers) && w < |s.workers| && s.workers[w].outbox != []
    ensures var s' := NextFromWorker(drain, s, w); AnswersInOrder(s', forwarded + ForwardedNow(s.broker, s'.broker), reported, w)
  {
    var s', x := NextFromWorker(drain, s, w), s.workers[w];
    assert WorkerFits(s.broker.free, s.broker.published, x, w);
    match x.outbox[0] {
      case CoreCount(_) => assert ForwardedNow(s.broker, s'.broker) == [] && DoneKeys(x.outbox) == [] + DoneKeys(x.outbox[1..]);
      case TaskDone(_, k) =>
        assert s'.broker.replied == s.broker.replied + [k];
        assert DoneKeys(x.outbox) == [k] + DoneKeys(x.outbox[1..]);
        Regrouped(forwarded, [k], DoneKeys(x.outbox[1..]), x.finished);
    }
  }

  lemma Regrouped(a: seq<TaskKey>, b: seq<TaskKey>, c: seq<TaskKey>, d: seq<TaskKey>)
    ensures a + (b + c) + d == a + b + c + d && a + [] == a && [] + a == a
  {
  }

  lemma OutputInOrder(s: Cluster, w: WorkerId, forwarded: seq<TaskKey>, reported: seq<TaskKey>)
    requires AnswersInOrder(s, forwarded, reported, w) && w < |s.workers| && s.workers[w].finished != []
    ensures AnswersInOrder(WithWorker(s, w, CheckOutput(w, s.workers[w])), forwarded, reported, w)
  {
    var x := s.workers[w];
    DoneKeysGrow(x.outbox, TaskDone(w, x.finished[0]));
    assert x.finished == [x.finished[0]] + x.finished[1..];
    assert forwarded + (DoneKeys(x.outbox) + [x.finished[0]]) + x.finished[1..] == forwarded + DoneKeys(x.outbox) + x.finished;
  }

  lemma ReportInOrder(s: Cluster, w: WorkerId, i: nat, forwarded: seq<TaskKey>, reported: seq<TaskKey>)
    requires AnswersInOrder(s, forwarded, reported, w) && HasThread(s, w, i) && s.workers[w].threads[i].Reporting?
    ensures AnswersInOrder(WithWorker(s, w, Report(s.workers[w], i)), forwarded, reported + ReportedNow(s, w, i), w)
  {
    var x := s.workers[w];
    assert forwarded + DoneKeys(x.outbox) + (x.finished + ReportedNow(s, w, i)) == forwarded + DoneKeys(x.outbox) + x.finished + ReportedNow(s, w, i);
  }

  lemma OthersLeaveAnswers(drain: Drain, world: World, s: Cluster, a: Action, w: WorkerId)
    requires Enabled(world, s, a) && !a.Join? && !((a.FromWorker? || a.Output? || a.Respond?) && a.w == w)
    ensures var s' := Next(drain, world, s, a);
            && |s'.workers| == |s.workers|
            && (w < |s.workers| ==> s'.workers[w].outbox == s.workers[w].outbox && s'.workers[w].finished == s.workers[w].finished)
  {
    if ByManager(a) {
      ManagerStepFrame(drain, world, s, a);
    }
  }

  lemma StepKeepsAnswers(drain: Drain, world: World, s: Cluster, a: Action, forwarded: seq<TaskKey>, reported: seq<TaskKey>, w: WorkerId)
    requires AnswersInOrder(s, forwarded, reported, w) && WorkersFit(s.broker, s.workers) && Enabled(world, s, a)
    ensures var s' := Next(drain, world, s, a);
            AnswersInOrder(s',
                           forwarded + (if a == FromWorker(w) then ForwardedNow(s.broker, s'.broker) else []),
                           reported + (if a.Respond? && a.w == w then ReportedNow(s, w, a.i) else []), w)
  {
    Regrouped(forwarded, [], [], []);
    Regrouped(reported, [], [], []);
    if a == FromWorker(w) {
      ReceiptInOrder(drain, s, w, forwarded, reported);
    } else if a == Output(w) {
      OutputInOrder(s, w, forwarded, reported);
    } else if a.Respond? && a.w == w {
      ReportInOrder(s, w, a.i, forwarded, reported);
    } else if !a.Join? {
      OthersLeaveAnswers(drain, world, s, a, w);
    } else if w == |s.workers| {
      assert DoneKeys([CoreCount(AckCount(a.cores))]) == [];
    }
  }

  lemma {:induction false} RunAnswersInOrder(drain: Drain, world: World, run: seq<Action>, s: Cluster, w: WorkerId)
    requires Run(drain, world, run) == Some(s)
    ensures AnswersInOrder(s, Forwarded(drain, world, run, w), Reported(drain, world, run, w), w)
    decreases |run|
  {
    if run != [] {
      var front, a := run[..|run| - 1], run[|run| - 1];
      var s1 := Run(drain, world, front).value;
      RunAnswersInOrder(drain, world, front, s1, w);
      RunFits(drain, world, front);
      StepKeepsAnswers(drain, world, s1, a, Forwarded(drain, world, front, w), Reported(drain, world, front, w), w);
    }
  }

  /** The answers of a worker reach the manager's stream in the order in which its threads reported them;
      those not yet there follow in its outbox, and then in its queue of finished tasks. */
  lemma AnswersLeaveInOrder(drain: Drain, world: World, run: seq<Action>, s: Cluster, w: WorkerId)
    requires Run(drain, world, run) == Some(s) && w < |s.workers|
    ensures Forwarded(drain, world, run, w) + DoneKeys(s.workers[w].outbox) + s.workers[w].finished == Reported(drain, world, run, w)
  {
    RunAnswersInOrder(drain, world, run, s, w);
  }
}
