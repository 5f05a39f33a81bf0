/** In which runs of the composed system requests reach the workers in the order they were sent.
 */
module Liveness {
  import opened Domain
  import opened Expression
  import opened Broker
  import opened Cluster
  import opened Safety

  // ---------- order at the broker ----------

  /** No free core while a task waits, and requests published and queued in the order sent. */
  ghost predicate Orderly(s: Cluster) {
    s.taken <= |s.sent| && NeverIdle(s.broker) && InOrder(s.broker, s.sent[..s.taken])
  }

  /** A worker registers only while nothing is queued. */
  ghost predicate PoliteAction(s: Cluster, a: Action) {
    a.FromWorker? && a.w < |s.workers| && s.workers[a.w].outbox != [] && s.workers[a.w].outbox[0].CoreCount? ==> s.broker.queue == []
  }

  lemma OthersLeaveBroker(world: World, s: Cluster, a: Action)
    requires Enabled(world, s, a) && !a.FromManager? && !a.FromWorker? && !a.Send?
    ensures var s' := Next(Fifo, world, s, a);
            s'.broker == s.broker && s'.sent == s.sent && s'.taken == s.taken
  {
    if ByWorker(a) {
      WorkerStepFrame(Fifo, world, s, a);
    } else if ByManager(a) {
      ManagerStepFrame(Fifo, world, s, a);
    }
  }

  lemma StepKeepsOrderly(world: World, s: Cluster, a: Action)
    requires Orderly(s) && Enabled(world, s, a) && PoliteAction(s, a)
    ensures Orderly(Next(Fifo, world, s, a))
  {
    match a {
      case FromManager(choice) => FromManagerKeepsOrderly(s, choice);
      case FromWorker(w) => FromWorkerKeepsOrderly(s, w);
      case Send(_, tasks) => assert (s.sent + tasks)[..s.taken] == s.sent[..s.taken];
      case _ => OthersLeaveBroker(world, s, a);
    }
  }

  lemma FromManagerKeepsOrderly(s: Cluster, choice: Option<WorkerId>)
    requires Orderly(s) && s.taken < |s.sent| && ValidChoice(s.broker, choice)
    ensures Orderly(s.(broker := Assign(s.broker, s.sent[s.taken], choice), taken := s.taken + 1))
  {
    var e := Receive(s.sent[s.taken], choice);
    HandleKeepsBusy(Fifo, s.broker, e);
    HandleKeepsOrder(s.broker, e, s.sent[..s.taken]);
    assert s.sent[..s.taken + 1] == s.sent[..s.taken] + [s.sent[s.taken]];
  }

  lemma FromWorkerKeepsOrderly(s: Cluster, w: WorkerId)
    requires Orderly(s) && w < |s.workers| && s.workers[w].outbox != [] && PoliteAction(s, FromWorker(w))
    ensures Orderly(NextFromWorker(Fifo, s, w))
  {
    var received := s.sent[..s.taken];
    assert received + [] == received;
    match s.workers[w].outbox[0] {
      case CoreCount(n) =>
        if w !in s.broker.free {
          HandleKeepsBusy(Fifo, s.broker, Register(w, n));
          HandleKeepsOrder(s.broker, Register(w, n), received);
        }
      case TaskDone(id, k) =>
        if id in s.broker.free {
          HandleKeepsBusy(Fifo, s.broker, WorkerReply(id, k));
          HandleKeepsOrder(s.broker, WorkerReply(id, k), received);
        }
    }
  }

  /** Every registration of the run happens while the queue is empty. */
  ghost predicate PoliteRun(drain: Drain, world: World, run: seq<Action>) {
    run == [] ||
    var front, a := run[..|run| - 1], run[|run| - 1];
    PoliteRun(drain, world, front) && (Run(drain, world, front).Some? ==> PoliteAction(Run(drain, world, front).value, a))
  }

  /** In every such run requests reach the workers in the order the dispatcher sent them, none lost
      and none doubled, and none waits at the broker while a core is free. */
  lemma {:induction false} PoliteRunIsOrderly(drain: Drain, world: World, run: seq<Action>, s: Cluster)
    requires PoliteRun(drain, world, run) && Reached(drain, world, run, s)
    ensures Orderly(s)
    decreases |run|
  {
    if run != [] {
      var front, a := run[..|run| - 1], run[|run| - 1];
      var s1 := Run(drain, world, front).value;
      PoliteRunIsOrderly(drain, world, front, s1);
      StepKeepsOrderly(world, s1, a);
      HarmlessDrainIsFifo(drain, world, s1, a);
    }
  }
}
