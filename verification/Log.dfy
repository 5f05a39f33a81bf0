/** The history of replies: every operation of every problem is answered at most once, and a problem
    that is over has had each answered exactly once.
 */
module Log {
  import opened Expression
  import opened ValueNumbering
  import opened Dispatch
  import opened Frontier
  import opened Pipeline
  import opened Cluster
  import opened Desk

  ghost predicate WasCompleted(clients: seq<Client>, problems: map<ProblemId, CalculationData>, k: TaskKey) {
    && k.problem < |clients|
    && IsOperation(clients[k.problem].dec.graph, k.task)
    && (clients[k.problem].frame.Waiting? ==> k.problem in problems && k.task in Done(problems[k.problem]))
  }

  /** received lists the keys of the replies processed so far. */
  ghost predicate LogGood(clients: seq<Client>, problems: map<ProblemId, CalculationData>, received: seq<TaskKey>) {
    && Distinct(received)
    && (forall k {:trigger k in received} {:trigger WasCompleted(clients, problems, k)} :: k in received <==> WasCompleted(clients, problems, k))
  }

  lemma PushLog(d: Desk, c: Client, received: seq<TaskKey>)
    requires LogGood(d.clients, d.problems, received)
    requires ClientPlanned(c) && c.frame == Waiting(false)
    requires forall p :: p in d.problems ==> p < |d.clients|
    ensures LogGood(Pushed(d, c).clients, Pushed(d, c).problems, received)
  {
    var p, d' := |d.clients|, Pushed(d, c);
    forall k: TaskKey
      ensures k in received <==> WasCompleted(d'.clients, d'.problems, k)
    {
      assert k in received <==> WasCompleted(d.clients, d.problems, k);
    }
  }

  lemma SendLog(world: World, d: Desk, live: set<TaskKey>, ks: seq<TaskKey>, received: seq<TaskKey>)
    requires LogGood(d.clients, d.problems, received)
    requires ClientsGood(world, d.clients, d.problems, live) && IsPass(d.problems, ks)
    ensures LogGood(d.clients, AfterSendAll(d.problems), received)
  {
    SendClients(world, d, live, ks);
    var problems' := AfterSendAll(d.problems);
    forall k: TaskKey
      ensures k in received <==> WasCompleted(d.clients, problems', k)
    {
      assert k in received <==> WasCompleted(d.clients, d.problems, k);
    }
  }

  lemma ReceiveLog(world: World, d: Desk, live: set<TaskKey>, k: TaskKey, received: seq<TaskKey>)
    requires LogGood(d.clients, d.problems, received)
    requires ClientsGood(world, d.clients, d.problems, live) && k in live
    requires IsOperation(d.clients[k.problem].dec.graph, k.task)
    ensures k.problem in d.problems
    ensures LogGood(AfterReceipt(d, k).clients, AfterReceipt(d, k).problems, received + [k])
  {
    var p := k.problem;
    assert TaskKey(p, k.task) == k;
    assert ClientGood(world, d.clients[p], p, d.problems, live);
    ReceiptGood(world, d.clients[p], p, d.problems, live, k.task);
    var d' := AfterReceipt(d, k);
    forall q: TaskKey
      ensures q in received + [k] <==> WasCompleted(d'.clients, d'.problems, q)
    {
      assert q in received <==> WasCompleted(d.clients, d.problems, q);
      if q.problem < |d.clients| {
        assert d'.clients[q.problem].frame.Waiting? == d.clients[q.problem].frame.Waiting?;
        assert d'.clients[q.problem].dec == d.clients[q.problem].dec;
      }
    }
    assert !WasCompleted(d.clients, d.problems, k);
  }

  lemma ClearLog(world: World, d: Desk, live: set<TaskKey>, p: ProblemId, received: seq<TaskKey>)
    requires LogGood(d.clients, d.problems, received)
    requires ClientsGood(world, d.clients, d.problems, live) && p < |d.clients| && d.clients[p].frame == Waiting(true)
    ensures LogGood(d.clients[p := d.clients[p].(frame := Cleared)], d.problems - {p}, received)
  {
    var clients', problems' := d.clients[p := d.clients[p].(frame := Cleared)], d.problems - {p};
    assert ClientGood(world, d.clients[p], p, d.problems, live);
    ComputedIsOver(world, d.clients[p], p, d.problems, live);
    forall k: TaskKey
      ensures k in received <==> WasCompleted(clients', problems', k)
    {
      assert k in received <==> WasCompleted(d.clients, d.problems, k);
    }
  }

  lemma FrameLog(d: Desk, p: ProblemId, frame: Frame, received: seq<TaskKey>)
    requires LogGood(d.clients, d.problems, received)
    requires p < |d.clients| && !d.clients[p].frame.Waiting? && !frame.Waiting?
    ensures LogGood(d.clients[p := d.clients[p].(frame := frame)], d.problems, received)
  {
    var clients' := d.clients[p := d.clients[p].(frame := frame)];
    forall k: TaskKey
      ensures k in received <==> WasCompleted(clients', d.problems, k)
    {
      assert k in received <==> WasCompleted(d.clients, d.problems, k);
    }
  }
}
