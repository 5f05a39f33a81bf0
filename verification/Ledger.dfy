/** The manager's books, in every run of either drain: each problem's cached frontier is the one
    recomputed from its statuses, each operation is requested at most once, and a problem is in the
    dispatcher's maps exactly while its client waits.
 */
module Ledger {
  import opened Domain
  import opened Expression
  import opened ValueNumbering
  import opened Sharing
  import opened Decomposition
  import opened Dispatch
  import opened Frontier
  import opened Broker
  import opened Places
  import opened Pipeline
  import opened Cluster
  import opened Desk
  import opened Soundness

  ghost predicate WasSent(clients: seq<Client>, problems: map<ProblemId, CalculationData>, k: TaskKey) {
    && k.problem < |clients|
    && IsOperation(clients[k.problem].dec.graph, k.task)
    && (clients[k.problem].frame.Waiting? ==> k.problem in problems && k.task in problems[k.problem].status)
  }

  /** sent lists the keys of all requests. */
  ghost predicate SentGood(clients: seq<Client>, problems: map<ProblemId, CalculationData>, sent: seq<TaskKey>) {
    && Distinct(sent)
    && (forall k {:trigger k in sent} {:trigger WasSent(clients, problems, k)} :: k in sent <==> WasSent(clients, problems, k))
  }

  ghost predicate ClientManaged(c: Client, p: ProblemId, problems: map<ProblemId, CalculationData>) {
    && ClientPlanned(c)
    && (c.frame.Waiting? <==> p in problems)
    && (p in problems ==> problems[p].dec == c.dec && Agrees(problems[p]) && (c.frame == Waiting(true) <==> RootDone(problems[p])))
    && (!c.frame.Waiting? ==> !IsVariable(GetType(c.ast)))
  }

  ghost predicate ClientsManaged(clients: seq<Client>, problems: map<ProblemId, CalculationData>) {
    && (forall p {:trigger ClientManaged(clients[p], p, problems)} :: 0 <= p < |clients| ==> ClientManaged(clients[p], p, problems))
    && (forall p :: p in problems ==> p < |clients|)
  }

  ghost predicate Managed(s: Cluster) {
    && s.sync == s.problems.Keys
    && ClientsManaged(s.clients, s.problems)
    && SentGood(s.clients, s.problems, Keys(s.sent))
  }

  // ---------- a problem arrives ----------

  lemma StartManaged(c: Client, p: ProblemId)
    requires ClientPlanned(c) && c.frame == Waiting(false)
    ensures ClientManaged(c, p, map[p := Dispatch.Start(c.dec)])
  {
    StartAgrees(c.dec);
  }

  lemma PushClientsManaged(clients: seq<Client>, problems: map<ProblemId, CalculationData>, c: Client)
    requires ClientsManaged(clients, problems) && ClientPlanned(c) && c.frame == Waiting(false)
    ensures ClientsManaged(clients + [c], problems[|clients| := Dispatch.Start(c.dec)])
  {
    var p := |clients|;
    var clients', problems' := clients + [c], problems[p := Dispatch.Start(c.dec)];
    StartManaged(c, p);
    forall q | 0 <= q < |clients'|
      ensures ClientManaged(clients'[q], q, problems')
    {
      if q < p {
        assert ClientManaged(clients[q], q, problems);
      }
    }
  }

  lemma PushSentGood(clients: seq<Client>, problems: map<ProblemId, CalculationData>, sent: seq<TaskKey>, c: Client)
    requires SentGood(clients, problems, sent) && ClientPlanned(c) && c.frame == Waiting(false)
    ensures SentGood(clients + [c], problems[|clients| := Dispatch.Start(c.dec)], sent)
  {
    var clients', problems' := clients + [c], problems[|clients| := Dispatch.Start(c.dec)];
    forall k: TaskKey
      ensures k in sent <==> WasSent(clients', problems', k)
    {
      assert k in sent <==> WasSent(clients, problems, k);
    }
  }

  // ---------- a pass ----------

  lemma SendClientsManaged(clients: seq<Client>, problems: map<ProblemId, CalculationData>)
    requires ClientsManaged(clients, problems)
    ensures ClientsManaged(clients, AfterSendAll(problems))
  {
    forall p | 0 <= p < |clients|
      ensures ClientManaged(clients[p], p, AfterSendAll(problems))
    {
      assert ClientManaged(clients[p], p, problems);
      if p in problems {
        SendAgrees(problems[p]);
        SendMovesFrontier(problems[p]);
        SentDone(problems[p]);
      }
    }
  }

  lemma SentDone(c: CalculationData)
    requires Agrees(c)
    ensures Done(AfterSend(c)) == Done(c)
  {
  }

  lemma SendSentGood(clients: seq<Client>, problems: map<ProblemId, CalculationData>, sent: seq<TaskKey>, ks: seq<TaskKey>)
    requires SentGood(clients, problems, sent) && ClientsManaged(clients, problems) && IsPass(problems, ks)
    ensures SentGood(clients, AfterSendAll(problems), sent + ks)
  {
    forall k: TaskKey
      ensures k in sent + ks <==> WasSent(clients, AfterSendAll(problems), k)
      ensures k in ks ==> k !in sent
    {
      assert k in sent <==> WasSent(clients, problems, k);
      assert k in ks <==> InFrontier(problems, k);
      if k.problem < |clients| && k.problem in problems {
        assert ClientManaged(clients[k.problem], k.problem, problems);
        FrontierIsNew(problems[k.problem], k.task);
      }
    }
    assert forall i :: 0 <= i < |ks| ==> ks[i] in ks;
    assert forall i :: 0 <= i < |sent| ==> sent[i] in sent;
  }

  lemma RequestKeys(problems: map<ProblemId, CalculationData>, ks: seq<TaskKey>, tasks: seq<Task>)
    requires AreRequests(problems, ks, tasks)
    ensures Keys(tasks) == ks
  {
    forall i | 0 <= i < |ks|
      ensures tasks[i].key == ks[i]
    {
      assert InFrontier(problems, ks[i]) && tasks[i] == RequestOf(problems, ks[i]);
    }
  }

  // ---------- a reply ----------

  function Flagged(clients: seq<Client>, p: ProblemId, last: bool): seq<Client>
    requires p < |clients|
  {
    if last then clients[p := clients[p].(frame := Waiting(true))] else clients
  }

  lemma ReplyClientManaged(c: Client, p: ProblemId, problems: map<ProblemId, CalculationData>, t: TaskId)
    requires ClientManaged(c, p, problems) && p in problems && t in problems[p].status && IsOperation(c.dec.graph, t)
    ensures var c' := if IsLast(problems[p], t) then c.(frame := Waiting(true)) else c;
            ClientManaged(c', p, problems[p := OnReply(problems[p], t)])
  {
    OnReplyAgrees(problems[p], t);
    assert t !in problems[p].names;
  }

  lemma ReplyClientsManaged(clients: seq<Client>, problems: map<ProblemId, CalculationData>, p: ProblemId, t: TaskId)
    requires ClientsManaged(clients, problems) && p in problems && t in problems[p].status && IsOperation(clients[p].dec.graph, t)
    ensures ClientsManaged(Flagged(clients, p, IsLast(problems[p], t)), problems[p := OnReply(problems[p], t)])
  {
    var clients', problems' := Flagged(clients, p, IsLast(problems[p], t)), problems[p := OnReply(problems[p], t)];
    forall q | 0 <= q < |clients'|
      ensures ClientManaged(clients'[q], q, problems')
    {
      assert ClientManaged(clients[q], q, problems);
      if q == p {
        ReplyClientManaged(clients[p], p, problems, t);
      }
    }
  }

  lemma ReplySentGood(clients: seq<Client>, problems: map<ProblemId, CalculationData>, sent: seq<TaskKey>, p: ProblemId, t: TaskId)
    requires SentGood(clients, problems, sent) && p in problems && t in problems[p].status && p < |clients| && clients[p].frame.Waiting?
    ensures SentGood(Flagged(clients, p, IsLast(problems[p], t)), problems[p := OnReply(problems[p], t)], sent)
  {
    var clients', problems' := Flagged(clients, p, IsLast(problems[p], t)), problems[p := OnReply(problems[p], t)];
    forall k: TaskKey
      ensures k in sent <==> WasSent(clients', problems', k)
    {
      assert k in sent <==> WasSent(clients, problems, k);
      if k.problem < |clients| {
        assert clients'[k.problem].frame.Waiting? == clients[k.problem].frame.Waiting?;
        assert clients'[k.problem].dec == clients[k.problem].dec;
      }
    }
  }

  lemma ReplyKeepsManaged(world: World, s: Cluster)
    requires Managed(s) && Sound(world, s) && s.seen < |s.broker.replied|
    ensures Managed(NextReply(s))
  {
    var k := s.broker.replied[s.seen];
    assert Names(Plans(s.clients), k);
    if k.problem in s.problems && k.task in s.problems[k.problem].status {
      assert ClientManaged(s.clients[k.problem], k.problem, s.problems);
      ReplyClientsManaged(s.clients, s.problems, k.problem, k.task);
      ReplySentGood(s.clients, s.problems, Keys(s.sent), k.problem, k.task);
      ReplyIs(s);
    }
  }

  lemma ReplyIs(s: Cluster)
    requires Managed(s) && s.seen < |s.broker.replied|
    requires var k := s.broker.replied[s.seen]; k.problem in s.problems && k.task in s.problems[k.problem].status
    ensures var k := s.broker.replied[s.seen];
            NextReply(s) == s.(seen := s.seen + 1, problems := s.problems[k.problem := OnReply(s.problems[k.problem], k.task)],
                               clients := Flagged(s.clients, k.problem, IsLast(s.problems[k.problem], k.task)))
  {
    var p := s.broker.replied[s.seen].problem;
    assert ClientManaged(s.clients[p], p, s.problems);
  }

  // ---------- a client goes on ----------

  lemma ClearKeepsManaged(s: Cluster, p: ProblemId)
    requires Managed(s) && p < |s.clients| && s.clients[p].frame == Waiting(true)
    ensures Managed(WithFrame(s, p, Cleared).(problems := s.problems - {p}, sync := s.sync - {p}))
  {
    var clients', problems' := WithFrame(s, p, Cleared).clients, s.problems - {p};
    assert ClientManaged(s.clients[p], p, s.problems);
    RootFinishesLast(s.problems[p]);
    forall q | 0 <= q < |clients'|
      ensures ClientManaged(clients'[q], q, problems')
    {
      assert ClientManaged(s.clients[q], q, s.problems);
    }
    forall k: TaskKey
      ensures k in Keys(s.sent) <==> WasSent(clients', problems', k)
    {
      assert k in Keys(s.sent) <==> WasSent(s.clients, s.problems, k);
    }
  }

  lemma FrameKeepsManaged(s: Cluster, p: ProblemId, frame: Frame)
    requires Managed(s) && p < |s.clients| && !s.clients[p].frame.Waiting? && !frame.Waiting?
    ensures Managed(WithFrame(s, p, frame))
  {
    var clients' := WithFrame(s, p, frame).clients;
    forall q | 0 <= q < |clients'|
      ensures ClientManaged(clients'[q], q, s.problems)
    {
      assert ClientManaged(s.clients[q], q, s.problems);
    }
    forall k: TaskKey
      ensures k in Keys(s.sent) <==> WasSent(clients', s.problems, k)
    {
      assert k in Keys(s.sent) <==> WasSent(s.clients, s.problems, k);
    }
  }

  lemma ClientStepKeepsManaged(drain: Drain, world: World, s: Cluster, a: Action)
    requires Managed(s) && Enabled(world, s, a) && (a.Clear? || a.Fetch? || a.Finish?)
    ensures Managed(Next(drain, world, s, a))
  {
    match a {
      case Clear(p) => ClearKeepsManaged(s, p);
      case Fetch(p) =>
        var tasks := s.clients[p].dec.tasks;
        if tasks != [] && TaskKey(p, tasks[|tasks| - 1]) in s.store {
          FrameKeepsManaged(s, p, Fetched(s.store[TaskKey(p, tasks[|tasks| - 1])]));
        }
      case Finish(p) => FrameKeepsManaged(s, p, Returned(s.clients[p].frame.v));
    }
  }

  // ---------- every run ----------

  lemma PushKeepsManaged(drain: Drain, world: World, s: Cluster, ast: Expr, order: seq<TaskId>)
    requires Managed(s) && Enabled(world, s, Push(ast, order))
    ensures Managed(Next(drain, world, s, Push(ast, order)))
  {
    var c := Client(ast, Decompositor(DagOf(ast), order), Waiting(false));
    AnyOrderIsPlanned(ast, order);
    PushClientsManaged(s.clients, s.problems, c);
    PushSentGood(s.clients, s.problems, Keys(s.sent), c);
  }

  lemma SendKeepsManaged(s: Cluster, ks: seq<TaskKey>, tasks: seq<Task>)
    requires Managed(s) && IsPass(s.problems, ks) && AreRequests(s.problems, ks, tasks)
    ensures Managed(s.(problems := AfterSendAll(s.problems), sent := s.sent + tasks))
  {
    SendClientsManaged(s.clients, s.problems);
    SendSentGood(s.clients, s.problems, Keys(s.sent), ks);
    RequestKeys(s.problems, ks, tasks);
    assert Keys(s.sent + tasks) == Keys(s.sent) + ks;
  }

  lemma OthersLeaveBooks(drain: Drain, world: World, s: Cluster, a: Action)
    requires Enabled(world, s, a) && !ByManager(a)
    ensures var s' := Next(drain, world, s, a);
            s'.problems == s.problems && s'.sync == s.sync && s'.clients == s.clients && s'.sent == s.sent
  {
    if ByWorker(a) {
      WorkerStepFrame(drain, world, s, a);
    } else if ByBroker(a) {
      BrokerStepFrame(drain, world, s, a);
    }
  }

  lemma StepKeepsManaged(drain: Drain, world: World, s: Cluster, a: Action)
    requires Managed(s) && Sound(world, s) && Enabled(world, s, a)
    ensures Managed(Next(drain, world, s, a))
  {
    if a.Push? {
      PushKeepsManaged(drain, world, s, a.ast, a.order);
    } else if a.Send? {
      SendKeepsManaged(s, a.ks, a.tasks);
    } else if a.Reply? {
      ReplyKeepsManaged(world, s);
    } else if ByManager(a) {
      ClientStepKeepsManaged(drain, world, s, a);
    } else {
      OthersLeaveBooks(drain, world, s, a);
    }
  }

  lemma {:induction false} RunIsManaged(drain: Drain, world: World, run: seq<Action>)
    requires Run(drain, world, run).Some?
    ensures Managed(Run(drain, world, run).value)
  {
    if run != [] {
      var front, a := run[..|run| - 1], run[|run| - 1];
      RunIsManaged(drain, world, front);
      RunIsSound(drain, world, front);
      StepKeepsManaged(drain, world, Run(drain, world, front).value, a);
    }
  }

  // ---------- what it means ----------

  /** The cached frontier of every problem holds exactly the tasks that have not been started and whose
      operands have all been completed, each with its operands. */
  lemma FrontierCacheAgrees(drain: Drain, world: World, run: seq<Action>, s: Cluster, p: ProblemId)
    requires Run(drain, world, run) == Some(s) && p in s.problems
    ensures var c := s.problems[p];
            && |c.dec.graph.edges| == |c.dec.graph.vertices|
            && (forall t: TaskId :: t in c.computable <==>
                  && t < |c.dec.graph.vertices| && t !in c.status
                  && forall k :: 0 <= k < |c.dec.graph.edges[t]| ==>
                       c.dec.graph.edges[t][k] in c.status && c.status[c.dec.graph.edges[t][k]] == Completed)
            && forall t :: t in c.computable ==> c.computable[t] == c.dec.graph.edges[t]
  {
    RunIsManaged(drain, world, run);
    assert ClientManaged(s.clients[p], p, s.problems);
    AgreedFrontier(s.problems[p]);
  }

  /** Exactly-once dispatch: no task is requested twice, only operations are requested, and once a
      client has stopped waiting every operation of its problem has been requested. */
  lemma DispatchedExactlyOnce(drain: Drain, world: World, run: seq<Action>, s: Cluster)
    requires Run(drain, world, run) == Some(s)
    ensures Distinct(Keys(s.sent))
    ensures forall k :: k in Keys(s.sent) ==> k.problem < |s.clients| && IsOperation(s.clients[k.problem].dec.graph, k.task)
    ensures forall k: TaskKey :: k.problem < |s.clients| && !s.clients[k.problem].frame.Waiting? ==>
              (k in Keys(s.sent) <==> IsOperation(s.clients[k.problem].dec.graph, k.task))
  {
    RunIsManaged(drain, world, run);
    forall k: TaskKey
      ensures k in Keys(s.sent) <==> WasSent(s.clients, s.problems, k)
    {
    }
  }

  /** A problem whose root is a variable is never answered. */
  lemma VariableNeverReturns(drain: Drain, world: World, run: seq<Action>, s: Cluster, p: ProblemId)
    requires Run(drain, world, run) == Some(s) && p < |s.clients| && IsVariable(GetType(s.clients[p].ast))
    ensures s.clients[p].frame == Waiting(false)
  {
    RunIsManaged(drain, world, run);
    assert ClientManaged(s.clients[p], p, s.problems);
  }
}
