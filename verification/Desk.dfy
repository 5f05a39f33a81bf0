/** What every step keeps on the manager's side: a waiting client's problem agrees with its cache,
    exactly its processing tasks are under way, and the store holds exactly the results that are
    due, each with the value of its subtree.
 */
module Desk {
  import opened Domain
  import opened Expression
  import opened ValueNumbering
  import opened Sharing
  import opened Decomposition
  import opened Dispatch
  import opened Frontier
  import opened Worker
  import opened Pipeline
  import opened Cluster

  /** The manager's part of the state, with the store. */
  datatype Desk = Desk(problems: map<ProblemId, CalculationData>, sync: set<ProblemId>, clients: seq<Client>, store: Store)

  ghost function Plans(clients: seq<Client>): (plans: seq<Graph>)
    ensures |plans| == |clients| && forall p :: 0 <= p < |clients| ==> plans[p] == clients[p].dec.graph
  {
    seq(|clients|, p requires 0 <= p < |clients| => clients[p].dec.graph)
  }

  ghost predicate ClientPlanned(c: Client) {
    && PlanFor(c.dec.graph, c.ast)
    && !HasConstant(c.dec.graph)
    && c.dec.tasks != [] && c.dec.tasks[|c.dec.tasks| - 1] == Root(c.dec.graph)
  }

  lemma AnyOrderIsPlanned(ast: Expr, order: seq<TaskId>)
    requires NoConstants(ast) && OperandsFirst(DagOf(ast), order)
    ensures ClientPlanned(Client(ast, Decompositor(DagOf(ast), order), Waiting(false)))
  {
    GraphIsPlan(ast);
    AnyOrderEndsAtRoot(DagOf(ast), Records(ast), ast, order);
  }

  lemma GraphIsPlan(ast: Expr)
    ensures PlanFor(DagOf(ast), ast)
  {
    DagIsPlan(DagOf(ast), Records(ast), ast);
  }

  ghost predicate RootDone(c: CalculationData)
    requires c.dec.graph.vertices != []
  {
    Root(c.dec.graph) in Done(c) && Root(c.dec.graph) !in c.names
  }

  /** The tasks of problem p under way are its processing tasks. */
  ghost predicate LiveAreRunning(p: ProblemId, c: CalculationData, live: set<TaskKey>) {
    forall t :: TaskKey(p, t) in live <==> t in Running(c)
  }

  ghost predicate NoneLive(p: ProblemId, live: set<TaskKey>) {
    forall k :: k in live ==> k.problem != p
  }

  ghost predicate WaitingGood(c: Client, p: ProblemId, isComputed: bool, problems: map<ProblemId, CalculationData>, live: set<TaskKey>) {
    && p in problems && problems[p].dec == c.dec && Agrees(problems[p])
    && (isComputed <==> RootDone(problems[p]))
    && LiveAreRunning(p, problems[p], live)
  }

  ghost predicate Answers(world: World, c: Client, frame: Frame) {
    match frame
    case Fetched(v) => Eval(c.ast, world) == Some(v)
    case Returned(v) => Eval(c.ast, world) == Some(v)
    case _ => true
  }

  ghost predicate ClientGood(world: World, c: Client, p: ProblemId, problems: map<ProblemId, CalculationData>, live: set<TaskKey>) {
    && ClientPlanned(c)
    && (c.frame.Waiting? ==> WaitingGood(c, p, c.frame.isComputed, problems, live))
    && (!c.frame.Waiting? ==> p !in problems && NoneLive(p, live) && !IsVariable(GetType(c.ast)) && Answers(world, c, c.frame))
  }

  ghost predicate ClientsGood(world: World, clients: seq<Client>, problems: map<ProblemId, CalculationData>, live: set<TaskKey>) {
    && (forall p {:trigger ClientGood(world, clients[p], p, problems, live)} ::
          0 <= p < |clients| ==> ClientGood(world, clients[p], p, problems, live))
    && (forall p :: p in problems ==> p < |clients|)
    && (forall k :: k in live ==> k.problem < |clients|)
  }

  /** The result of task t of a client is due in the store: computed, and not yet cleared. */
  ghost predicate IsDue(c: Client, p: ProblemId, problems: map<ProblemId, CalculationData>, past: set<TaskKey>, t: TaskId) {
    && IsOperation(c.dec.graph, t)
    && (c.frame.Waiting? ==> TaskKey(p, t) in past || (p in problems && t in Done(problems[p])))
    && !c.frame.Returned?
  }

  ghost predicate HasResult(clients: seq<Client>, problems: map<ProblemId, CalculationData>, past: set<TaskKey>, k: TaskKey) {
    k.problem < |clients| && IsDue(clients[k.problem], k.problem, problems, past, k.task)
  }

  ghost predicate StoreGood(world: World, d: Desk, past: set<TaskKey>) {
    && (forall k {:trigger k in d.store} {:trigger HasResult(d.clients, d.problems, past, k)} ::
          k in d.store <==> HasResult(d.clients, d.problems, past, k))
    && (forall k :: k in d.store ==> ValueOf(world, Plans(d.clients), k) == Some(d.store[k]))
  }

  ghost predicate DeskGood(world: World, d: Desk, live: set<TaskKey>, past: set<TaskKey>) {
    && d.sync == d.problems.Keys
    && past <= live
    && ClientsGood(world, d.clients, d.problems, live)
    && StoreGood(world, d, past)
  }

  // ---------- what the invariant says about tasks under way ----------

  /** A frontier task is an operation that has not been started. */
  lemma FrontierIsNew(c: CalculationData, t: TaskId)
    requires Agrees(c)
    ensures t in c.computable ==> t !in c.status && IsOperation(c.dec.graph, t)
    ensures t in AfterSend(c).status <==> t in c.status || t in c.computable
  {
  }

  /** A task under way belongs to a waiting client and is processing. */
  lemma LiveTask(world: World, d: Desk, live: set<TaskKey>, past: set<TaskKey>, k: TaskKey)
    requires DeskGood(world, d, live, past) && k in live
    ensures k.problem < |d.clients| && k.problem in d.problems && Agrees(d.problems[k.problem])
    ensures d.clients[k.problem].frame.Waiting? && d.problems[k.problem].dec == d.clients[k.problem].dec
    ensures k.task in d.problems[k.problem].status && d.problems[k.problem].status[k.task] == Processing
  {
    assert ClientGood(world, d.clients[k.problem], k.problem, d.problems, live);
    assert TaskKey(k.problem, k.task) == k;
  }

  /** Read after write: every operand of a task under way can be read, with its subtree's value. */
  lemma OperandAvailable(world: World, d: Desk, live: set<TaskKey>, past: set<TaskKey>, task: Task, j: nat)
    requires DeskGood(world, d, live, past) && task.key in live
    requires Genuine(Plans(d.clients), task) && j < |task.operands|
    requires task.operands[j].StaticOperand? ==> task.operands[j].id in world.vars
    ensures ReadOperand(world, d.store, task.operands[j]).Some?
    ensures OperandMeans(world, Plans(d.clients), task.operands[j], ReadOperand(world, d.store, task.operands[j]).value)
  {
    LiveTask(world, d, live, past, task.key);
    var p, t := task.key.problem, task.key.task;
    var g, c := d.clients[p].dec.graph, d.problems[p];
    if task.operands[j].DynOperand? {
      var u := g.edges[t][j];
      assert Ready(g, Done(c), t);
      assert u in Done(c) && u !in c.names;
      assert AllBelow(g.edges[t], t);
      assert !IsVariable(g.vertices[u].etype);
      assert HasResult(d.clients, d.problems, past, TaskKey(p, u));
    }
  }

  /** A task not yet past the store has no record there. */
  lemma NotYetStored(world: World, d: Desk, live: set<TaskKey>, past: set<TaskKey>, k: TaskKey)
    requires DeskGood(world, d, live, past) && k in live && k !in past
    ensures k !in d.store
  {
    LiveTask(world, d, live, past, k);
    assert !HasResult(d.clients, d.problems, past, k);
  }

  /** A task whose operands were all read right computes the value of its subtree. */
  lemma ComputesValue(world: World, plans: seq<Graph>, task: Task, got: seq<Value>)
    requires Genuine(plans, task) && WellNumbered(plans[task.key.problem]) && !HasConstant(plans[task.key.problem])
    requires GotRight(world, plans, task, got) && |got| == |task.operands|
    ensures ValueOf(world, plans, task.key) == world.apply(task.etype, got)
  {
    var g, t := plans[task.key.problem], task.key.task;
    var ts := g.edges[t];
    assert AllBelow(ts, t);
    var values := seq(|ts|, k requires 0 <= k < |ts| => EvalVertex(g, ts[k], world));
    forall k | 0 <= k < |ts|
      ensures values[k] == Some(got[k])
    {
      assert OperandMeans(world, plans, task.operands[k], got[k]);
    }
    assert Collect(values).value == got;
  }

  // ---------- steps ----------

  lemma PlansSame(clients: seq<Client>, p: ProblemId, frame: Frame)
    requires p < |clients|
    ensures Plans(clients[p := clients[p].(frame := frame)]) == Plans(clients)
  {
  }

  /** Only client p and its problem change. */
  lemma OneClientChanges(world: World, clients: seq<Client>, problems: map<ProblemId, CalculationData>, live: set<TaskKey>,
                         p: ProblemId, c: Client, problems': map<ProblemId, CalculationData>, live': set<TaskKey>)
    requires ClientsGood(world, clients, problems, live) && p < |clients|
    requires forall q :: q != p ==> (q in problems' <==> q in problems) && (q in problems ==> problems'[q] == problems[q])
    requires forall k: TaskKey :: k.problem != p ==> (k in live' <==> k in live)
    requires ClientGood(world, c, p, problems', live')
    ensures ClientsGood(world, clients[p := c], problems', live')
  {
    var clients' := clients[p := c];
    forall q | 0 <= q < |clients|
      ensures ClientGood(world, clients'[q], q, problems', live')
    {
      if q != p {
        assert ClientGood(world, clients[q], q, problems, live);
        if clients[q].frame.Waiting? {
          assert forall t :: TaskKey(q, t) in live' <==> TaskKey(q, t) in live;
        }
      }
    }
  }

  /** A new result is stored. */
  lemma StoreResult(world: World, d: Desk, live: set<TaskKey>, past: set<TaskKey>, k: TaskKey, v: Value)
    requires DeskGood(world, d, live, past) && k in live && k !in past
    requires ValueOf(world, Plans(d.clients), k) == Some(v)
    requires IsOperation(d.clients[k.problem].dec.graph, k.task)
    ensures DeskGood(world, d.(store := d.store[k := v]), live, past + {k})
  {
    LiveTask(world, d, live, past, k);
    var d', past' := d.(store := d.store[k := v]), past + {k};
    forall q: TaskKey
      ensures q in d'.store <==> HasResult(d.clients, d.problems, past', q)
    {
      assert q in d.store <==> HasResult(d.clients, d.problems, past, q);
      if q != k && q.problem < |d.clients| {
        assert TaskKey(q.problem, q.task) == q;
      }
    }
  }

  function Pushed(d: Desk, c: Client): Desk {
    Desk(d.problems[|d.clients| := Dispatch.Start(c.dec)], d.sync + {|d.clients|}, d.clients + [c], d.store)
  }

  lemma PushClients(world: World, d: Desk, live: set<TaskKey>, c: Client)
    requires ClientsGood(world, d.clients, d.problems, live)
    requires ClientPlanned(c) && c.frame == Waiting(false)
    ensures ClientsGood(world, Pushed(d, c).clients, Pushed(d, c).problems, live)
  {
    var p, d' := |d.clients|, Pushed(d, c);
    StartGood(c, p, live);
    forall q | 0 <= q < |d'.clients|
      ensures ClientGood(world, d'.clients[q], q, d'.problems, live)
    {
      if q < p {
        assert ClientGood(world, d.clients[q], q, d.problems, live);
      }
    }
  }

  lemma PushStore(world: World, d: Desk, past: set<TaskKey>, c: Client)
    requires StoreGood(world, d, past) && ClientPlanned(c) && c.frame == Waiting(false)
    requires forall k :: k in past ==> k.problem < |d.clients|
    requires forall t :: IsOperation(c.dec.graph, t) ==> t !in Done(Dispatch.Start(c.dec))
    ensures StoreGood(world, Pushed(d, c), past)
  {
    var p, d' := |d.clients|, Pushed(d, c);
    forall k: TaskKey
      ensures k in d'.store <==> HasResult(d'.clients, d'.problems, past, k)
    {
      assert k in d.store <==> HasResult(d.clients, d.problems, past, k);
      if k.problem == p {
        assert TaskKey(p, k.task) == k;
      }
    }
    forall k | k in d.store
      ensures ValueOf(world, Plans(d'.clients), k) == Some(d.store[k])
    {
      assert HasResult(d.clients, d.problems, past, k);
      assert Plans(d'.clients)[k.problem] == Plans(d.clients)[k.problem];
    }
  }

  /** A problem is pushed: its variables are completed and nothing of it is under way. */
  lemma PushDesk(world: World, d: Desk, live: set<TaskKey>, past: set<TaskKey>, c: Client)
    requires DeskGood(world, d, live, past)
    requires ClientPlanned(c) && c.frame == Waiting(false)
    ensures DeskGood(world, Pushed(d, c), live, past)
  {
    StartGood(c, |d.clients|, live);
    PushClients(world, d, live, c);
    PushStore(world, d, past, c);
  }

  lemma StartGood(c: Client, p: ProblemId, live: set<TaskKey>)
    requires ClientPlanned(c) && forall k :: k in live ==> k.problem < p
    ensures var s := Dispatch.Start(c.dec);
            && Agrees(s) && !RootDone(s) && LiveAreRunning(p, s, live)
            && forall t :: IsOperation(c.dec.graph, t) ==> t !in Done(s)
  {
    StartAgrees(c.dec);
  }

  ghost function Joined(live: set<TaskKey>, ks: seq<TaskKey>): set<TaskKey> {
    live + set k | k in ks
  }

  lemma SendClient(world: World, d: Desk, live: set<TaskKey>, ks: seq<TaskKey>, p: ProblemId)
    requires ClientsGood(world, d.clients, d.problems, live) && IsPass(d.problems, ks) && p < |d.clients|
    ensures ClientGood(world, d.clients[p], p, AfterSendAll(d.problems), Joined(live, ks))
    ensures p in d.problems ==> Done(AfterSendAll(d.problems)[p]) == Done(d.problems[p])
    ensures forall t :: TaskKey(p, t) in ks ==> TaskKey(p, t) !in live
  {
    assert ClientGood(world, d.clients[p], p, d.problems, live);
    if p in d.problems {
      SendOne(d.clients[p], p, d.problems, live, ks);
    } else {
      assert forall k :: k in ks ==> InFrontier(d.problems, k);
    }
  }

  lemma SendClients(world: World, d: Desk, live: set<TaskKey>, ks: seq<TaskKey>)
    requires ClientsGood(world, d.clients, d.problems, live) && IsPass(d.problems, ks)
    ensures ClientsGood(world, d.clients, AfterSendAll(d.problems), Joined(live, ks))
    ensures forall p :: p in d.problems ==> Done(AfterSendAll(d.problems)[p]) == Done(d.problems[p])
    ensures forall k :: k in ks ==> k !in live
  {
    forall p | 0 <= p < |d.clients|
      ensures ClientGood(world, d.clients[p], p, AfterSendAll(d.problems), Joined(live, ks))
    {
      SendClient(world, d, live, ks, p);
    }
    forall p | p in d.problems
      ensures Done(AfterSendAll(d.problems)[p]) == Done(d.problems[p])
    {
      SendClient(world, d, live, ks, p);
    }
    forall k | k in ks
      ensures k !in live && k.problem < |d.clients|
    {
      assert InFrontier(d.problems, k);
      SendClient(world, d, live, ks, k.problem);
      assert TaskKey(k.problem, k.task) == k;
    }
  }

  /** One pass of sending: the frontier tasks come under way. */
  lemma SendDesk(world: World, d: Desk, live: set<TaskKey>, past: set<TaskKey>, ks: seq<TaskKey>)
    requires DeskGood(world, d, live, past) && IsPass(d.problems, ks)
    ensures forall k :: k in ks ==> k !in live
    ensures DeskGood(world, d.(problems := AfterSendAll(d.problems)), Joined(live, ks), past)
  {
    SendClients(world, d, live, ks);
    var d' := d.(problems := AfterSendAll(d.problems));
    forall k: TaskKey
      ensures k in d'.store <==> HasResult(d'.clients, d'.problems, past, k)
    {
      assert k in d.store <==> HasResult(d.clients, d.problems, past, k);
    }
  }

  lemma SendOne(c: Client, p: ProblemId, problems: map<ProblemId, CalculationData>, live: set<TaskKey>, ks: seq<TaskKey>)
    requires p in problems && WaitingGood(c, p, c.frame.Waiting? && c.frame.isComputed, problems, live) && IsPass(problems, ks)
    ensures var problems', live' := AfterSendAll(problems), Joined(live, ks);
            && WaitingGood(c, p, c.frame.Waiting? && c.frame.isComputed, problems', live')
            && Done(problems'[p]) == Done(problems[p])
            && forall t :: TaskKey(p, t) in ks ==> TaskKey(p, t) !in live
  {
    var data := problems[p];
    SendAgrees(data);
    SendMovesFrontier(data);
    assert Done(AfterSend(data)) == Done(data);
    forall t
      ensures TaskKey(p, t) in ks <==> t in data.computable
    {
      assert TaskKey(p, t) in ks <==> InFrontier(problems, TaskKey(p, t));
    }
  }

  /** The client and data of a problem after one of its replies. */
  function AfterReceipt(d: Desk, k: TaskKey): Desk
    requires k.problem in d.problems && k.problem < |d.clients|
  {
    var p := k.problem;
    var c := d.clients[p];
    d.(problems := d.problems[p := OnReply(d.problems[p], k.task)],
       clients := if IsLast(d.problems[p], k.task) then d.clients[p := c.(frame := Waiting(true))] else d.clients)
  }

  lemma ReceiptGood(world: World, c: Client, p: ProblemId, problems: map<ProblemId, CalculationData>, live: set<TaskKey>, t: TaskId)
    requires ClientGood(world, c, p, problems, live) && TaskKey(p, t) in live
    ensures c.frame.Waiting? && p in problems && t in problems[p].status && problems[p].status[t] == Processing
    ensures var problems' := problems[p := OnReply(problems[p], t)];
            ClientGood(world, if IsLast(problems[p], t) then c.(frame := Waiting(true)) else c, p, problems', live - {TaskKey(p, t)})
    ensures Done(OnReply(problems[p], t)) == Done(problems[p]) + {t}
  {
    var data := problems[p];
    OnReplyAgrees(data, t);
    var data' := OnReply(data, t);
    assert Running(data') == Running(data) - {t};
    assert Done(data') == Done(data) + {t};
    assert t !in data.names;
  }

  /** The dispatcher processes a reply. */
  lemma ReceiveDesk(world: World, d: Desk, live: set<TaskKey>, past: set<TaskKey>, k: TaskKey)
    requires DeskGood(world, d, live, past) && k in past
    ensures k.problem in d.problems && k.problem < |d.clients| && d.clients[k.problem].frame.Waiting?
    ensures k.task in d.problems[k.problem].status && k.problem in d.sync
    ensures DeskGood(world, AfterReceipt(d, k), live - {k}, past - {k})
  {
    LiveTask(world, d, live, past, k);
    var p, t := k.problem, k.task;
    assert TaskKey(p, t) == k;
    var c := d.clients[p];
    var data := d.problems[p];
    assert ClientGood(world, c, p, d.problems, live);
    ReceiptGood(world, c, p, d.problems, live, t);
    var d' := AfterReceipt(d, k);
    var c' := if IsLast(data, t) then c.(frame := Waiting(true)) else c;
    assert d'.clients == d.clients[p := c'];
    OneClientChanges(world, d.clients, d.problems, live, p, c', d'.problems, live - {k});
    ReceiptKeepsStore(world, d, live, past, k);
  }

  lemma ReceiptKeepsStore(world: World, d: Desk, live: set<TaskKey>, past: set<TaskKey>, k: TaskKey)
    requires StoreGood(world, d, past) && k in past
    requires k.problem in d.problems && k.problem < |d.clients| && d.clients[k.problem].frame.Waiting?
    requires Done(OnReply(d.problems[k.problem], k.task)) == Done(d.problems[k.problem]) + {k.task}
    ensures StoreGood(world, AfterReceipt(d, k), past - {k})
  {
    var d', past' := AfterReceipt(d, k), past - {k};
    assert Plans(d'.clients) == Plans(d.clients);
    forall q: TaskKey
      ensures q in d'.store <==> HasResult(d'.clients, d'.problems, past', q)
    {
      assert q in d.store <==> HasResult(d.clients, d.problems, past, q);
      if q.problem < |d.clients| {
        assert TaskKey(q.problem, q.task) == q;
        assert d'.clients[q.problem].frame.Waiting? == d.clients[q.problem].frame.Waiting?;
      }
    }
  }

  /** A computed client has no task under way and every operation completed. */
  lemma ComputedIsOver(world: World, c: Client, p: ProblemId, problems: map<ProblemId, CalculationData>, live: set<TaskKey>)
    requires ClientGood(world, c, p, problems, live) && c.frame == Waiting(true)
    ensures NoneLive(p, live) && p in problems && !IsVariable(GetType(c.ast))
    ensures forall t :: IsOperation(c.dec.graph, t) ==> t in Done(problems[p])
  {
    var data := problems[p];
    RootFinishesLast(data);
    assert Running(data) == {};
    forall k | k in live
      ensures k.problem != p
    {
      assert k.problem == p ==> TaskKey(p, k.task) == k;
    }
  }

  /** The client wakes up and clears its problem. */
  lemma ClearDesk(world: World, d: Desk, live: set<TaskKey>, past: set<TaskKey>, p: ProblemId)
    requires DeskGood(world, d, live, past) && p < |d.clients| && d.clients[p].frame == Waiting(true)
    ensures p in d.sync
    ensures DeskGood(world, Desk(d.problems - {p}, d.sync - {p}, d.clients[p := d.clients[p].(frame := Cleared)], d.store), live, past)
  {
    var c := d.clients[p];
    assert ClientGood(world, c, p, d.problems, live);
    ComputedIsOver(world, c, p, d.problems, live);
    var c' := c.(frame := Cleared);
    var d' := Desk(d.problems - {p}, d.sync - {p}, d.clients[p := c'], d.store);
    OneClientChanges(world, d.clients, d.problems, live, p, c', d'.problems, live);
    PlansSame(d.clients, p, Cleared);
    forall q: TaskKey
      ensures q in d'.store <==> HasResult(d'.clients, d'.problems, past, q)
    {
      assert q in d.store <==> HasResult(d.clients, d.problems, past, q);
    }
  }

  /** The client reads the root's record: it is there, and it is the AST's value. */
  lemma FetchDesk(world: World, d: Desk, live: set<TaskKey>, past: set<TaskKey>, p: ProblemId)
    requires DeskGood(world, d, live, past) && p < |d.clients| && d.clients[p].frame.Cleared?
    ensures var tasks := d.clients[p].dec.tasks;
            && tasks != [] && var k := TaskKey(p, tasks[|tasks| - 1]);
            && k in d.store
            && DeskGood(world, d.(clients := d.clients[p := d.clients[p].(frame := Fetched(d.store[k]))]), live, past)
  {
    var c := d.clients[p];
    assert ClientGood(world, c, p, d.problems, live);
    var k := TaskKey(p, Root(c.dec.graph));
    assert HasResult(d.clients, d.problems, past, k);
    assert Plans(d.clients)[p] == c.dec.graph;
    assert Eval(c.ast, world) == EvalVertex(c.dec.graph, Root(c.dec.graph), world) == Some(d.store[k]);
    var c' := c.(frame := Fetched(d.store[k]));
    var d' := d.(clients := d.clients[p := c']);
    OneClientChanges(world, d.clients, d.problems, live, p, c', d.problems, live);
    PlansSame(d.clients, p, c'.frame);
    forall q: TaskKey
      ensures q in d'.store <==> HasResult(d'.clients, d'.problems, past, q)
    {
      assert q in d.store <==> HasResult(d.clients, d.problems, past, q);
    }
  }

  /** The client clears its records and returns. */
  lemma FinishDesk(world: World, d: Desk, live: set<TaskKey>, past: set<TaskKey>, p: ProblemId)
    requires DeskGood(world, d, live, past) && p < |d.clients| && d.clients[p].frame.Fetched?
    ensures DeskGood(world, Desk(d.problems, d.sync, d.clients[p := d.clients[p].(frame := Returned(d.clients[p].frame.v))], WithoutProblem(d.store, p)), live, past)
  {
    var c := d.clients[p];
    assert ClientGood(world, c, p, d.problems, live);
    var c' := c.(frame := Returned(c.frame.v));
    var d' := Desk(d.problems, d.sync, d.clients[p := c'], WithoutProblem(d.store, p));
    OneClientChanges(world, d.clients, d.problems, live, p, c', d.problems, live);
    PlansSame(d.clients, p, c'.frame);
    forall q: TaskKey
      ensures q in d'.store <==> HasResult(d'.clients, d'.problems, past, q)
    {
      assert q in d.store <==> HasResult(d.clients, d.problems, past, q);
    }
  }
}
