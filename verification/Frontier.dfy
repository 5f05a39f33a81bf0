/** What every step of one problem keeps: the cached frontier is the one recomputed from scratch,
    a started task has all its operands completed, the root finishes last, and work runs out.
 */
module Frontier {
  import opened Domain
  import opened Expression
  import opened ValueNumbering
  import opened Sharing
  import opened Decomposition
  import opened Dispatch

  /** The fixed part of a problem's data. */
  ghost predicate Planned(c: CalculationData) {
    && WellNumbered(c.dec.graph)
    && RootReachesAll(c.dec.graph)
    && Shaped(c.dec.graph)
    && !HasConstant(c.dec.graph)
    && c.names == VariableNames(c.dec.graph)
    && c.dec.tasks != [] && c.dec.tasks[|c.dec.tasks| - 1] == Root(c.dec.graph)
  }

  ghost function Done(c: CalculationData): set<TaskId> {
    With(c.status, Completed)
  }

  ghost function Running(c: CalculationData): set<TaskId> {
    With(c.status, Processing)
  }

  /** Every started task has its operands completed, and variables are completed. */
  ghost predicate Causal(c: CalculationData)
    requires Planned(c)
  {
    && (forall t :: t in c.status ==> t < |c.dec.graph.vertices| && Ready(c.dec.graph, Done(c), t))
    && (forall t :: t in c.names ==> t in Done(c))
  }

  /** The cached frontier is the frontier computed afresh from the statuses. */
  ghost predicate CacheAgrees(c: CalculationData) {
    c.computable == Computable(c.dec.graph, Done(c), Running(c))
  }

  ghost predicate Agrees(c: CalculationData) {
    Planned(c) && Causal(c) && CacheAgrees(c)
  }

  lemma StartAgrees(d: Decompositor)
    requires Planned(Start(d))
    ensures Agrees(Start(d))
  {
    var c := Start(d);
    assert Done(c) == c.names.Keys && Running(c) == {};
    forall t | t in c.status
      ensures Ready(d.graph, Done(c), t)
    {
      assert d.graph.edges[t] == [];
    }
  }

  lemma SendAgrees(c: CalculationData)
    requires Agrees(c)
    ensures Agrees(AfterSend(c))
  {
    var c' := AfterSend(c);
    assert Done(c') == Done(c);
    assert Running(c') == Running(c) + c.computable.Keys;
    assert Computable(c.dec.graph, Done(c'), Running(c')) == map[];
  }

  lemma ReplyAgrees(c: CalculationData, t: TaskId)
    requires Agrees(c) && t in c.status && c.status[t] == Processing
    ensures Agrees(AfterReply(c, t))
  {
    var c' := AfterReply(c, t);
    assert Done(c') == Done(c) + {t};
    forall u | u in c'.status
      ensures Ready(c.dec.graph, Done(c'), u)
    {
      assert Ready(c.dec.graph, Done(c), u);
    }
  }

  lemma StartedIsClosed(c: CalculationData)
    requires Planned(c) && Causal(c)
    ensures ClosedUnderEdges(c.dec.graph, c.status.Keys)
    ensures ClosedUnderEdges(c.dec.graph, Done(c))
  {
    forall v, k | v in c.status && 0 <= k < |c.dec.graph.edges[v]|
      ensures c.dec.graph.edges[v][k] in Done(c)
    {
      assert Ready(c.dec.graph, Done(c), v);
    }
  }

  /** The root finishes last: once it is started, every other task is completed and nothing is
      left to send. */
  lemma RootFinishesLast(c: CalculationData)
    requires Agrees(c) && Root(c.dec.graph) in c.status
    ensures forall v: nat :: v < |c.dec.graph.vertices| ==> v in c.status
    ensures forall v: nat :: v < |c.dec.graph.vertices| && v != Root(c.dec.graph) ==> c.status[v] == Completed
    ensures c.computable == map[]
  {
    var g, r := c.dec.graph, Root(c.dec.graph);
    StartedIsClosed(c);
    assert forall v: nat :: v < |g.vertices| ==> v in c.status;
    var done := Done(c) + {r};
    assert Ready(g, Done(c), r);
    assert ClosedUnderEdges(g, done);
    forall v: nat | v < |g.vertices| && v != r
      ensures v in c.status && c.status[v] == Completed
    {
      assert v in done;
    }
  }

  lemma RootReplyAgrees(c: CalculationData, t: TaskId)
    requires Agrees(c) && t in c.status && c.status[t] == Processing && t == Root(c.dec.graph)
    ensures Agrees(AfterRootReply(c, t))
  {
    RootFinishesLast(c);
    var c' := AfterRootReply(c, t);
    assert Done(c') == Done(c) + {t};
    forall u | u in c'.status
      ensures Ready(c.dec.graph, Done(c'), u)
    {
      assert Ready(c.dec.graph, Done(c), u);
    }
    assert Computable(c.dec.graph, Done(c'), Running(c')) == map[];
  }

  /** Any reply that names a started task keeps the agreement. A repeated one changes nothing. */
  lemma OnReplyAgrees(c: CalculationData, t: TaskId)
    requires Agrees(c) && t in c.status
    ensures Agrees(OnReply(c, t)) && Done(OnReply(c, t)) == Done(c) + {t}
    ensures c.status[t] == Completed ==> OnReply(c, t) == c
  {
    if c.status[t] == Completed {
      assert c.status[t := Completed] == c.status;
    } else if IsLast(c, t) {
      RootReplyAgrees(c, t);
    } else {
      ReplyAgrees(c, t);
    }
  }

  // ---------- what a step does to a problem ----------

  /** The tasks that may be sent: neither started nor missing an operand, each with its operands. */
  ghost predicate IsFrontier(g: Graph, status: map<TaskId, TaskStatus>, computable: map<TaskId, seq<TaskId>>)
    requires |g.edges| == |g.vertices|
  {
    && (forall t: TaskId :: t in computable <==>
          && t < |g.vertices| && t !in status
          && forall k :: 0 <= k < |g.edges[t]| ==> g.edges[t][k] in status && status[g.edges[t][k]] == Completed)
    && forall t :: t in computable ==> t < |g.edges| && computable[t] == g.edges[t]
  }

  /** A new problem: its variables are completed and nothing else is started. */
  lemma StartEffect(d: Decompositor)
    requires |d.graph.edges| == |d.graph.vertices| && !HasConstant(d.graph)
    ensures var c := Start(d);
            && c.dec == d && IsFrontier(d.graph, c.status, c.computable)
            && (forall t: TaskId :: t in c.status <==> t < |d.graph.vertices| && IsVariable(d.graph.vertices[t].etype))
            && (forall t :: t in c.status ==> c.status[t] == Completed && t in c.names && d.graph.vertices[t].data == Name(c.names[t]))
  {
  }

  /** A pass: the frontier is in progress, and empty. */
  lemma SendEffect(c: CalculationData)
    ensures var c' := AfterSend(c);
            && c'.dec == c.dec && c'.names == c.names && c'.computable == map[]
            && (forall t :: t in c'.status <==> t in c.status || t in c.computable)
            && (forall t :: t in c'.status ==> c'.status[t] == if t in c.computable then Processing else c.status[t])
  {
  }

  /** A reply: one task is completed. Unless it is the root, the frontier follows from the statuses. */
  lemma ReplyEffect(c: CalculationData, t: TaskId)
    requires t in c.status && |c.dec.graph.edges| == |c.dec.graph.vertices| && c.dec.tasks != []
    ensures var c' := OnReply(c, t);
            && c'.dec == c.dec && c'.names == c.names && c'.status.Keys == c.status.Keys
            && (forall u :: u in c'.status ==> c'.status[u] == if u == t then Completed else c.status[u])
            && (if t == c.dec.tasks[|c.dec.tasks| - 1] then c'.computable == c.computable
                else IsFrontier(c.dec.graph, c'.status, c'.computable))
  {
    var c' := OnReply(c, t);
    assert forall u :: u in c'.status <==> u in With(c'.status, Completed) || u in With(c'.status, Processing);
  }

  lemma AgreedFrontier(c: CalculationData)
    requires Agrees(c)
    ensures IsFrontier(c.dec.graph, c.status, c.computable)
  {
    assert forall u :: u in c.status <==> u in Done(c) || u in Running(c);
  }

  // ---------- progress ----------

  lemma {:induction false} LowestUnfinished(c: CalculationData, v: TaskId) returns (u: TaskId)
    requires Agrees(c) && v < |c.dec.graph.vertices| && v !in Done(c)
    ensures u <= v && u !in Done(c) && Ready(c.dec.graph, Done(c), u)
    decreases v
  {
    if Ready(c.dec.graph, Done(c), v) {
      u := v;
    } else {
      var k :| 0 <= k < |c.dec.graph.edges[v]| && c.dec.graph.edges[v][k] !in Done(c);
      assert AllBelow(c.dec.graph.edges[v], v);
      u := LowestUnfinished(c, c.dec.graph.edges[v][k]);
    }
  }

  /** While the root is incomplete some task is ready to be sent or in progress. */
  lemma SomethingToDo(c: CalculationData)
    requires Agrees(c) && Root(c.dec.graph) !in Done(c)
    ensures c.computable != map[] || Running(c) != {}
  {
    var u := LowestUnfinished(c, Root(c.dec.graph));
    if u !in Running(c) {
      assert u in c.computable;
    }
  }

  ghost function Operations(c: CalculationData): set<TaskId> {
    set v: nat | v < |c.dec.graph.vertices| && v !in c.names
  }

  ghost function Unsent(c: CalculationData): set<TaskId> {
    set v: nat | v < |c.dec.graph.vertices| && v !in c.status
  }

  /** Twice the operations not yet sent plus the operations in progress. */
  ghost function Work(c: CalculationData): nat {
    2 * |Unsent(c)| + |Running(c)|
  }

  lemma WorkAtStart(d: Decompositor)
    requires Planned(Start(d))
    ensures Work(Start(d)) == 2 * |Operations(Start(d))|
  {
    var c := Start(d);
    assert Unsent(c) == Operations(c);
    assert Running(c) == {};
  }

  lemma SendMovesFrontier(c: CalculationData)
    requires Agrees(c)
    ensures c.computable.Keys <= Unsent(c) && Unsent(AfterSend(c)) == Unsent(c) - c.computable.Keys
    ensures c.computable.Keys !! Running(c) && Running(AfterSend(c)) == Running(c) + c.computable.Keys
  {
  }

  lemma Cardinalities<T>(a: set<T>, b: set<T>, s: set<T>)
    requires s <= a && s !! b
    ensures |a - s| == |a| - |s| && |b + s| == |b| + |s|
  {
  }

  /** Sending takes one unit of work per task sent. */
  lemma SendReducesWork(c: CalculationData)
    requires Agrees(c)
    ensures Work(AfterSend(c)) == Work(c) - |c.computable.Keys|
  {
    SendMovesFrontier(c);
    Cardinalities(Unsent(c), Running(c), c.computable.Keys);
  }

  /** Every reply takes one unit. */
  lemma ReplyReducesWork(c: CalculationData, t: TaskId)
    requires t in c.status && c.status[t] == Processing
    ensures Work(OnReply(c, t)) == Work(c) - 1
  {
    var c' := OnReply(c, t);
    assert Unsent(c') == Unsent(c);
    assert Running(c') == Running(c) - {t};
  }

  /** No work is left exactly when the root is completed. */
  lemma WorkRunsOut(c: CalculationData)
    requires Agrees(c)
    ensures Work(c) == 0 <==> Root(c.dec.graph) in Done(c)
  {
    if Root(c.dec.graph) in Done(c) {
      RootFinishesLast(c);
      assert Unsent(c) == {} && Running(c) == {};
    } else if Root(c.dec.graph) in c.status {
      assert Root(c.dec.graph) in Running(c);
    } else {
      assert Root(c.dec.graph) in Unsent(c);
    }
  }
}
