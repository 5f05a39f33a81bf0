/** How many operations of a problem can be outstanding at once: the largest number of operations of
    which none is computed from another. If no operation's result is used by two others, that is the
    number of operations on variables alone, which can all be requested at the start.
 */
module Width {
  import opened Domain
  import opened Expression
  import opened ValueNumbering
  import opened Sharing
  import opened Decomposition
  import opened Dispatch
  import opened Frontier
  import opened Pipeline
  import opened Stranded
  import opened Overload

  // ---------- independent operations ----------

  /** u is computed before v is, as an operand of v or of one of its operands and so on. */
  ghost predicate Under(g: Graph, v: TaskId, u: TaskId)
    requires WellNumbered(g) && v < |g.vertices|
  {
    exists path :: path != [] && VertexAt(g, v, path) == Some(u)
  }

  ghost predicate Independent(g: Graph, ts: set<TaskId>)
    requires WellNumbered(g)
  {
    && (forall t :: t in ts ==> IsOperation(g, t))
    && forall t, u :: t in ts && u in ts ==> !Under(g, t, u)
  }

  /** No more than n operations are independent. */
  ghost predicate Narrow(g: Graph, n: nat)
    requires WellNumbered(g)
  {
    forall ts: set<TaskId> {:trigger Independent(g, ts)} :: Independent(g, ts) ==> |ts| <= n
  }

  lemma {:induction false} DoneBelowStarted(c: CalculationData, v: TaskId, path: seq<nat>)
    requires Agrees(c) && v in c.status && path != [] && VertexAt(c.dec.graph, v, path).Some?
    ensures VertexAt(c.dec.graph, v, path).value in Done(c)
  {
    var front := path[..|path| - 1];
    var x := VertexAt(c.dec.graph, v, front).value;
    if front != [] {
      DoneBelowStarted(c, v, front);
    }
    assert Ready(c.dec.graph, Done(c), x);
  }

  /** The tasks of a problem that are in progress are independent. */
  lemma RunningIsIndependent(c: CalculationData)
    requires Agrees(c)
    ensures Independent(c.dec.graph, Running(c))
  {
    forall t | t in Running(c)
      ensures IsOperation(c.dec.graph, t)
    {
      assert t !in c.names;
    }
    forall t, u | t in Running(c) && u in Running(c)
      ensures !Under(c.dec.graph, t, u)
    {
      if path :| path != [] && VertexAt(c.dec.graph, t, path) == Some(u) {
        DoneBelowStarted(c, t, path);
      }
    }
  }

  // ---------- the operations that can be requested at the start ----------

  /** An operation on variables. */
  predicate IsOpen(g: Graph, v: TaskId) {
    IsOperation(g, v) && forall k :: 0 <= k < |g.edges[v]| ==> !IsOperation(g, g.edges[v][k])
  }

  lemma OpeningIs(ast: Expr, v: TaskId)
    requires NoConstants(ast)
    ensures v in Opening(ast) <==> IsOpen(DagOf(ast), v)
  {
    AnyOrderOfPlan(ast);
  }

  /** The first operations to be requested are independent. */
  lemma OpeningIsIndependent(ast: Expr)
    requires NoConstants(ast)
    ensures Independent(DagOf(ast), Opening(ast))
  {
    var c := Dispatch.Start(PlanOf(ast));
    AnyOrderOfPlan(ast);
    StartAgrees(PlanOf(ast));
    SendAgrees(c);
    RunningIsIndependent(AfterSend(c));
    assert Running(AfterSend(c)) == Opening(ast);
  }

  /** No other independent operations are more. */
  ghost predicate OpensWide(ast: Expr) {
    Narrow(DagOf(ast), |Opening(ast)|)
  }

  // ---------- unshared operations ----------

  predicate Uses(g: Graph, v: TaskId, u: TaskId) {
    v < |g.edges| && u in g.edges[v]
  }

  /** No operation is an operand of two others. */
  ghost predicate Unshared(g: Graph) {
    forall v, w, u :: Uses(g, v, u) && Uses(g, w, u) && IsOperation(g, u) ==> v == w
  }

  ghost predicate LeavesBare(g: Graph) {
    |g.edges| == |g.vertices| && forall v :: 0 <= v < |g.edges| && !IsOperation(g, v) ==> g.edges[v] == []
  }

  /** Below every operation there is one on variables. */
  lemma {:induction false} SomeOpen(g: Graph, v: TaskId, path: seq<nat>) returns (foot: TaskId, down: seq<nat>)
    requires WellNumbered(g) && v < |g.vertices| && VertexAt(g, v, path).Some? && IsOperation(g, VertexAt(g, v, path).value)
    ensures VertexAt(g, v, down) == Some(foot) && IsOpen(g, foot)
    decreases VertexAt(g, v, path).value
  {
    var u := VertexAt(g, v, path).value;
    if k :| 0 <= k < |g.edges[u]| && IsOperation(g, g.edges[u][k]) {
      assert AllBelow(g.edges[u], u);
      assert (path + [k])[..|path|] == path;
      foot, down := SomeOpen(g, v, path + [k]);
    } else {
      foot, down := u, path;
    }
  }

  /** Two operations above the same one are above each other. */
  lemma {:induction false} SameFoot(g: Graph, t: TaskId, p: seq<nat>, u: TaskId, q: seq<nat>, x: TaskId)
    requires WellNumbered(g) && Unshared(g) && LeavesBare(g) && t < |g.vertices| && u < |g.vertices|
    requires VertexAt(g, t, p) == Some(x) && VertexAt(g, u, q) == Some(x) && IsOperation(g, x)
    ensures t == u || Under(g, t, u) || Under(g, u, t)
    decreases |p|
  {
    if p != [] && q != [] {
      var y, z := VertexAt(g, t, p[..|p| - 1]).value, VertexAt(g, u, q[..|q| - 1]).value;
      assert Uses(g, y, x) && Uses(g, z, x);
      SameFoot(g, t, p[..|p| - 1], u, q[..|q| - 1], y);
    }
  }

  /** Independent operations stand on as many operations on variables. */
  lemma {:induction false} Feet(g: Graph, ts: set<TaskId>) returns (feet: set<TaskId>)
    requires WellNumbered(g) && Unshared(g) && LeavesBare(g) && Independent(g, ts)
    ensures |feet| == |ts| && forall x :: x in feet ==> IsOpen(g, x) && StandsOn(g, ts, x)
    decreases |ts|
  {
    if ts == {} {
      feet := {};
    } else {
      var t :| t in ts;
      var rest := ts - {t};
      feet := Feet(g, rest);
      var foot, down := SomeOpen(g, t, []);
      if foot in feet {
        var u, q :| u in rest && u < |g.vertices| && VertexAt(g, u, q) == Some(foot);
        SameFoot(g, t, down, u, q, foot);
      }
      feet := feet + {foot};
    }
  }

  ghost predicate StandsOn(g: Graph, ts: set<TaskId>, x: TaskId)
    requires WellNumbered(g)
  {
    exists t, path :: t in ts && t < |g.vertices| && VertexAt(g, t, path) == Some(x)
  }

  /** If no operation's result is used by two others, no more operations can be outstanding at once than
      at the start. */
  lemma UnsharedOpensWide(ast: Expr)
    requires NoConstants(ast) && Unshared(DagOf(ast))
    ensures OpensWide(ast)
  {
    var g := DagOf(ast);
    AnyOrderOfPlan(ast);
    forall ts: set<TaskId> | Independent(g, ts)
      ensures |ts| <= |Opening(ast)|
    {
      var feet := Feet(g, ts);
      forall x | x in feet
        ensures x in Opening(ast)
      {
        OpeningIs(ast, x);
      }
      Smaller(feet, Opening(ast));
    }
  }

  lemma ShallowIsNarrow(ast: Expr)
    requires Shallow(ast)
    ensures Narrow(DagOf(ast), 1)
  {
    var g := DagOf(ast);
    forall ts: set<TaskId> | Independent(g, ts)
      ensures |ts| <= 1
    {
      forall t | t in ts
        ensures t in {Root(g)}
      {
        OnlyRoot(ast, t);
      }
      Smaller(ts, {Root(g)});
    }
  }

  lemma Smaller<T>(a: set<T>, b: set<T>)
    requires a <= b
    ensures |a| <= |b|
  {
    assert |b - a| == |b| - |a|;
  }
}
