/** What sharing preserves: the graph of an AST unfolds back to it, shares as much as possible,
    is numbered with operands first, and evaluates to the same values.
 */
module Sharing {
  import opened Domain
  import opened Expression
  import opened ValueNumbering

  /** Every edge leads to a smaller vertex. */
  ghost predicate WellNumbered(g: Graph) {
    && |g.edges| == |g.vertices|
    && forall v :: 0 <= v < |g.edges| ==> AllBelow(g.edges[v], v)
  }

  ghost predicate AllBelow(ts: seq<nat>, v: nat) {
    forall k :: 0 <= k < |ts| ==> ts[k] < v
  }

  /** g is the graph built from the records of ast. */
  ghost predicate IsDag(g: Graph, records: seq<Expr>, ast: Expr) {
    && RecordsFor(records, ast)
    && Complete(records)
    && g == GraphOf(records)
    && WellNumbered(g)
  }

  function Root(g: Graph): nat
    requires g.vertices != []
  {
    |g.vertices| - 1
  }

  lemma OrderedIsWellNumbered(records: seq<Expr>)
    requires Ordered(records) && Complete(records)
    ensures WellNumbered(GraphOf(records))
  {
    forall v | 0 <= v < |records|
      ensures AllBelow(GraphOf(records).edges[v], v)
    {
      OperandsAreBelow(records, v);
    }
  }

  /** The graph of an AST. */
  function DagOf(ast: Expr): (g: Graph)
    ensures IsDag(g, Records(ast), ast)
  {
    RecordsOfAst(ast);
    OrderedIsComplete(Records(ast));
    OrderedIsWellNumbered(Records(ast));
    GraphOf(Records(ast))
  }

  /** Edge k of vertex v leads to the vertex of operand k. */
  lemma EdgeIsOperand(g: Graph, records: seq<Expr>, ast: Expr, v: nat)
    requires IsDag(g, records, ast) && v < |records|
    ensures |g.edges[v]| == |Operands(records[v])|
    ensures forall k :: 0 <= k < |g.edges[v]| ==> g.edges[v][k] < v && records[g.edges[v][k]] == Operands(records[v])[k]
  {
    OperandsAreBelow(records, v);
  }

  // ---------- unfolding ----------

  ghost function Unfold(g: Graph, v: nat): Option<Expr>
    requires WellNumbered(g) && v < |g.vertices|
    decreases v
  {
    var ts := g.edges[v];
    assert AllBelow(ts, v);
    var ops := Collect(seq(|ts|, k requires 0 <= k < |ts| => Unfold(g, ts[k])));
    if ops.None? then None else New(g.vertices[v].etype, g.vertices[v].data, ops.value)
  }

  lemma {:induction false} UnfoldGivesRecord(g: Graph, records: seq<Expr>, ast: Expr, v: nat)
    requires IsDag(g, records, ast) && v < |records|
    ensures Unfold(g, v) == Some(records[v])
    decreases v
  {
    EdgeIsOperand(g, records, ast, v);
    var ts, ops := g.edges[v], Operands(records[v]);
    forall k | 0 <= k < |ts|
      ensures Unfold(g, ts[k]) == Some(ops[k])
    {
      UnfoldGivesRecord(g, records, ast, ts[k]);
    }
    assert Collect(seq(|ts|, k requires 0 <= k < |ts| => Unfold(g, ts[k]))).value == ops;
    NewOfParts(records[v]);
  }

  /** Sharing loses nothing: the root unfolds to the AST. */
  lemma UnfoldRestoresAst(g: Graph, records: seq<Expr>, ast: Expr)
    requires IsDag(g, records, ast)
    ensures Unfold(g, Root(g)) == Some(ast)
  {
    var r := Root(g);
    assert records[r] == ast;
    UnfoldGivesRecord(g, records, ast, r);
  }

  // ---------- sharing is maximal ----------

  /** No two vertices carry the same type, data and ordered targets. */
  lemma NoTwoVerticesAlike(g: Graph, records: seq<Expr>, ast: Expr, u: nat, v: nat)
    requires IsDag(g, records, ast) && u < |records| && v < |records|
    requires g.vertices[u] == g.vertices[v] && g.edges[u] == g.edges[v]
    ensures u == v
  {
    UnfoldGivesRecord(g, records, ast, u);
    UnfoldGivesRecord(g, records, ast, v);
    var ts := g.edges[u];
    assert seq(|ts|, k requires 0 <= k < |ts| => Unfold(g, ts[k]))
        == seq(|g.edges[v]|, k requires 0 <= k < |g.edges[v]| => Unfold(g, g.edges[v][k]));
    assert records[u] == records[v];
  }

  lemma {:induction false} CardinalityOfDistinct<T>(s: seq<T>, xs: set<T>)
    requires Distinct(s)
    requires forall x :: x in s <==> x in xs
    ensures |s| == |xs|
  {
    if s == [] {
      assert xs == {};
    } else {
      var last := s[|s| - 1];
      var front := s[..|s| - 1];
      assert forall x :: x in front <==> x in xs - {last} by {
        assert s == front + [last];
      }
      CardinalityOfDistinct(front, xs - {last});
    }
  }

  /** There are as many vertices as distinct subtrees. */
  lemma VertexCount(g: Graph, records: seq<Expr>, ast: Expr)
    requires IsDag(g, records, ast)
    ensures |g.vertices| == |Subtrees(ast)|
  {
    CardinalityOfDistinct(records, Subtrees(ast));
  }

  /** The node reached from e by taking, at each step, the operand of the given position. */
  ghost function NodeAt(e: Expr, path: seq<nat>): Option<Expr> {
    if path == [] then Some(e)
    else
      var n := NodeAt(e, path[..|path| - 1]);
      var k := path[|path| - 1];
      if n.None? || k >= |Operands(n.value)| then None else Some(Operands(n.value)[k])
  }

  /** The vertex reached from v along the edges of the given positions. */
  ghost function VertexAt(g: Graph, v: nat, path: seq<nat>): (r: Option<nat>)
    requires WellNumbered(g) && v < |g.vertices|
    ensures r.Some? ==> r.value < |g.vertices|
  {
    if path == [] then Some(v)
    else
      var u := VertexAt(g, v, path[..|path| - 1]);
      var k := path[|path| - 1];
      if u.None? || k >= |g.edges[u.value]| then None else Some(g.edges[u.value][k])
  }

  lemma {:induction false} VertexTracksNode(g: Graph, records: seq<Expr>, ast: Expr, path: seq<nat>)
    requires IsDag(g, records, ast)
    ensures VertexAt(g, Root(g), path).Some? <==> NodeAt(ast, path).Some?
    ensures NodeAt(ast, path).Some? ==> records[VertexAt(g, Root(g), path).value] == NodeAt(ast, path).value
  {
    if path != [] {
      VertexTracksNode(g, records, ast, path[..|path| - 1]);
      var u := VertexAt(g, Root(g), path[..|path| - 1]);
      if u.Some? {
        EdgeIsOperand(g, records, ast, u.value);
      }
    }
  }

  /** Two nodes of the AST share a vertex exactly when they are structurally equal. */
  lemma SharedIffEqual(g: Graph, records: seq<Expr>, ast: Expr, p: seq<nat>, q: seq<nat>)
    requires IsDag(g, records, ast)
    requires NodeAt(ast, p).Some? && NodeAt(ast, q).Some?
    ensures VertexAt(g, Root(g), p) == VertexAt(g, Root(g), q) <==> Equal(NodeAt(ast, p).value, NodeAt(ast, q).value)
  {
    VertexTracksNode(g, records, ast, p);
    VertexTracksNode(g, records, ast, q);
    EqualIsStructural(NodeAt(ast, p).value, NodeAt(ast, q).value);
  }

  lemma {:induction false} StepIntoOperand(e: Expr, k: nat, path: seq<nat>)
    requires k < |Operands(e)|
    ensures NodeAt(e, [k] + path) == NodeAt(Operands(e)[k], path)
  {
    if path == [] {
      assert [k] + path == [k];
      assert [k][..0] == [];
    } else {
      var p, front := [k] + path, path[..|path| - 1];
      assert p[..|p| - 1] == [k] + front && p[|p| - 1] == path[|path| - 1];
      StepIntoOperand(e, k, front);
    }
  }

  lemma {:induction false} PathToSubtree(e: Expr, s: Expr) returns (path: seq<nat>)
    requires s in Subtrees(e)
    ensures NodeAt(e, path) == Some(s)
    decreases e
  {
    if s == e {
      path := [];
    } else {
      var k: nat := if s in Subtrees(Operands(e)[0]) then 0 else 1;
      var rest := PathToSubtree(Operands(e)[k], s);
      StepIntoOperand(e, k, rest);
      path := [k] + rest;
    }
  }

  /** Every vertex is reachable from the root. */
  lemma AllReachable(g: Graph, records: seq<Expr>, ast: Expr, v: nat) returns (path: seq<nat>)
    requires IsDag(g, records, ast) && v < |records|
    ensures VertexAt(g, Root(g), path) == Some(v)
  {
    path := PathToSubtree(ast, records[v]);
    VertexTracksNode(g, records, ast, path);
  }

  // ---------- the root comes last ----------

  ghost predicate ClosedUnderEdges(g: Graph, done: set<nat>) {
    forall v, k :: v in done && v < |g.edges| && 0 <= k < |g.edges[v]| ==> g.edges[v][k] in done
  }

  lemma {:induction false} ClosedAlongPath(g: Graph, done: set<nat>, v: nat, path: seq<nat>)
    requires WellNumbered(g) && v < |g.vertices|
    requires ClosedUnderEdges(g, done) && v in done && VertexAt(g, v, path).Some?
    ensures VertexAt(g, v, path).value in done
  {
    if path != [] {
      ClosedAlongPath(g, done, v, path[..|path| - 1]);
    }
  }

  /** A set of vertices closed under operands that holds the root holds every vertex. */
  lemma RootImpliesAll(g: Graph, records: seq<Expr>, ast: Expr, done: set<nat>)
    requires IsDag(g, records, ast)
    requires ClosedUnderEdges(g, done) && Root(g) in done
    ensures forall v: nat :: v < |g.vertices| ==> v in done
  {
    forall v: nat | v < |g.vertices|
      ensures v in done
    {
      var path := AllReachable(g, records, ast, v);
      ClosedAlongPath(g, done, Root(g), path);
    }
  }

  /** A listing of all vertices, each after its operands. */
  ghost predicate OperandsFirst(g: Graph, order: seq<nat>) {
    && |g.edges| == |g.vertices| == |order|
    && Distinct(order)
    && (forall i :: 0 <= i < |order| ==> order[i] < |g.vertices|)
    && (forall i, k :: 0 <= i < |order| && 0 <= k < |g.edges[order[i]]| ==> g.edges[order[i]][k] in order[..i])
  }

  ghost function Below(n: nat): (s: set<nat>)
    ensures |s| == n && forall v: nat :: v in s <==> v < n
  {
    if n == 0 then {} else Below(n - 1) + {n - 1}
  }

  lemma EnoughDistinct(order: seq<nat>, n: nat)
    requires Distinct(order) && |order| == n && forall i :: 0 <= i < n ==> order[i] < n
    ensures forall v: nat :: v < n ==> v in order
  {
    var have := set v | v in order;
    CardinalityOfDistinct(order, have);
    assert have <= Below(n);
    assert |Below(n) - have| == |Below(n)| - |have|;
    assert Below(n) - have == {};
    forall v: nat | v < n
      ensures v in order
    {
      assert v in Below(n) && v !in Below(n) - have;
    }
  }

  lemma UserAfterOperand(g: Graph, order: seq<nat>, u: nat, k: nat, j: nat)
    requires OperandsFirst(g, order) && u < |g.vertices| && k < |g.edges[u]|
    requires j < |order| && order[j] == g.edges[u][k]
    ensures exists i :: j < i < |order| && order[i] == u
  {
    EnoughDistinct(order, |order|);
    assert u in order;
    var i :| 0 <= i < |order| && order[i] == u;
    assert g.edges[order[i]][k] in order[..i];
    var j' :| 0 <= j' < i && order[..i][j'] == order[j];
    assert order[j'] == order[j];
  }

  /** A vertex other than the root is an operand. */
  lemma HasUser(g: Graph, records: seq<Expr>, ast: Expr, v: nat) returns (u: nat, k: nat)
    requires IsDag(g, records, ast) && v < |g.vertices| && v != Root(g)
    ensures u < |g.vertices| && k < |g.edges[u]| && g.edges[u][k] == v
  {
    var path := AllReachable(g, records, ast, v);
    u, k := VertexAt(g, Root(g), path[..|path| - 1]).value, path[|path| - 1];
  }

  /** Whichever operands-first order a topological sort returns, it ends with the AST's vertex. */
  lemma AnyOrderEndsAtRoot(g: Graph, records: seq<Expr>, ast: Expr, order: seq<nat>)
    requires IsDag(g, records, ast) && OperandsFirst(g, order)
    ensures order[|order| - 1] == Root(g)
  {
    var v := order[|order| - 1];
    if v != Root(g) {
      var u, k := HasUser(g, records, ast, v);
      UserAfterOperand(g, order, u, k, |order| - 1);
    }
  }

  // ---------- sharing preserves meaning ----------

  /** The value of a vertex, computed over the graph alone. */
  function EvalVertex(g: Graph, v: nat, w: World): Option<Value>
    requires WellNumbered(g) && v < |g.vertices|
    decreases v
  {
    if IsVariable(g.vertices[v].etype) then EvalData(g.vertices[v].data, w)
    else
      var ts := g.edges[v];
      assert AllBelow(ts, v);
      ApplyTo(w, g.vertices[v].etype, seq(|ts|, k requires 0 <= k < |ts| => EvalVertex(g, ts[k], w)))
  }

  lemma {:induction false} VertexValueIsSubtreeValue(g: Graph, records: seq<Expr>, ast: Expr, v: nat, w: World)
    requires IsDag(g, records, ast) && v < |records|
    ensures EvalVertex(g, v, w) == Eval(records[v], w)
    decreases v
  {
    EdgeIsOperand(g, records, ast, v);
    var ts, ops := g.edges[v], Operands(records[v]);
    forall k | 0 <= k < |ts|
      ensures EvalVertex(g, ts[k], w) == Eval(ops[k], w)
    {
      VertexValueIsSubtreeValue(g, records, ast, ts[k], w);
    }
    if !IsVariable(GetType(records[v])) {
      EvalFromOperands(records[v], w);
      assert seq(|ts|, k requires 0 <= k < |ts| => EvalVertex(g, ts[k], w))
          == OperandValues(records[v], w);
    }
  }

  /** Evaluating the shared graph at its root is evaluating the AST. */
  lemma GraphPreservesMeaning(g: Graph, records: seq<Expr>, ast: Expr, w: World)
    requires IsDag(g, records, ast)
    ensures EvalVertex(g, Root(g), w) == Eval(ast, w)
  {
    var r := Root(g);
    assert records[r] == ast;
    VertexValueIsSubtreeValue(g, records, ast, r, w);
  }
}
