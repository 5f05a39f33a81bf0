/** A decomposed problem: the graph of its AST, a topological order of the tasks, and the two
    queries the dispatcher makes: which tasks are variables, and which are ready to compute.
 */
module Decomposition {
  import opened Domain
  import opened Expression
  import opened ValueNumbering
  import opened Sharing

  type TaskId = nat

  function UpTo(n: nat): (s: seq<nat>)
    ensures |s| == n && forall i :: 0 <= i < n ==> s[i] == i
  {
    seq(n, i => i)
  }

  // ---------- topological sort ----------

  /** Depth-first search from v: the finish order extended by v's unfinished descendants, then v. */
  function Finish(g: Graph, v: nat, done: seq<nat>): seq<nat>
    requires WellNumbered(g) && v < |g.vertices|
    decreases v, 1, 0
  {
    if v in done then done else
      assert AllBelow(g.edges[v], v);
      FinishAll(g, v, g.edges[v], done) + [v]
  }

  function FinishAll(g: Graph, v: nat, ts: seq<nat>, done: seq<nat>): seq<nat>
    requires WellNumbered(g) && v < |g.vertices| && AllBelow(ts, v)
    decreases v, 0, |ts|
  {
    if ts == [] then done else FinishAll(g, v, ts[1..], Finish(g, ts[0], done))
  }

  lemma {:induction false} NothingLeftToFinish(g: Graph, v: nat, ts: seq<nat>)
    requires WellNumbered(g) && v < |g.vertices| && AllBelow(ts, v)
    ensures FinishAll(g, v, ts, UpTo(v)) == UpTo(v)
    decreases |ts|
  {
    if ts != [] {
      assert UpTo(v)[ts[0]] == ts[0];
      NothingLeftToFinish(g, v, ts[1..]);
    }
  }

  lemma FinishNext(g: Graph, v: nat)
    requires WellNumbered(g) && v < |g.vertices|
    ensures Finish(g, v, UpTo(v)) == UpTo(v + 1)
  {
    assert AllBelow(g.edges[v], v);
    NothingLeftToFinish(g, v, g.edges[v]);
    assert UpTo(v) + [v] == UpTo(v + 1);
  }

  /** Every edge leads to a smaller vertex, so depth-first search finishes the vertices in the
      order of their numbers. */
  method TopologicalSort(g: Graph) returns (tasks: seq<TaskId>)
    requires WellNumbered(g)
    ensures tasks == UpTo(|g.vertices|)
    ensures OperandsFirst(g, tasks)
  {
    tasks := [];
    for v := 0 to |g.vertices|
      invariant tasks == UpTo(v)
    {
      FinishNext(g, v);
      tasks := Finish(g, v, tasks);
    }
    NumberOrderIsOperandsFirst(g);
  }

  lemma NumberOrderIsOperandsFirst(g: Graph)
    requires WellNumbered(g)
    ensures OperandsFirst(g, UpTo(|g.vertices|))
  {
    var order := UpTo(|g.vertices|);
    forall i, k | 0 <= i < |order| && 0 <= k < |g.edges[order[i]]|
      ensures g.edges[order[i]][k] in order[..i]
    {
      assert AllBelow(g.edges[i], i);
      assert order[..i][g.edges[i][k]] == g.edges[i][k];
    }
  }

  // ---------- evaluation in sorted order ----------

  type Memo = map<TaskId, Option<Value>>

  /** What the table holds for the operands of v, in order. */
  function Looked(memo: Memo, ts: seq<TaskId>): (r: seq<Option<Value>>)
    requires forall k :: 0 <= k < |ts| ==> ts[k] in memo
    ensures |r| == |ts| && forall k :: 0 <= k < |r| ==> r[k] == memo[ts[k]]
  {
    seq(|ts|, k requires 0 <= k < |ts| && ts[k] in memo => memo[ts[k]])
  }

  /** The table holds the listed vertices, each with its value. */
  ghost predicate Tabulates(g: Graph, memo: Memo, done: seq<TaskId>, w: World)
    requires WellNumbered(g)
  {
    && (forall v :: v in memo <==> v in done)
    && (forall v :: v in memo ==> v < |g.vertices| && memo[v] == EvalVertex(g, v, w))
  }

  lemma LookedIsRight(g: Graph, memo: Memo, done: seq<TaskId>, w: World, v: TaskId)
    requires WellNumbered(g) && Tabulates(g, memo, done, w) && v < |g.vertices|
    requires forall k :: 0 <= k < |g.edges[v]| ==> g.edges[v][k] in done
    ensures forall k :: 0 <= k < |g.edges[v]| ==> g.edges[v][k] in memo
    ensures !IsVariable(g.vertices[v].etype) ==> ApplyTo(w, g.vertices[v].etype, Looked(memo, g.edges[v])) == EvalVertex(g, v, w)
  {
    var ts := g.edges[v];
    assert AllBelow(ts, v);
    var values := seq(|ts|, k requires 0 <= k < |ts| => EvalVertex(g, ts[k], w));
    forall k | 0 <= k < |ts|
      ensures ts[k] in memo && memo[ts[k]] == values[k]
    {
      assert ts[k] in done;
    }
    assert Looked(memo, ts) == values;
  }

  /** Evaluating the tasks once each, in an operands-first order and with a table of the results. */
  method Evaluate(g: Graph, tasks: seq<TaskId>, w: World) returns (memo: Memo)
    requires WellNumbered(g) && OperandsFirst(g, tasks)
    ensures Tabulates(g, memo, tasks, w)
  {
    memo := map[];
    for i := 0 to |tasks|
      invariant Tabulates(g, memo, tasks[..i], w)
    {
      var v := tasks[i];
      assert tasks[..i + 1] == tasks[..i] + [v];
      LookedIsRight(g, memo, tasks[..i], w, v);
      var value := if IsVariable(g.vertices[v].etype) then EvalData(g.vertices[v].data, w)
                   else ApplyTo(w, g.vertices[v].etype, Looked(memo, g.edges[v]));
      memo := memo[v := value];
    }
    assert tasks[..|tasks|] == tasks;
  }

  lemma TableHoldsAll(g: Graph, tasks: seq<TaskId>, w: World, memo: Memo)
    requires WellNumbered(g) && OperandsFirst(g, tasks) && Tabulates(g, memo, tasks, w)
    ensures forall v: nat :: v in memo <==> v < |g.vertices|
  {
    EnoughDistinct(tasks, |tasks|);
  }

  /** Whichever operands-first order is taken, this refines the recursive evaluation: every vertex gets
      the value of its subtree. */
  lemma TableIsEval(ast: Expr, tasks: seq<TaskId>, w: World, memo: Memo)
    requires OperandsFirst(DagOf(ast), tasks) && Tabulates(DagOf(ast), memo, tasks, w)
    ensures forall v: nat :: v in memo <==> v < |Records(ast)|
    ensures forall v :: v in memo ==> memo[v] == Eval(Records(ast)[v], w)
    ensures tasks != [] && tasks[|tasks| - 1] in memo && memo[tasks[|tasks| - 1]] == Eval(ast, w)
  {
    var g := DagOf(ast);
    TableHoldsAll(g, tasks, w, memo);
    forall v | v in memo
      ensures memo[v] == Eval(Records(ast)[v], w)
    {
      VertexValueIsSubtreeValue(g, Records(ast), ast, v, w);
    }
    TableRoot(ast, tasks, w, memo);
  }

  lemma TableRoot(ast: Expr, tasks: seq<TaskId>, w: World, memo: Memo)
    requires OperandsFirst(DagOf(ast), tasks) && Tabulates(DagOf(ast), memo, tasks, w)
    ensures tasks != [] && tasks[|tasks| - 1] in memo && memo[tasks[|tasks| - 1]] == Eval(ast, w)
  {
    var g := DagOf(ast);
    AnyOrderEndsAtRoot(g, Records(ast), ast, tasks);
    GraphPreservesMeaning(g, Records(ast), ast, w);
    assert tasks[|tasks| - 1] in tasks;
  }

  // ---------- the two queries ----------

  datatype Decompositor = Decompositor(graph: Graph, tasks: seq<TaskId>)

  /** Any operands-first listing will do. */
  ghost predicate Valid(d: Decompositor) {
    && WellNumbered(d.graph)
    && d.graph.vertices != []
    && OperandsFirst(d.graph, d.tasks)
  }

  function VariableNames(g: Graph): map<TaskId, VariableId> {
    map v: nat | v < |g.vertices| && IsVariable(g.vertices[v].etype) && g.vertices[v].data.Name? :: g.vertices[v].data.id
  }

  /** Some variable vertex does not hold a name: reading it throws. */
  predicate HasConstant(g: Graph) {
    exists v :: 0 <= v < |g.vertices| && IsVariable(g.vertices[v].etype) && !g.vertices[v].data.Name?
  }

  predicate Ready(g: Graph, computed: set<TaskId>, v: TaskId)
    requires v < |g.edges|
  {
    forall k :: 0 <= k < |g.edges[v]| ==> g.edges[v][k] in computed
  }

  /** The tasks neither computed nor excluded whose operands are all computed, each with its
      ordered operands. */
  function Computable(g: Graph, computed: set<TaskId>, excluded: set<TaskId>): map<TaskId, seq<TaskId>> {
    map v: nat | v < |g.edges| && v !in computed && v !in excluded && Ready(g, computed, v) :: g.edges[v]
  }

  method GetIndependentTasks(d: Decompositor) returns (r: Option<map<TaskId, VariableId>>)
    requires Valid(d)
    ensures r.None? <==> HasConstant(d.graph)
    ensures r.Some? ==> r.value == VariableNames(d.graph)
    ensures r.Some? ==> forall v: nat :: v in r.value <==> v < |d.graph.vertices| && IsVariable(d.graph.vertices[v].etype)
    ensures r.Some? ==> forall v: nat :: v in r.value ==> d.graph.vertices[v].data == Name(r.value[v])
  {
    var g := d.graph;
    EnoughDistinct(d.tasks, |d.tasks|);
    var found: map<TaskId, VariableId> := map[];
    for i := 0 to |d.tasks|
      invariant forall v: nat :: v in found <==> v in d.tasks[..i] && IsVariable(g.vertices[v].etype)
      invariant forall v: nat :: v in found ==> g.vertices[v].data == Name(found[v])
    {
      var task := d.tasks[i];
      assert d.tasks[..i + 1] == d.tasks[..i] + [task];
      if IsVariable(g.vertices[task].etype) {
        if !g.vertices[task].data.Name? {
          return None;
        }
        found := found[task := g.vertices[task].data.id];
      }
    }
    assert d.tasks[..|d.tasks|] == d.tasks;
    assert forall v: nat :: v < |g.vertices| ==> v in d.tasks;
    assert found == VariableNames(g);
    r := Some(found);
  }

  method GetComputableTasks(d: Decompositor, computed: set<TaskId>, excluded: set<TaskId>) returns (r: map<TaskId, seq<TaskId>>)
    requires Valid(d)
    ensures r == Computable(d.graph, computed, excluded)
    ensures forall v: nat :: v in r <==>
              && v < |d.graph.vertices| && v !in computed && v !in excluded
              && forall k :: 0 <= k < |d.graph.edges[v]| ==> d.graph.edges[v][k] in computed
    ensures forall v: nat :: v in r ==> r[v] == d.graph.edges[v]
  {
    var g := d.graph;
    EnoughDistinct(d.tasks, |d.tasks|);
    r := map[];
    for i := 0 to |d.tasks|
      invariant forall v: nat :: v in r <==> v in d.tasks[..i] && v !in computed && v !in excluded && Ready(g, computed, v)
      invariant forall v: nat :: v in r ==> r[v] == g.edges[v]
    {
      var task := d.tasks[i];
      assert d.tasks[..i + 1] == d.tasks[..i] + [task];
      if task !in computed && task !in excluded && Ready(g, computed, task) {
        r := r[task := g.edges[task]];
      }
    }
    assert d.tasks[..|d.tasks|] == d.tasks;
    assert forall v: nat :: v < |g.vertices| ==> v in d.tasks;
  }

  /** Walk, build, sort. */
  method New(ast: Expr) returns (d: Decompositor)
    ensures d.graph == DagOf(ast) && d.tasks == UpTo(|d.graph.vertices|)
    ensures Valid(d) && PlanFor(d.graph, ast)
  {
    var visitor := new DagVisitor();
    visitor.PostorderTraverse(ast);
    RecordsOfAst(ast);
    OrderedIsComplete(Records(ast));
    var g := visitor.BuildGraph();
    OrderedIsWellNumbered(Records(ast));
    var tasks := TopologicalSort(g.value);
    d := Decompositor(g.value, tasks);
    DagIsPlan(DagOf(ast), Records(ast), ast);
  }

  // ---------- what the rest of the system relies on ----------

  /** Any set closed under operands that holds the root holds every vertex. */
  ghost predicate RootReachesAll(g: Graph) {
    g.vertices != [] &&
    forall done: set<nat> {:trigger ClosedUnderEdges(g, done)} ::
      ClosedUnderEdges(g, done) && Root(g) in done ==> forall v: nat :: v < |g.vertices| ==> v in done
  }

  ghost predicate Shaped(g: Graph)
    requires |g.edges| == |g.vertices|
  {
    forall v :: 0 <= v < |g.vertices| ==> |g.edges[v]| <= 2 && (IsVariable(g.vertices[v].etype) <==> g.edges[v] == [])
  }

  ghost predicate Means(g: Graph, ast: Expr)
    requires WellNumbered(g) && g.vertices != []
  {
    forall w :: EvalVertex(g, Root(g), w) == Eval(ast, w)
  }

  /** g is a plan for computing ast. */
  ghost predicate PlanFor(g: Graph, ast: Expr) {
    && WellNumbered(g)
    && RootReachesAll(g)
    && |g.edges| == |g.vertices| && Shaped(g)
    && Means(g, ast)
    && (IsVariable(g.vertices[Root(g)].etype) <==> IsVariable(GetType(ast)))
    && (HasConstant(g) <==> !NoConstants(ast))
  }

  lemma DagIsPlan(g: Graph, records: seq<Expr>, ast: Expr)
    requires IsDag(g, records, ast)
    ensures PlanFor(g, ast)
  {
    forall done: set<nat> | ClosedUnderEdges(g, done) && Root(g) in done
      ensures forall v: nat :: v < |g.vertices| ==> v in done
    {
      RootImpliesAll(g, records, ast, done);
    }
    forall v | 0 <= v < |g.vertices|
      ensures |g.edges[v]| <= 2 && (IsVariable(g.vertices[v].etype) <==> g.edges[v] == [])
    {
      EdgeIsOperand(g, records, ast, v);
    }
    forall w
      ensures EvalVertex(g, Root(g), w) == Eval(ast, w)
    {
      GraphPreservesMeaning(g, records, ast, w);
    }
    ConstantVertexIff(g, records, ast);
  }

  lemma {:induction false} ConstantInSubtrees(e: Expr)
    ensures !NoConstants(e) <==> exists s :: s in Subtrees(e) && s.ScalarConstExpr?
  {
    match e
    case Reduce(_, o) => ConstantInSubtrees(o);
    case MapExpr(_, l, r) => ConstantInSubtrees(l); ConstantInSubtrees(r);
    case ListOp(_, l, r) => ConstantInSubtrees(l); ConstantInSubtrees(r);
    case ScalarOpExpr(_, l, r) => ConstantInSubtrees(l); ConstantInSubtrees(r);
    case ScalarConstExpr(_) => assert e in Subtrees(e);
    case _ =>
  }

  lemma ConstantVertexIff(g: Graph, records: seq<Expr>, ast: Expr)
    requires IsDag(g, records, ast)
    ensures HasConstant(g) <==> !NoConstants(ast)
  {
    ConstantInSubtrees(ast);
    if !NoConstants(ast) {
      var s :| s in Subtrees(ast) && s.ScalarConstExpr?;
      assert s in records;
      var v :| 0 <= v < |records| && records[v] == s;
      assert g.vertices[v] == VertexOf(s);
    }
    if HasConstant(g) {
      var v :| 0 <= v < |g.vertices| && IsVariable(g.vertices[v].etype) && !g.vertices[v].data.Name?;
      assert g.vertices[v] == VertexOf(records[v]);
      assert records[v] in Subtrees(ast);
    }
  }
}
