/** Value numbering: a postorder walk keeps the first copy of every structurally distinct
    subtree, and the kept copies become the vertices of a graph with ordered operand edges.
 */
module ValueNumbering {
  import opened Domain
  import opened Expression

  predicate Distinct<T(==)>(s: seq<T>) {
    forall i, j :: 0 <= i < j < |s| ==> s[i] != s[j]
  }

  function IndexOf<T(==)>(s: seq<T>, x: T): (i: nat)
    requires x in s
    ensures i < |s| && s[i] == x && forall j :: 0 <= j < i ==> s[j] != x
  {
    if s[0] == x then 0 else 1 + IndexOf(s[1..], x)
  }

  // ---------- the walk ----------

  function Record(records: seq<Expr>, e: Expr): seq<Expr> {
    if e in records then records else records + [e]
  }

  function Walk(records: seq<Expr>, e: Expr): seq<Expr>
    decreases e
  {
    match e
    case Reduce(_, o) => Record(Walk(records, o), e)
    case MapExpr(_, l, r) => Record(Walk(Walk(records, l), r), e)
    case ListOp(_, l, r) => Record(Walk(Walk(records, l), r), e)
    case ScalarOpExpr(_, l, r) => Record(Walk(Walk(records, l), r), e)
    case _ => Record(records, e)
  }

  /** The records of one AST. */
  function Records(ast: Expr): seq<Expr> {
    Walk([], ast)
  }

  predicate AllRecorded(records: seq<Expr>, es: seq<Expr>) {
    forall k :: 0 <= k < |es| ==> es[k] in records
  }

  predicate OperandsBefore(records: seq<Expr>, i: nat)
    requires i < |records|
  {
    AllRecorded(records[..i], Operands(records[i]))
  }

  /** No duplicates, and every operand recorded before its user. */
  ghost predicate Ordered(records: seq<Expr>) {
    && Distinct(records)
    && forall i {:trigger OperandsBefore(records, i)} :: 0 <= i < |records| ==> OperandsBefore(records, i)
  }

  lemma RecordKeeps(records: seq<Expr>, e: Expr)
    requires Ordered(records) && AllRecorded(records, Operands(e))
    ensures Ordered(Record(records, e))
  {
    var w := Record(records, e);
    forall i | 0 <= i < |w|
      ensures OperandsBefore(w, i)
    {
      if i < |records| {
        assert w[..i] == records[..i];
        assert OperandsBefore(records, i);
      } else {
        assert w[..i] == records;
      }
    }
  }

  lemma {:induction false} WalkKeeps(records: seq<Expr>, e: Expr)
    requires Ordered(records)
    ensures Ordered(Walk(records, e))
    ensures records <= Walk(records, e)
    ensures forall x :: x in Walk(records, e) <==> x in records || x in Subtrees(e)
    decreases e
  {
    match e
    case Reduce(_, o) =>
      WalkKeeps(records, o);
      RecordKeeps(Walk(records, o), e);
    case MapExpr(_, l, r) =>
      WalkKeeps(records, l);
      WalkKeeps(Walk(records, l), r);
      RecordKeeps(Walk(Walk(records, l), r), e);
    case ListOp(_, l, r) =>
      WalkKeeps(records, l);
      WalkKeeps(Walk(records, l), r);
      RecordKeeps(Walk(Walk(records, l), r), e);
    case ScalarOpExpr(_, l, r) =>
      WalkKeeps(records, l);
      WalkKeeps(Walk(records, l), r);
      RecordKeeps(Walk(Walk(records, l), r), e);
    case _ =>
      RecordKeeps(records, e);
  }

  /** The distinct subtrees of ast and nothing else, operands first, ast itself last. */
  ghost predicate RecordsFor(records: seq<Expr>, ast: Expr) {
    && Ordered(records)
    && (forall x :: x in records <==> x in Subtrees(ast))
    && records != [] && records[|records| - 1] == ast
  }

  lemma RecordsOfAst(ast: Expr)
    ensures RecordsFor(Records(ast), ast)
  {
    WalkKeeps([], ast);
    match ast
    case Reduce(_, o) =>
      WalkKeeps([], o);
      NotInOperands(ast, o);
    case MapExpr(_, l, r) => LastOfBinary(ast, l, r);
    case ListOp(_, l, r) => LastOfBinary(ast, l, r);
    case ScalarOpExpr(_, l, r) => LastOfBinary(ast, l, r);
    case _ =>
  }

  lemma NotInOperands(e: Expr, o: Expr)
    requires o in Operands(e)
    ensures e !in Subtrees(o)
  {
    if e in Subtrees(o) {
      SubtreesNoLarger(o, e);
    }
  }

  lemma LastOfBinary(e: Expr, l: Expr, r: Expr)
    requires Operands(e) == [l, r]
    ensures e !in Walk(Walk([], l), r)
  {
    assert Operands(e)[0] == l && Operands(e)[1] == r;
    NotInOperands(e, l);
    NotInOperands(e, r);
    WalkKeeps([], l);
    WalkKeeps(Walk([], l), r);
  }

  // ---------- which node is recorded where ----------

  /** The nodes of e in postorder: those of the left operand, those of the right one, then e. */
  function Postorder(e: Expr): seq<Expr>
    decreases e
  {
    (if GetLhs(e).Some? then Postorder(GetLhs(e).value) else [])
    + (if GetRhs(e).Some? then Postorder(GetRhs(e).value) else [])
    + [e]
  }

  /** records are the elements of es without repetition, in the order of their first occurrences. */
  ghost predicate FirstOccurrences(records: seq<Expr>, es: seq<Expr>) {
    && Distinct(records)
    && (forall x :: x in records <==> x in es)
    && forall i, j :: 0 <= i < j < |records| && records[i] in es && records[j] in es ==> IndexOf(es, records[i]) < IndexOf(es, records[j])
  }

  lemma IndexOfPrefix(es: seq<Expr>, more: seq<Expr>, x: Expr)
    requires x in es
    ensures IndexOf(es + more, x) == IndexOf(es, x)
  {
    assert (es + more)[IndexOf(es, x)] == x;
    assert forall j :: 0 <= j < |es| ==> (es + more)[j] == es[j];
  }

  lemma RecordFirst(records: seq<Expr>, es: seq<Expr>, e: Expr)
    requires FirstOccurrences(records, es)
    ensures FirstOccurrences(Record(records, e), es + [e])
  {
    var records', es' := Record(records, e), es + [e];
    forall i, j | 0 <= i < j < |records'| && records'[i] in es' && records'[j] in es'
      ensures IndexOf(es', records'[i]) < IndexOf(es', records'[j])
    {
      assert records[i] in records;
      IndexOfPrefix(es, [e], records[i]);
      if j < |records| {
        assert records[j] in records;
        IndexOfPrefix(es, [e], records[j]);
      } else {
        NewIsLast(es, e);
      }
    }
  }

  lemma NewIsLast(es: seq<Expr>, e: Expr)
    requires e !in es
    ensures IndexOf(es + [e], e) == |es|
  {
    assert forall j :: 0 <= j < |es| ==> (es + [e])[j] == es[j];
  }

  /** Walking e on top of the first occurrences in es gives those in es followed by e's postorder. */
  lemma {:induction false} WalkInPostorder(records: seq<Expr>, es: seq<Expr>, e: Expr)
    requires FirstOccurrences(records, es)
    ensures FirstOccurrences(Walk(records, e), es + Postorder(e))
    decreases e, 1
  {
    match e
    case Reduce(_, o) =>
      WalkInPostorder(records, es, o);
      RecordFirst(Walk(records, o), es + Postorder(o), e);
      Regroup(es, Postorder(o), [], e);
    case MapExpr(_, x, y) => WalkBinary(records, es, e, x, y);
    case ListOp(_, x, y) => WalkBinary(records, es, e, x, y);
    case ScalarOpExpr(_, x, y) => WalkBinary(records, es, e, x, y);
    case _ =>
      RecordFirst(records, es, e);
      Regroup(es, [], [], e);
  }

  lemma Regroup(es: seq<Expr>, left: seq<Expr>, right: seq<Expr>, e: Expr)
    ensures es + (left + right + [e]) == es + left + right + [e]
    ensures es + left + [] == es + left && es + [] == es
  {
  }

  lemma {:induction false} WalkBinary(records: seq<Expr>, es: seq<Expr>, e: Expr, l: Expr, r: Expr)
    requires FirstOccurrences(records, es) && l < e && r < e
    ensures FirstOccurrences(Record(Walk(Walk(records, l), r), e), es + (Postorder(l) + Postorder(r) + [e]))
    decreases e, 0
  {
    WalkInPostorder(records, es, l);
    WalkInPostorder(Walk(records, l), es + Postorder(l), r);
    RecordFirst(Walk(Walk(records, l), r), es + Postorder(l) + Postorder(r), e);
    Regroup(es, Postorder(l), Postorder(r), e);
  }

  /** The records of an AST are the first occurrences in its postorder, in that order. */
  lemma RecordsInPostorder(ast: Expr)
    ensures FirstOccurrences(Records(ast), Postorder(ast))
  {
    WalkInPostorder([], [], ast);
    NothingBefore(Postorder(ast));
  }

  lemma NothingBefore(es: seq<Expr>)
    ensures [] + es == es
  {
  }

  // ---------- the graph ----------

  datatype Vertex = Vertex(etype: ExprType, data: ExprData)

  /** vecS storage: vertices are numbered by position, edges[v] lists the targets of v in the
      order they were added, repetitions kept. */
  datatype Graph = Graph(vertices: seq<Vertex>, edges: seq<seq<nat>>)

  function VertexOf(e: Expr): Vertex {
    Vertex(GetType(e), GetData(e))
  }

  /** Every operand of every record is itself recorded. */
  predicate Complete(records: seq<Expr>) {
    forall i {:trigger HasOperands(records, i)} :: 0 <= i < |records| ==> HasOperands(records, i)
  }

  predicate HasOperands(records: seq<Expr>, i: nat)
    requires i < |records|
  {
    AllRecorded(records, Operands(records[i]))
  }

  function Targets(records: seq<Expr>, es: seq<Expr>): (r: seq<nat>)
    requires AllRecorded(records, es)
    ensures |r| == |es| && forall k :: 0 <= k < |r| ==> r[k] == IndexOf(records, es[k])
  {
    seq(|es|, k requires 0 <= k < |es| => IndexOf(records, es[k]))
  }

  function EdgesFrom(records: seq<Expr>, i: nat): seq<nat>
    requires i < |records| && HasOperands(records, i)
  {
    Targets(records, Operands(records[i]))
  }

  function GraphOf(records: seq<Expr>): Graph
    requires Complete(records)
  {
    Graph(seq(|records|, i requires 0 <= i < |records| => VertexOf(records[i])),
          seq(|records|, i requires 0 <= i < |records| && HasOperands(records, i) => EdgesFrom(records, i)))
  }

  lemma OperandsAreBelow(records: seq<Expr>, i: nat)
    requires Ordered(records) && i < |records|
    ensures HasOperands(records, i)
    ensures forall k :: 0 <= k < |EdgesFrom(records, i)| ==> EdgesFrom(records, i)[k] < i
  {
    assert OperandsBefore(records, i);
    forall k | 0 <= k < |Operands(records[i])|
      ensures Operands(records[i])[k] in records && IndexOf(records, Operands(records[i])[k]) < i
    {
      var j :| 0 <= j < i && records[..i][j] == Operands(records[i])[k];
      assert records[j] == Operands(records[i])[k];
    }
  }

  lemma OrderedIsComplete(records: seq<Expr>)
    requires Ordered(records)
    ensures Complete(records)
  {
    forall i | 0 <= i < |records|
      ensures HasOperands(records, i)
    {
      OperandsAreBelow(records, i);
    }
  }

  /** The first i records have their edges, the others none yet. */
  ghost predicate ConnectedUpTo(records: seq<Expr>, edges: seq<seq<nat>>, i: nat) {
    && |edges| == |records|
    && (forall j {:trigger HasOperands(records, j)} :: 0 <= j < i && j < |records| ==> HasOperands(records, j) && edges[j] == EdgesFrom(records, j))
    && (forall j :: i <= j < |records| ==> edges[j] == [])
  }

  lemma ConnectNext(records: seq<Expr>, edges: seq<seq<nat>>, i: nat)
    requires ConnectedUpTo(records, edges, i) && i < |records| && HasOperands(records, i)
    ensures ConnectedUpTo(records, edges[i := EdgesFrom(records, i)], i + 1)
  {
    var edges' := edges[i := EdgesFrom(records, i)];
    forall j | 0 <= j < i + 1
      ensures HasOperands(records, j) && edges'[j] == EdgesFrom(records, j)
    {
      if j < i {
        assert HasOperands(records, j);
        assert edges'[j] == edges[j];
      }
    }
  }

  lemma AllConnected(records: seq<Expr>, edges: seq<seq<nat>>)
    requires ConnectedUpTo(records, edges, |records|)
    ensures Complete(records) && edges == GraphOf(records).edges
  {
    assert Complete(records);
    var all := GraphOf(records).edges;
    forall j | 0 <= j < |records|
      ensures edges[j] == all[j]
    {
      assert HasOperands(records, j);
    }
    assert edges == all;
  }

  class DagVisitor {
    var records: seq<Expr>

    constructor ()
      ensures records == []
    {
      records := [];
    }

    method Find(e: Expr) returns (i: nat)
      ensures i <= |records|
      ensures i < |records| <==> e in records
      ensures e in records ==> i == IndexOf(records, e)
    {
      i := 0;
      while i < |records|
        invariant i <= |records|
        invariant forall j :: 0 <= j < i ==> records[j] != e
      {
        EqualIsStructural(records[i], e);
        if Equal(records[i], e) {
          return;
        }
        i := i + 1;
      }
    }

    method Visit(e: Expr)
      modifies this
      ensures records == Record(old(records), e)
    {
      var i := Find(e);
      if i < |records| {
        return;
      }
      records := records + [e];
    }

    method PostorderTraverse(e: Expr)
      modifies this
      ensures records == Walk(old(records), e)
      ensures old(records) == [] ==> FirstOccurrences(records, Postorder(e))
      decreases e
    {
      if records == [] {
        RecordsInPostorder(e);
      }
      match e
      case Reduce(_, o) =>
        PostorderTraverse(o);
        Visit(e);
      case MapExpr(_, l, r) =>
        PostorderTraverse(l);
        PostorderTraverse(r);
        Visit(e);
      case ListOp(_, l, r) =>
        PostorderTraverse(l);
        PostorderTraverse(r);
        Visit(e);
      case ScalarOpExpr(_, l, r) =>
        PostorderTraverse(l);
        PostorderTraverse(r);
        Visit(e);
      case _ =>
        Visit(e);
    }

    /** Adds the edge from root to the vertex of operand; fails where the lookup of an unrecorded
        operand would throw. */
    method AddEdge(root: nat, operand: Expr, descriptors: map<nat, nat>, edges: seq<seq<nat>>)
      returns (r: Option<seq<seq<nat>>>)
      requires |edges| == |records| && root < |records|
      requires forall i: nat :: i in descriptors <==> i < |records|
      requires forall i: nat :: i < |records| ==> descriptors[i] == i
      ensures r.Some? <==> operand in records
      ensures r.Some? ==> r.value == edges[root := edges[root] + [IndexOf(records, operand)]]
    {
      var i := Find(operand);
      if i !in descriptors {
        return None;
      }
      r := Some(edges[descriptors[root] := edges[descriptors[root]] + [descriptors[i]]]);
    }

    /** The left edge, then the right edge, of the record at position i. */
    method AddOperandEdges(i: nat, descriptors: map<nat, nat>, edges: seq<seq<nat>>)
      returns (r: Option<seq<seq<nat>>>)
      requires |edges| == |records| && i < |records| && edges[i] == []
      requires forall j: nat :: j in descriptors <==> j < |records|
      requires forall j: nat :: j < |records| ==> descriptors[j] == j
      ensures r.Some? <==> HasOperands(records, i)
      ensures r.Some? ==> r.value == edges[i := EdgesFrom(records, i)]
    {
      var lhs, rhs := GetLhs(records[i]), GetRhs(records[i]);
      ghost var ops := Operands(records[i]);
      assert ops == (if lhs.None? then [] else if rhs.None? then [lhs.value] else [lhs.value, rhs.value]);
      r := Some(edges);
      if lhs.Some? {
        assert ops[0] == lhs.value;
        r := AddEdge(i, lhs.value, descriptors, edges);
        if r.None? {
          return;
        }
      }
      if rhs.Some? {
        assert ops[1] == rhs.value;
        r := AddEdge(i, rhs.value, descriptors, r.value);
        if r.None? {
          return;
        }
      }
      assert r.value[i] == EdgesFrom(records, i);
    }

    /** The first loop: a vertex per record, numbered by position. */
    method AddVertices() returns (vertices: seq<Vertex>, descriptors: map<nat, nat>)
      ensures |vertices| == |records| && forall i :: 0 <= i < |records| ==> vertices[i] == VertexOf(records[i])
      ensures forall i: nat :: i in descriptors <==> i < |records|
      ensures forall i: nat :: i < |records| ==> descriptors[i] == i
    {
      vertices, descriptors := [], map[];
      for i := 0 to |records|
        invariant |vertices| == i
        invariant forall j :: 0 <= j < i ==> vertices[j] == VertexOf(records[j])
        invariant forall j: nat :: j in descriptors <==> j < i
        invariant forall j: nat :: j < i ==> descriptors[j] == j
      {
        vertices := vertices + [VertexOf(records[i])];
        descriptors := descriptors[i := i];
      }
    }

    /** The second loop: the operand edges of every record; fails where some operand is unrecorded. */
    method AddEdges(descriptors: map<nat, nat>) returns (r: Option<seq<seq<nat>>>)
      requires forall i: nat :: i in descriptors <==> i < |records|
      requires forall i: nat :: i < |records| ==> descriptors[i] == i
      ensures r.Some? <==> Complete(records)
      ensures r.Some? ==> r.value == GraphOf(records).edges
    {
      var edges: seq<seq<nat>> := seq(|records|, _ => []);
      for i := 0 to |records|
        invariant ConnectedUpTo(records, edges, i)
      {
        var more := AddOperandEdges(i, descriptors, edges);
        if more.None? {
          return None;
        }
        ConnectNext(records, edges, i);
        edges := more.value;
      }
      AllConnected(records, edges);
      r := Some(edges);
    }

    method BuildGraph() returns (g: Option<Graph>)
      ensures g.Some? <==> Complete(records)
      ensures g.Some? ==> g.value == GraphOf(records)
    {
      var vertices, descriptors := AddVertices();
      var edges := AddEdges(descriptors);
      if edges.None? {
        return None;
      }
      assert vertices == GraphOf(records).vertices;
      g := Some(Graph(vertices, edges.value));
    }
  }
}
