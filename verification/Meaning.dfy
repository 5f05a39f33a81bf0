/** What an expression means, said by its constructors alone: which value it denotes, given the values of
    the stored variables. No type code, no operand list and none of the worker's functions occur here.
 */
module Meaning {
  import opened Domain
  import opened Expression

  ghost predicate ReduceMeans(t: ReduceType, l: seq<int>, c: int) {
    match t
    case RMin => l != [] && c == l[0]
    case RMax => l != [] && c == l[0]
    case RMul => IsReduced(Mul, 1, l, c)
    case RSum => IsReduced(Add, 0, l, c)
    case RSize => IsSize(l, c)
  }

  predicate MapMeans(t: MapType, a: int, b: int, c: int) {
    match t
    case MAdd => IsSum(a, b, c)
    case MMul => IsProduct(a, b, c)
    case MDiv => IsRatio(a, b, c)
  }

  predicate PositionsMean(t: MapType, l: seq<int>, y: int, v: seq<int>) {
    |l| == |v| && forall i :: 0 <= i < |l| ==> MapMeans(t, l[i], y, v[i])
  }

  predicate ListMeans(t: ListOpType, l: seq<int>, r: seq<int>, v: Value) {
    match t
    case LDot => v.ScalarValue? && IsDot(l, r, v.scalar)
    case LAdd => v.ListValue? && |l| == |r| == |v.list| && forall i :: 0 <= i < |l| ==> IsSum(l[i], r[i], v.list[i])
    case LMul => v.ListValue? && |l| == |r| == |v.list| && forall i :: 0 <= i < |l| ==> IsProduct(l[i], r[i], v.list[i])
    case LDiv => v.ListValue? && |l| == |r| == |v.list| && forall i :: 0 <= i < |l| ==> IsRatio(l[i], r[i], v.list[i])
  }

  predicate ScalarMeans(t: ScalarOpType, a: int, b: int, c: int) {
    match t
    case SAdd => IsSum(a, b, c)
    case SMul => IsProduct(a, b, c)
    case SDiv => IsRatio(a, b, c)
    case SMax => IsLarger(a, b, c)
    case SMin => IsSmaller(a, b, c)
  }

  /** e has the value v. */
  ghost predicate Denotes(e: Expr, vars: map<VariableId, Value>, v: Value) {
    match e
    case Reduce(t, o) =>
      v.ScalarValue? && exists l :: Denotes(o, vars, ListValue(l)) && ReduceMeans(t, l, v.scalar)
    case MapExpr(t, l, r) =>
      v.ListValue? && exists x, y :: Denotes(l, vars, ListValue(x)) && Denotes(r, vars, ScalarValue(y)) && PositionsMean(t, x, y, v.list)
    case ListOp(t, l, r) =>
      exists x, y :: Denotes(l, vars, ListValue(x)) && Denotes(r, vars, ListValue(y)) && ListMeans(t, x, y, v)
    case ScalarOpExpr(t, l, r) =>
      v.ScalarValue? && exists x, y :: Denotes(l, vars, ScalarValue(x)) && Denotes(r, vars, ScalarValue(y)) && ScalarMeans(t, x, y, v.scalar)
    case ListExpr(id) => id in vars && v == vars[id]
    case ScalarVarExpr(id) => id in vars && v == vars[id]
    case ScalarConstExpr(c) => v == ScalarValue(c)
  }

  // ---------- the worker's operations by type code ----------

  lemma ReduceCode(t: ReduceType, o: Expr, x: Value, v: Value)
    ensures Apply(GetType(Reduce(t, o)), [x]) == Some(v) <==> x.ListValue? && v.ScalarValue? && ReduceMeans(t, x.list, v.scalar)
  {
    ApplyGives(GetType(Reduce(t, o)), [x], v);
  }

  lemma MapCode(t: MapType, l: Expr, r: Expr, x: Value, y: Value, v: Value)
    ensures Apply(GetType(MapExpr(t, l, r)), [x, y]) == Some(v) <==>
            x.ListValue? && y.ScalarValue? && v.ListValue? && PositionsMean(t, x.list, y.scalar, v.list)
  {
    ApplyGives(GetType(MapExpr(t, l, r)), [x, y], v);
  }

  lemma ListCode(t: ListOpType, l: Expr, r: Expr, x: Value, y: Value, v: Value)
    ensures Apply(GetType(ListOp(t, l, r)), [x, y]) == Some(v) <==> x.ListValue? && y.ListValue? && ListMeans(t, x.list, y.list, v)
  {
    ApplyGives(GetType(ListOp(t, l, r)), [x, y], v);
  }

  lemma ScalarCode(t: ScalarOpType, l: Expr, r: Expr, x: Value, y: Value, v: Value)
    ensures Apply(GetType(ScalarOpExpr(t, l, r)), [x, y]) == Some(v) <==>
            x.ScalarValue? && y.ScalarValue? && v.ScalarValue? && ScalarMeans(t, x.scalar, y.scalar, v.scalar)
  {
    ApplyGives(GetType(ScalarOpExpr(t, l, r)), [x, y], v);
  }

  // ---------- the evaluation that dispatching is checked against ----------

  function TheWorker(vars: map<VariableId, Value>): World {
    World(Apply, vars)
  }

  lemma OneOperand(vars: map<VariableId, Value>, t: ExprType, x: Option<Value>)
    ensures ApplyTo(TheWorker(vars), t, [x]) == if x.None? then None else Apply(t, [x.value])
  {
    if x.Some? {
      assert Collect([x]).value == [x.value];
    } else {
      assert [x][0].None?;
    }
  }

  lemma TwoOperands(vars: map<VariableId, Value>, t: ExprType, x: Option<Value>, y: Option<Value>)
    ensures ApplyTo(TheWorker(vars), t, [x, y]) == if x.None? || y.None? then None else Apply(t, [x.value, y.value])
  {
    if x.Some? && y.Some? {
      assert Collect([x, y]).value == [x.value, y.value];
    } else {
      assert [x, y][0].None? || [x, y][1].None?;
    }
  }

  /** The values of e by evaluation are the values it denotes. */
  ghost predicate Agrees(e: Expr, vars: map<VariableId, Value>) {
    forall v {:trigger Denotes(e, vars, v)} :: Eval(e, TheWorker(vars)) == Some(v) <==> Denotes(e, vars, v)
  }

  lemma ReduceAgrees(t: ReduceType, o: Expr, vars: map<VariableId, Value>, v: Value)
    requires Agrees(o, vars)
    ensures Eval(Reduce(t, o), TheWorker(vars)) == Some(v) <==> Denotes(Reduce(t, o), vars, v)
  {
    var x := Eval(o, TheWorker(vars));
    OneOperand(vars, GetType(Reduce(t, o)), x);
    if x.Some? {
      ReduceCode(t, o, x.value, v);
    }
  }

  lemma MapAgrees(t: MapType, l: Expr, r: Expr, vars: map<VariableId, Value>, v: Value)
    requires Agrees(l, vars) && Agrees(r, vars)
    ensures Eval(MapExpr(t, l, r), TheWorker(vars)) == Some(v) <==> Denotes(MapExpr(t, l, r), vars, v)
  {
    var x, y := Eval(l, TheWorker(vars)), Eval(r, TheWorker(vars));
    TwoOperands(vars, GetType(MapExpr(t, l, r)), x, y);
    if x.Some? && y.Some? {
      MapCode(t, l, r, x.value, y.value, v);
    }
  }

  lemma ListAgrees(t: ListOpType, l: Expr, r: Expr, vars: map<VariableId, Value>, v: Value)
    requires Agrees(l, vars) && Agrees(r, vars)
    ensures Eval(ListOp(t, l, r), TheWorker(vars)) == Some(v) <==> Denotes(ListOp(t, l, r), vars, v)
  {
    var x, y := Eval(l, TheWorker(vars)), Eval(r, TheWorker(vars));
    TwoOperands(vars, GetType(ListOp(t, l, r)), x, y);
    if x.Some? && y.Some? {
      ListCode(t, l, r, x.value, y.value, v);
    }
  }

  lemma ScalarAgrees(t: ScalarOpType, l: Expr, r: Expr, vars: map<VariableId, Value>, v: Value)
    requires Agrees(l, vars) && Agrees(r, vars)
    ensures Eval(ScalarOpExpr(t, l, r), TheWorker(vars)) == Some(v) <==> Denotes(ScalarOpExpr(t, l, r), vars, v)
  {
    var x, y := Eval(l, TheWorker(vars)), Eval(r, TheWorker(vars));
    TwoOperands(vars, GetType(ScalarOpExpr(t, l, r)), x, y);
    if x.Some? && y.Some? {
      ScalarCode(t, l, r, x.value, y.value, v);
    }
  }

  /** Evaluation with the worker's operations gives exactly the value an expression denotes. */
  lemma {:induction false} EvalDenotes(e: Expr, vars: map<VariableId, Value>)
    ensures forall v :: Eval(e, World(Apply, vars)) == Some(v) <==> Denotes(e, vars, v)
    decreases e
  {
    match e {
      case Reduce(_, o) => EvalDenotes(o, vars);
      case MapExpr(_, l, r) => EvalDenotes(l, vars); EvalDenotes(r, vars);
      case ListOp(_, l, r) => EvalDenotes(l, vars); EvalDenotes(r, vars);
      case ScalarOpExpr(_, l, r) => EvalDenotes(l, vars); EvalDenotes(r, vars);
      case _ =>
    }
    forall v
      ensures Eval(e, World(Apply, vars)) == Some(v) <==> Denotes(e, vars, v)
    {
      match e {
        case Reduce(t, o) => ReduceAgrees(t, o, vars, v);
        case MapExpr(t, l, r) => MapAgrees(t, l, r, vars, v);
        case ListOp(t, l, r) => ListAgrees(t, l, r, vars, v);
        case ScalarOpExpr(t, l, r) => ScalarAgrees(t, l, r, vars, v);
        case _ =>
      }
    }
  }
}
