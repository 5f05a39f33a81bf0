/** The abstract syntax tree a client sends: four families of operations over list and scalar
    variables. Every operation carries all its operands.
 */
module Expression {
  import opened Domain

  datatype ReduceType = RMin | RMax | RMul | RSum | RSize
  datatype MapType = MAdd | MMul | MDiv
  datatype ListOpType = LAdd | LMul | LDiv | LDot
  datatype ScalarOpType = SAdd | SMul | SDiv | SMax | SMin

  datatype Expr =
    | Reduce(rtype: ReduceType, operand: Expr)
    | MapExpr(mtype: MapType, lhs: Expr, rhs: Expr)
    | ListOp(ltype: ListOpType, lhs: Expr, rhs: Expr)
    | ScalarOpExpr(stype: ScalarOpType, lhs: Expr, rhs: Expr)
    | ListExpr(l: VariableId)
    | ScalarConstExpr(x: int)
    | ScalarVarExpr(v: VariableId)

  /** The variant stored with a node: nothing, a variable's name or a constant. */
  datatype ExprData = Nothing | Name(id: VariableId) | Constant(c: int)

  function GetType(e: Expr): ExprType {
    match e
    case Reduce(t, _) => (match t case RMin => ReMin case RMax => ReMax case RMul => ReMul case RSum => ReSum case RSize => ReSize)
    case MapExpr(t, _, _) => (match t case MAdd => MeAdd case MMul => MeMul case MDiv => MeDiv)
    case ListOp(t, _, _) => (match t case LAdd => LoAdd case LMul => LoMul case LDiv => LoDiv case LDot => LoDot)
    case ScalarOpExpr(t, _, _) =>
      (match t case SAdd => SoAdd case SMul => SoMul case SDiv => SoDiv case SMax => SoMax case SMin => SoMin)
    case ListExpr(_) => List
    case ScalarConstExpr(_) => ScalarConst
    case ScalarVarExpr(_) => ScalarVar
  }

  function GetLhs(e: Expr): (r: Option<Expr>)
    ensures r.Some? ==> r.value < e
  {
    match e
    case Reduce(_, o) => Some(o)
    case MapExpr(_, l, _) => Some(l)
    case ListOp(_, l, _) => Some(l)
    case ScalarOpExpr(_, l, _) => Some(l)
    case _ => None
  }

  function GetRhs(e: Expr): (r: Option<Expr>)
    ensures r.Some? ==> r.value < e
  {
    match e
    case MapExpr(_, _, r) => Some(r)
    case ListOp(_, _, r) => Some(r)
    case ScalarOpExpr(_, _, r) => Some(r)
    case _ => None
  }

  function GetData(e: Expr): ExprData {
    match e
    case ListExpr(l) => Name(l)
    case ScalarConstExpr(x) => Constant(x)
    case ScalarVarExpr(v) => Name(v)
    case _ => Nothing
  }

  /** The operands present, left before right. */
  function Operands(e: Expr): (s: seq<Expr>)
    ensures |s| <= 2
    ensures forall i :: 0 <= i < |s| ==> s[i] < e
    ensures s == [] <==> IsVariable(GetType(e))
  {
    match e
    case Reduce(_, o) => [o]
    case MapExpr(_, l, r) => [l, r]
    case ListOp(_, l, r) => [l, r]
    case ScalarOpExpr(_, l, r) => [l, r]
    case _ => []
  }

  /** operator==: the dynamic types agree, then the operation types, then the operands in order. */
  predicate Equal(a: Expr, b: Expr) {
    match (a, b)
    case (Reduce(t, o), Reduce(t', o')) => t == t' && Equal(o, o')
    case (MapExpr(t, l, r), MapExpr(t', l', r')) => t == t' && Equal(l, l') && Equal(r, r')
    case (ListOp(t, l, r), ListOp(t', l', r')) => t == t' && Equal(l, l') && Equal(r, r')
    case (ScalarOpExpr(t, l, r), ScalarOpExpr(t', l', r')) => t == t' && Equal(l, l') && Equal(r, r')
    case (ListExpr(x), ListExpr(x')) => x == x'
    case (ScalarConstExpr(x), ScalarConstExpr(x')) => x == x'
    case (ScalarVarExpr(x), ScalarVarExpr(x')) => x == x'
    case _ => false
  }

  lemma {:induction false} EqualIsStructural(a: Expr, b: Expr)
    ensures Equal(a, b) <==> a == b
  {
    match (a, b)
    case (Reduce(_, o), Reduce(_, o')) => EqualIsStructural(o, o');
    case (MapExpr(_, l, r), MapExpr(_, l', r')) => EqualIsStructural(l, l'); EqualIsStructural(r, r');
    case (ListOp(_, l, r), ListOp(_, l', r')) => EqualIsStructural(l, l'); EqualIsStructural(r, r');
    case (ScalarOpExpr(_, l, r), ScalarOpExpr(_, l', r')) => EqualIsStructural(l, l'); EqualIsStructural(r, r');
    case _ =>
  }

  /** The factory: a node from its type, its operands and its data. None where the source would
      store a null operand or read an absent variable or constant. */
  function New(t: ExprType, data: ExprData, operands: seq<Expr>): Option<Expr> {
    match t
    case ReMin => if |operands| >= 1 then Some(Reduce(RMin, operands[0])) else None
    case ReMax => if |operands| >= 1 then Some(Reduce(RMax, operands[0])) else None
    case ReMul => if |operands| >= 1 then Some(Reduce(RMul, operands[0])) else None
    case ReSum => if |operands| >= 1 then Some(Reduce(RSum, operands[0])) else None
    case ReSize => if |operands| >= 1 then Some(Reduce(RSize, operands[0])) else None
    case MeAdd => if |operands| >= 2 then Some(MapExpr(MAdd, operands[0], operands[1])) else None
    case MeMul => if |operands| >= 2 then Some(MapExpr(MMul, operands[0], operands[1])) else None
    case MeDiv => if |operands| >= 2 then Some(MapExpr(MDiv, operands[0], operands[1])) else None
    case LoAdd => if |operands| >= 2 then Some(ListOp(LAdd, operands[0], operands[1])) else None
    case LoMul => if |operands| >= 2 then Some(ListOp(LMul, operands[0], operands[1])) else None
    case LoDiv => if |operands| >= 2 then Some(ListOp(LDiv, operands[0], operands[1])) else None
    case LoDot => if |operands| >= 2 then Some(ListOp(LDot, operands[0], operands[1])) else None
    case SoAdd => if |operands| >= 2 then Some(ScalarOpExpr(SAdd, operands[0], operands[1])) else None
    case SoMul => if |operands| >= 2 then Some(ScalarOpExpr(SMul, operands[0], operands[1])) else None
    case SoDiv => if |operands| >= 2 then Some(ScalarOpExpr(SDiv, operands[0], operands[1])) else None
    case SoMax => if |operands| >= 2 then Some(ScalarOpExpr(SMax, operands[0], operands[1])) else None
    case SoMin => if |operands| >= 2 then Some(ScalarOpExpr(SMin, operands[0], operands[1])) else None
    case List => if data.Name? then Some(ListExpr(data.id)) else None
    case ScalarConst => if data.Constant? then Some(ScalarConstExpr(data.c)) else None
    case ScalarVar => if data.Name? then Some(ScalarVarExpr(data.id)) else None
  }

  /** Type, data and ordered operands determine a node. */
  lemma NewOfParts(e: Expr)
    ensures New(GetType(e), GetData(e), Operands(e)) == Some(e)
  {
  }

  /** The factory's node is the one of that type whose operands are the first of those given and, for a
      variable or constant, whose data is the one given; where there is none, it fails. */
  lemma NewGives(t: ExprType, data: ExprData, operands: seq<Expr>, e: Expr)
    ensures New(t, data, operands) == Some(e) <==>
            GetType(e) == t && Operands(e) <= operands && (IsVariable(t) ==> GetData(e) == data)
  {
    if Operands(e) <= operands {
      assert forall k :: 0 <= k < |Operands(e)| ==> operands[k] == Operands(e)[k];
    }
  }

  function Subtrees(e: Expr): (s: set<Expr>)
    ensures e in s
  {
    match e
    case Reduce(_, o) => Subtrees(o) + {e}
    case MapExpr(_, l, r) => Subtrees(l) + Subtrees(r) + {e}
    case ListOp(_, l, r) => Subtrees(l) + Subtrees(r) + {e}
    case ScalarOpExpr(_, l, r) => Subtrees(l) + Subtrees(r) + {e}
    case _ => {e}
  }

  function Size(e: Expr): nat {
    match e
    case Reduce(_, o) => 1 + Size(o)
    case MapExpr(_, l, r) => 1 + Size(l) + Size(r)
    case ListOp(_, l, r) => 1 + Size(l) + Size(r)
    case ScalarOpExpr(_, l, r) => 1 + Size(l) + Size(r)
    case _ => 1
  }

  lemma {:induction false} SubtreesNoLarger(e: Expr, s: Expr)
    requires s in Subtrees(e)
    ensures Size(s) <= Size(e)
  {
    if s != e {
      match e
      case Reduce(_, o) => SubtreesNoLarger(o, s);
      case MapExpr(_, l, r) => if s in Subtrees(l) { SubtreesNoLarger(l, s); } else { SubtreesNoLarger(r, s); }
      case ListOp(_, l, r) => if s in Subtrees(l) { SubtreesNoLarger(l, s); } else { SubtreesNoLarger(r, s); }
      case ScalarOpExpr(_, l, r) => if s in Subtrees(l) { SubtreesNoLarger(l, s); } else { SubtreesNoLarger(r, s); }
      case _ =>
    }
  }

  /** No scalar_const leaf anywhere: the ASTs whose decomposition succeeds. */
  predicate NoConstants(e: Expr) {
    match e
    case Reduce(_, o) => NoConstants(o)
    case MapExpr(_, l, r) => NoConstants(l) && NoConstants(r)
    case ListOp(_, l, r) => NoConstants(l) && NoConstants(r)
    case ScalarOpExpr(_, l, r) => NoConstants(l) && NoConstants(r)
    case ScalarConstExpr(_) => false
    case _ => true
  }

  // ---------- meaning ----------

  /** What an expression's value depends on: what an operation computes from its operands (the
      worker's Domain.Apply; None where it has no defined result) and the stored variables. */
  datatype World = World(apply: (ExprType, seq<Value>) -> Option<Value>, vars: map<VariableId, Value>)

  function EvalData(data: ExprData, w: World): Option<Value> {
    match data
    case Nothing => None
    case Name(id) => if id in w.vars then Some(w.vars[id]) else None
    case Constant(c) => Some(ScalarValue(c))
  }

  /** An operation on operands that may be undefined. */
  function ApplyTo(w: World, t: ExprType, operands: seq<Option<Value>>): Option<Value> {
    var vs := Collect(operands);
    if vs.None? then None else w.apply(t, vs.value)
  }

  /** The reference meaning: plain recursive evaluation. */
  function Eval(e: Expr, w: World): Option<Value> {
    match e
    case Reduce(_, o) => ApplyTo(w, GetType(e), [Eval(o, w)])
    case MapExpr(_, l, r) => ApplyTo(w, GetType(e), [Eval(l, w), Eval(r, w)])
    case ListOp(_, l, r) => ApplyTo(w, GetType(e), [Eval(l, w), Eval(r, w)])
    case ScalarOpExpr(_, l, r) => ApplyTo(w, GetType(e), [Eval(l, w), Eval(r, w)])
    case _ => EvalData(GetData(e), w)
  }

  function OperandValues(e: Expr, w: World): (vs: seq<Option<Value>>)
    ensures |vs| == |Operands(e)| && forall k :: 0 <= k < |vs| ==> vs[k] == Eval(Operands(e)[k], w)
  {
    seq(|Operands(e)|, k requires 0 <= k < |Operands(e)| => Eval(Operands(e)[k], w))
  }

  lemma EvalFromOperands(e: Expr, w: World)
    requires !IsVariable(GetType(e))
    ensures Eval(e, w) == ApplyTo(w, GetType(e), OperandValues(e, w))
  {
    var ops, vs := Operands(e), OperandValues(e, w);
    assert vs == if |ops| == 1 then [Eval(ops[0], w)] else [Eval(ops[0], w), Eval(ops[1], w)];
  }
}
