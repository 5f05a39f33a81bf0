/** Scalars, lists and the arithmetic a worker applies to operands.

    A scalar is a 32-bit C++ int. Signed overflow, division by zero, lists of unequal
    length and operands of the wrong kind have no defined result in the source, so an
    operation is a partial function here: None stands for "no defined result".
 */
module Domain {
  datatype Option<+T> = None | Some(value: T)

  /** All the values, if every one is present. */
  function Collect<T>(s: seq<Option<T>>): Option<seq<T>> {
    if forall i :: 0 <= i < |s| ==> s[i].Some? then
      Some(seq(|s|, i requires 0 <= i < |s| && s[i].Some? => s[i].value))
    else
      None
  }

  const INT_MIN: int := -0x8000_0000
  const INT_MAX: int := 0x7FFF_FFFF

  predicate Fits(x: int) {
    INT_MIN <= x <= INT_MAX
  }

  function Checked(x: int): Option<int> {
    if Fits(x) then Some(x) else None
  }

  /** Conversion of an unsigned size to int, modulo 2^32. */
  function ToScalar(n: nat): int {
    (n - INT_MIN) % 0x1_0000_0000 + INT_MIN
  }

  datatype Value = ListValue(list: seq<int>) | ScalarValue(scalar: int)

  type VariableId = string

  datatype ExprType =
    | ReMin | ReMax | ReMul | ReSum | ReSize
    | MeAdd | MeMul | MeDiv
    | LoAdd | LoMul | LoDiv | LoDot
    | SoAdd | SoMul | SoDiv | SoMax | SoMin
    | List | ScalarConst | ScalarVar

  predicate IsVariable(t: ExprType) {
    t.List? || t.ScalarConst? || t.ScalarVar?
  }

  // ---------- scalar operations ----------

  datatype ScalarOp = Add | Mul | Div | Max | Min

  function Abs(x: int): nat {
    if x < 0 then -x else x
  }

  /** C++ division rounds toward zero. */
  function TruncDiv(a: int, b: int): int
    requires b != 0
  {
    if (a > 0) == (b > 0) then Abs(a) / Abs(b) else -(Abs(a) / Abs(b))
  }

  /** q is a / b with its fraction dropped: the part of a it accounts for is no larger than a and falls
      short by less than one divisor, and a non-zero q has the sign of the exact quotient. */
  predicate IsQuotient(a: int, b: int, q: int) {
    && Abs(q) * Abs(b) <= Abs(a) < (Abs(q) + 1) * Abs(b)
    && (q != 0 ==> ((q > 0) <==> ((a > 0) == (b > 0))))
  }

  lemma TruncDivRoundsTowardZero(a: int, b: int, q: int)
    requires b != 0
    ensures IsQuotient(a, b, q) <==> q == TruncDiv(a, b)
  {
    QuotientBounds(Abs(a), Abs(b));
    if IsQuotient(a, b, q) {
      OneQuotient(Abs(a), Abs(b), Abs(q), Abs(a) / Abs(b));
    }
  }

  lemma OneQuotient(n: nat, d: nat, q: nat, r: nat)
    requires q * d <= n < (q + 1) * d && r * d <= n < (r + 1) * d
    ensures q == r
  {
    if q < r {
      Monotone(q + 1, r, d, d);
    } else if r < q {
      Monotone(r + 1, q, d, d);
    }
  }

  lemma Monotone(a: nat, a': nat, b: nat, b': nat)
    requires a <= a' && b <= b'
    ensures a * b <= a' * b'
  {
    assert a * b <= a' * b;
    assert a' * b <= a' * b';
  }

  lemma QuotientBounds(n: nat, d: nat)
    requires d > 0
    ensures n / d >= 0
    ensures (n / d) * d <= n < (n / d + 1) * d
  {
    var q := n / d;
    assert n == d * q + n % d;
    assert d * q == q * d;
    assert (q + 1) * d == q * d + d;
  }

  function Scalar(op: ScalarOp, a: int, b: int): Option<int> {
    match op
    case Add => Checked(a + b)
    case Mul => Checked(a * b)
    case Div => if b == 0 then None else Checked(TruncDiv(a, b))
    case Max => Some(if a < b then b else a)
    case Min => Some(if b < a then b else a)
  }

  // ---------- list operations ----------

  /** What the index loops over two lists compute: None as soon as one position is undefined. */
  function Elementwise(op: ScalarOp, l1: seq<int>, l2: seq<int>): Option<seq<int>> {
    if |l1| == |l2| && forall i :: 0 <= i < |l1| ==> Scalar(op, l1[i], l2[i]).Some? then
      Some(seq(|l1|, i requires 0 <= i < |l1| && Scalar(op, l1[i], l2[i]).Some? => Scalar(op, l1[i], l2[i]).value))
    else
      None
  }

  method ElementwiseLoop(op: ScalarOp, l1: seq<int>, l2: seq<int>) returns (r: Option<seq<int>>)
    ensures r == Elementwise(op, l1, l2)
  {
    if |l1| != |l2| {
      return None;
    }
    var out: seq<int> := [];
    for i := 0 to |l1|
      invariant |out| == i
      invariant forall j :: 0 <= j < i ==> Scalar(op, l1[j], l2[j]) == Some(out[j])
    {
      var x := Scalar(op, l1[i], l2[i]);
      if x.None? {
        return None;
      }
      out := out + [x.value];
    }
    r := Some(out);
    assert out == Elementwise(op, l1, l2).value;
  }

  /** A list combined with one scalar. */
  function Broadcast(op: ScalarOp, l: seq<int>, x: int): Option<seq<int>> {
    Elementwise(op, l, seq(|l|, _ => x))
  }

  /** std::inner_product: a left fold, each product and each partial sum an int. */
  function InnerProduct(l1: seq<int>, l2: seq<int>): Option<int>
    requires |l1| == |l2|
  {
    if l1 == [] then Some(0)
    else
      var init := InnerProduct(l1[..|l1| - 1], l2[..|l1| - 1]);
      var last := Checked(l1[|l1| - 1] * l2[|l1| - 1]);
      if init.None? || last.None? then None else Checked(init.value + last.value)
  }

  method InnerProductLoop(l1: seq<int>, l2: seq<int>) returns (r: Option<int>)
    requires |l1| == |l2|
    ensures r == InnerProduct(l1, l2)
  {
    r := Some(0);
    for i := 0 to |l1|
      invariant r == InnerProduct(l1[..i], l2[..i])
    {
      assert l1[..i + 1][..i] == l1[..i] && l2[..i + 1][..i] == l2[..i];
      var p := Checked(l1[i] * l2[i]);
      r := if r.None? || p.None? then None else Checked(r.value + p.value);
    }
    assert l1[..|l1|] == l1 && l2[..|l2|] == l2;
  }

  // ---------- reductions ----------

  function Sum(l: seq<int>): int {
    if l == [] then 0 else l[0] + Sum(l[1..])
  }

  function Product(l: seq<int>): int {
    if l == [] then 1 else l[0] * Product(l[1..])
  }

  predicate Positive(x: int) {
    x > 0
  }

  predicate Negative(x: int) {
    x < 0
  }

  predicate Nonzero(x: int) {
    x != 0
  }

  function Only(p: int -> bool, l: seq<int>): seq<int> {
    if l == [] then [] else (if p(l[0]) then [l[0]] else []) + Only(p, l[1..])
  }

  /** std::reduce may take its operands in any order and bracket them in any way. A sum has a defined
      value if none of these ways overflows: neither all the positive elements together nor all the
      negative ones may (see SumDefinedIff). */
  function ReduceSum(l: seq<int>): Option<int> {
    if SafeSum(l) then Some(Sum(l)) else None
  }

  predicate SafeSum(l: seq<int>) {
    Fits(Sum(Only(Positive, l))) && Fits(Sum(Only(Negative, l)))
  }

  /** The nonzero elements together must not overflow; a product of exactly INT_MIN does only if some
      -1 could be left for later (see ProductDefinedIff). */
  function ReduceMul(l: seq<int>): Option<int> {
    if SafeProduct(l) then Some(Product(l)) else None
  }

  predicate SafeProduct(l: seq<int>) {
    var p := Product(Only(Nonzero, l));
    Abs(p) <= INT_MAX || (p == INT_MIN && -1 !in l)
  }

  datatype Grouping = One(x: int) | Two(l: Grouping, r: Grouping)

  function Leaves(g: Grouping): (s: seq<int>)
    ensures s != []
  {
    match g
    case One(x) => [x]
    case Two(l, r) => Leaves(l) + Leaves(r)
  }

  /** The value of a bracketing, None if some intermediate result overflows. */
  function Grouped(op: ScalarOp, g: Grouping): Option<int> {
    match g
    case One(x) => Checked(x)
    case Two(l, r) =>
      var a, b := Grouped(op, l), Grouped(op, r);
      if a.None? || b.None? then None else Scalar(op, a.value, b.value)
  }

  /** g is a way to reduce l from the given initial value. */
  predicate Arranges(g: Grouping, init: int, l: seq<int>) {
    multiset(Leaves(g)) == multiset([init] + l)
  }

  function Total(op: ScalarOp, l: seq<int>): int {
    if op.Add? then Sum(l) else Product(l)
  }

  /** Two bracketings with their exact values, if the whole fits. */
  lemma TwoGroups(op: ScalarOp, l: Grouping, r: Grouping)
    requires (op.Add? || op.Mul?) && Fits(Total(op, Leaves(l) + Leaves(r)))
    requires Grouped(op, l) == Some(Total(op, Leaves(l))) && Grouped(op, r) == Some(Total(op, Leaves(r)))
    ensures Grouped(op, Two(l, r)) == Some(Total(op, Leaves(l) + Leaves(r)))
  {
    TotalOfConcat(op, Leaves(l), Leaves(r));
  }

  lemma TotalOfConcat(op: ScalarOp, a: seq<int>, b: seq<int>)
    requires op.Add? || op.Mul?
    ensures Scalar(op, Total(op, a), Total(op, b)) == Checked(Total(op, a + b))
  {
    if op.Add? {
      SumOfConcat(a, b);
    } else {
      ProductOfConcat(a, b);
    }
  }

  lemma Single(x: int)
    ensures Sum([x]) == x && Product([x]) == x
  {
    assert [x][1..] == [];
    assert Sum([]) == 0 && Product([]) == 1;
  }

  // ---------- order does not matter ----------

  lemma {:induction false} SumOfConcat(a: seq<int>, b: seq<int>)
    ensures Sum(a + b) == Sum(a) + Sum(b)
  {
    if a == [] {
      assert a + b == b;
    } else {
      assert (a + b)[1..] == a[1..] + b;
      SumOfConcat(a[1..], b);
    }
  }

  lemma Associative(x: int, y: int, z: int)
    ensures x * (y * z) == (x * y) * z
  {
  }

  lemma {:induction false} ProductOfConcat(a: seq<int>, b: seq<int>)
    ensures Product(a + b) == Product(a) * Product(b)
  {
    if a == [] {
      assert a + b == b;
    } else {
      assert (a + b)[1..] == a[1..] + b;
      ProductOfConcat(a[1..], b);
      Associative(a[0], Product(a[1..]), Product(b));
    }
  }

  lemma {:induction false} OnlyOfConcat(p: int -> bool, a: seq<int>, b: seq<int>)
    ensures Only(p, a + b) == Only(p, a) + Only(p, b)
  {
    if a == [] {
      assert a + b == b;
    } else {
      assert (a + b)[1..] == a[1..] + b;
      OnlyOfConcat(p, a[1..], b);
      var h := if p(a[0]) then [a[0]] else [];
      assert h + (Only(p, a[1..]) + Only(p, b)) == h + Only(p, a[1..]) + Only(p, b);
    }
  }

  lemma RemoveAt(s: seq<int>, i: nat)
    requires i < |s|
    ensures s == s[..i] + [s[i]] + s[i + 1..]
    ensures multiset(s[..i] + s[i + 1..]) == multiset(s) - multiset{s[i]}
  {
    var a, b := s[..i], s[i + 1..];
    assert s == a + [s[i]] + b;
    assert multiset(s) == multiset(a) + multiset{s[i]} + multiset(b);
    assert multiset(a + b) == multiset(a) + multiset(b);
  }

  /** Taking the first element of a out of b. */
  lemma TakeOut(a: seq<int>, b: seq<int>) returns (b1: seq<int>, b2: seq<int>)
    requires a != [] && multiset(a) == multiset(b)
    ensures b == b1 + [a[0]] + b2 && multiset(a[1..]) == multiset(b1 + b2)
  {
    RemoveAt(a, 0);
    assert a[..0] + a[1..] == a[1..];
    assert a[0] in multiset(a);
    assert a[0] in b;
    var i :| 0 <= i < |b| && b[i] == a[0];
    RemoveAt(b, i);
    b1, b2 := b[..i], b[i + 1..];
  }

  lemma {:induction false} SumPermuted(a: seq<int>, b: seq<int>)
    requires multiset(a) == multiset(b)
    ensures Sum(a) == Sum(b)
  {
    if a == [] {
      SameSize(a, b);
    } else {
      var b1, b2 := TakeOut(a, b);
      SumPermuted(a[1..], b1 + b2);
      SumOfConcat(b1, b2);
      SumOfConcat(b1 + [a[0]], b2);
      SumOfConcat(b1, [a[0]]);
    }
  }

  lemma SameSize(a: seq<int>, b: seq<int>)
    requires multiset(a) == multiset(b)
    ensures |a| == |b|
  {
    assert |multiset(a)| == |a| && |multiset(b)| == |b|;
  }

  lemma {:induction false} ProductPermuted(a: seq<int>, b: seq<int>)
    requires multiset(a) == multiset(b)
    ensures Product(a) == Product(b)
  {
    if a == [] {
      SameSize(a, b);
    } else {
      var x := a[0];
      var b1, b2 := TakeOut(a, b);
      ProductPermuted(a[1..], b1 + b2);
      ProductOfConcat(b1, b2);
      ProductOfConcat(b1 + [x], b2);
      ProductOfConcat(b1, [x]);
      Single(x);
      Associative(x, Product(b1), Product(b2));
    }
  }

  lemma {:induction false} OnlyCounts(p: int -> bool, l: seq<int>, x: int)
    ensures multiset(Only(p, l))[x] == if p(x) then multiset(l)[x] else 0
  {
    if l != [] {
      OnlyCounts(p, l[1..], x);
      assert l == [l[0]] + l[1..];
    }
  }

  lemma OnlyPermuted(p: int -> bool, a: seq<int>, b: seq<int>)
    requires multiset(a) == multiset(b)
    ensures multiset(Only(p, a)) == multiset(Only(p, b))
  {
    forall x
      ensures multiset(Only(p, a))[x] == multiset(Only(p, b))[x]
    {
      OnlyCounts(p, a, x);
      OnlyCounts(p, b, x);
    }
  }

  lemma ApplyReductions(l: seq<int>)
    ensures Apply(ReSum, [ListValue(l)]) == OfScalar(ReduceSum(l))
    ensures Apply(ReMul, [ListValue(l)]) == OfScalar(ReduceMul(l))
  {
  }

  // ---------- sums ----------

  lemma {:induction false} SumBetween(l: seq<int>)
    ensures Sum(Only(Negative, l)) <= Sum(l) <= Sum(Only(Positive, l))
    ensures Sum(Only(Negative, l)) <= 0 <= Sum(Only(Positive, l))
  {
    if l != [] {
      SumBetween(l[1..]);
      SumOfConcat(if Positive(l[0]) then [l[0]] else [], Only(Positive, l[1..]));
      SumOfConcat(if Negative(l[0]) then [l[0]] else [], Only(Negative, l[1..]));
    }
  }

  lemma SafeParts(a: seq<int>, b: seq<int>)
    requires SafeSum(a + b)
    ensures SafeSum(a) && SafeSum(b)
  {
    OnlyOfConcat(Positive, a, b);
    OnlyOfConcat(Negative, a, b);
    SumOfConcat(Only(Positive, a), Only(Positive, b));
    SumOfConcat(Only(Negative, a), Only(Negative, b));
    SumBetween(a);
    SumBetween(b);
  }

  lemma SafeSumFits(l: seq<int>)
    requires SafeSum(l)
    ensures Fits(Sum(l))
  {
    SumBetween(l);
  }

  lemma {:induction false} SafeSumGroups(g: Grouping)
    requires SafeSum(Leaves(g))
    ensures Grouped(Add, g) == Some(Total(Add, Leaves(g)))
  {
    match g {
      case One(x) =>
        SafeSumFits([x]);
        Single(x);
      case Two(l, r) =>
        SafeSumFits(Leaves(l) + Leaves(r));
        SafeParts(Leaves(l), Leaves(r));
        SafeSumGroups(l);
        SafeSumGroups(r);
        TwoGroups(Add, l, r);
    }
  }

  lemma SafeSumPermuted(a: seq<int>, b: seq<int>)
    requires multiset(a) == multiset(b)
    ensures SafeSum(a) <==> SafeSum(b)
  {
    OnlyPermuted(Positive, a, b);
    OnlyPermuted(Negative, a, b);
    SumPermuted(Only(Positive, a), Only(Positive, b));
    SumPermuted(Only(Negative, a), Only(Negative, b));
  }

  lemma ZeroAddsNothing(l: seq<int>)
    ensures Sum([0] + l) == Sum(l) && (SafeSum([0] + l) <==> SafeSum(l))
  {
    assert ([0] + l)[1..] == l;
    assert Only(Positive, [0] + l) == Only(Positive, l);
    assert Only(Negative, [0] + l) == Only(Negative, l);
  }

  lemma ArrangedSum(l: seq<int>, g: Grouping)
    requires SafeSum(l) && Arranges(g, 0, l)
    ensures Grouped(Add, g) == Some(Sum(l))
  {
    ZeroAddsNothing(l);
    SafeSumPermuted([0] + l, Leaves(g));
    SumPermuted([0] + l, Leaves(g));
    SafeSumGroups(g);
  }

  /** Whatever the order and the brackets, a defined sum is the sum. */
  lemma SumUnderAnyArrangement(l: seq<int>, g: Grouping)
    requires ReduceSum(l).Some? && Arranges(g, 0, l)
    ensures Grouped(Add, g) == ReduceSum(l) && Apply(ReSum, [ListValue(l)]) == OfScalar(Grouped(Add, g))
  {
    ArrangedSum(l, g);
    ApplyReductions(l);
  }

  // ---------- when a reduction can overflow ----------

  /** Right-nested brackets around a list. */
  function Nest(l: seq<int>): (g: Grouping)
    requires l != []
    ensures Leaves(g) == l
  {
    if |l| == 1 then One(l[0]) else
      assert [l[0]] + l[1..] == l;
      Two(One(l[0]), Nest(l[1..]))
  }

  /** A bracketing that does not overflow has the exact value. */
  lemma {:induction false} GroupedIsTotal(op: ScalarOp, g: Grouping)
    requires (op.Add? || op.Mul?) && Grouped(op, g).Some?
    ensures Grouped(op, g) == Checked(Total(op, Leaves(g)))
  {
    match g {
      case One(x) => Single(x);
      case Two(l, r) =>
        GroupedIsTotal(op, l);
        GroupedIsTotal(op, r);
        TotalOfConcat(op, Leaves(l), Leaves(r));
    }
  }

  /** If some of the operands together do not fit, taking these first overflows. */
  lemma TakingFirstOverflows(op: ScalarOp, part: seq<int>, rest: seq<int>) returns (g: Grouping)
    requires (op.Add? || op.Mul?) && part != [] && rest != [] && !Fits(Total(op, part))
    ensures Leaves(g) == part + rest && Grouped(op, g).None?
  {
    g := Two(Nest(part), Nest(rest));
    if Grouped(op, Nest(part)).Some? {
      GroupedIsTotal(op, Nest(part));
    }
  }

  /** The elements that do not satisfy p. */
  lemma Others(p: int -> bool, l: seq<int>) returns (rest: seq<int>)
    ensures multiset(Only(p, l) + rest) == multiset(l)
  {
    var q := x => !p(x);
    rest := Only(q, l);
    forall x
      ensures multiset(Only(p, l) + rest)[x] == multiset(l)[x]
    {
      OnlyCounts(p, l, x);
      OnlyCounts(q, l, x);
    }
  }

  /** Reducing part of the operands first overflows if these together do not fit. */
  lemma PartOverflows(op: ScalarOp, init: int, l: seq<int>, part: seq<int>, rest: seq<int>) returns (g: Grouping)
    requires (op.Add? || op.Mul?) && part != [] && !Fits(Total(op, part)) && multiset(part + rest) == multiset(l)
    ensures Arranges(g, init, l) && Grouped(op, g).None?
  {
    g := TakingFirstOverflows(op, part, [init] + rest);
    assert multiset(part + ([init] + rest)) == multiset{init} + multiset(part + rest);
    assert multiset([init] + l) == multiset{init} + multiset(l);
  }

  lemma UnsafeSumOverflows(l: seq<int>) returns (g: Grouping)
    requires !SafeSum(l)
    ensures Arranges(g, 0, l) && Grouped(Add, g).None?
  {
    if Fits(Sum(Only(Positive, l))) {
      var rest := Others(Negative, l);
      g := PartOverflows(Add, 0, l, Only(Negative, l), rest);
    } else {
      var rest := Others(Positive, l);
      g := PartOverflows(Add, 0, l, Only(Positive, l), rest);
    }
  }

  /** A sum is defined exactly when no order and no bracketing of the operands overflows. */
  lemma SumDefinedIff(l: seq<int>)
    ensures Apply(ReSum, [ListValue(l)]).Some? <==> forall g :: Arranges(g, 0, l) ==> Grouped(Add, g).Some?
  {
    ApplyReductions(l);
    if SafeSum(l) {
      forall g | Arranges(g, 0, l)
        ensures Grouped(Add, g).Some?
      {
        ArrangedSum(l, g);
      }
    } else {
      var g := UnsafeSumOverflows(l);
    }
  }

  // ---------- products ----------

  lemma AbsOfProduct(a: int, b: int)
    ensures Abs(a * b) == Abs(a) * Abs(b)
  {
    assert (-a) * b == -(a * b);
    assert a * (-b) == -(a * b);
    assert (-a) * (-b) == a * b;
  }

  lemma {:induction false} NonzeroProduct(l: seq<int>)
    ensures Product(Only(Nonzero, l)) != 0
    ensures Product(l) == 0 || Product(l) == Product(Only(Nonzero, l))
  {
    if l != [] {
      NonzeroProduct(l[1..]);
      ProductOfConcat(if Nonzero(l[0]) then [l[0]] else [], Only(Nonzero, l[1..]));
      if l[0] != 0 {
        Single(l[0]);
      }
    }
  }

  /** A product of magnitude one without a factor -1 is one. */
  lemma {:induction false} UnitProduct(l: seq<int>)
    requires Abs(Product(Only(Nonzero, l))) == 1 && -1 !in l
    ensures Product(Only(Nonzero, l)) == 1
  {
    if l != [] {
      var h, t := if Nonzero(l[0]) then [l[0]] else [], Only(Nonzero, l[1..]);
      ProductOfConcat(h, t);
      AbsOfProduct(Product(h), Product(t));
      UnitFactors(Abs(Product(h)), Abs(Product(t)));
      Single(l[0]);
      UnitProduct(l[1..]);
    }
  }

  lemma UnitFactors(a: nat, b: nat)
    requires a * b == 1
    ensures a == 1 && b == 1
  {
    assert b > 0 ==> a * b >= a;
    assert a > 0 ==> a * b >= b;
  }

  /** A factor is no larger than the product, and at most half of it if the other is not one. */
  lemma FactorBound(a: int, b: int)
    requires a != 0 && b != 0
    ensures Abs(a) <= Abs(a * b) && (Abs(b) >= 2 ==> 2 * Abs(a) <= Abs(a * b))
  {
    AbsOfProduct(a, b);
    Monotone(Abs(a), Abs(a), 1, Abs(b));
    if Abs(b) >= 2 {
      Monotone(Abs(a), Abs(a), 2, Abs(b));
    }
  }

  lemma SafeFactor(a: seq<int>, b: seq<int>)
    requires SafeProduct(a + b)
    ensures SafeProduct(a)
  {
    OnlyOfConcat(Nonzero, a, b);
    var x, y := Product(Only(Nonzero, a)), Product(Only(Nonzero, b));
    ProductOfConcat(Only(Nonzero, a), Only(Nonzero, b));
    NonzeroProduct(a);
    NonzeroProduct(b);
    FactorBound(x, y);
    if x * y == INT_MIN && Abs(y) < 2 {
      UnitProduct(b);
    }
  }

  lemma SafeProductPermuted(a: seq<int>, b: seq<int>)
    requires multiset(a) == multiset(b)
    ensures SafeProduct(a) <==> SafeProduct(b)
  {
    OnlyPermuted(Nonzero, a, b);
    ProductPermuted(Only(Nonzero, a), Only(Nonzero, b));
    assert -1 in a <==> -1 in multiset(a);
    assert -1 in b <==> -1 in multiset(b);
  }

  lemma SafeFactors(a: seq<int>, b: seq<int>)
    requires SafeProduct(a + b)
    ensures SafeProduct(a) && SafeProduct(b)
  {
    SafeFactor(a, b);
    assert multiset(b + a) == multiset(a + b);
    SafeProductPermuted(b + a, a + b);
    SafeFactor(b, a);
  }

  lemma SafeProductFits(l: seq<int>)
    requires SafeProduct(l)
    ensures Fits(Product(l))
  {
    NonzeroProduct(l);
  }

  lemma {:induction false} SafeProductGroups(g: Grouping)
    requires SafeProduct(Leaves(g))
    ensures Grouped(Mul, g) == Some(Total(Mul, Leaves(g)))
  {
    match g {
      case One(x) =>
        SafeProductFits([x]);
        Single(x);
      case Two(l, r) =>
        SafeProductFits(Leaves(l) + Leaves(r));
        SafeFactors(Leaves(l), Leaves(r));
        SafeProductGroups(l);
        SafeProductGroups(r);
        TwoGroups(Mul, l, r);
    }
  }

  lemma OneMultipliesNothing(l: seq<int>)
    ensures Product([1] + l) == Product(l) && (SafeProduct([1] + l) <==> SafeProduct(l))
  {
    assert ([1] + l)[1..] == l;
    assert Only(Nonzero, [1] + l) == [1] + Only(Nonzero, l);
    assert ([1] + Only(Nonzero, l))[1..] == Only(Nonzero, l);
  }

  lemma ArrangedProduct(l: seq<int>, g: Grouping)
    requires SafeProduct(l) && Arranges(g, 1, l)
    ensures Grouped(Mul, g) == Some(Product(l))
  {
    OneMultipliesNothing(l);
    SafeProductPermuted([1] + l, Leaves(g));
    ProductPermuted([1] + l, Leaves(g));
    SafeProductGroups(g);
  }

  /** Whatever the order and the brackets, a defined product is the product. */
  lemma ProductUnderAnyArrangement(l: seq<int>, g: Grouping)
    requires ReduceMul(l).Some? && Arranges(g, 1, l)
    ensures Grouped(Mul, g) == ReduceMul(l) && Apply(ReMul, [ListValue(l)]) == OfScalar(Grouped(Mul, g))
  {
    ArrangedProduct(l, g);
    ApplyReductions(l);
  }

  /** One occurrence of x set apart. */
  lemma SetApart(l: seq<int>, x: int) returns (others: seq<int>)
    requires x in l
    ensures multiset([x] + others) == multiset(l)
  {
    var i :| 0 <= i < |l| && l[i] == x;
    others := l[..i] + l[i + 1..];
    assert l == l[..i] + [x] + l[i + 1..];
  }

  /** With a factor -1 set apart, INT_MIN becomes a product that does not fit. */
  lemma MinusOneOverflows(l: seq<int>) returns (g: Grouping)
    requires -1 in l && Product(Only(Nonzero, l)) == INT_MIN
    ensures Arranges(g, 1, l) && Grouped(Mul, g).None?
  {
    var others := SetApart(l, -1);
    OnlyPermuted(Nonzero, l, [-1] + others);
    ProductPermuted(Only(Nonzero, l), Only(Nonzero, [-1] + others));
    OnlyOfConcat(Nonzero, [-1], others);
    var part := Only(Nonzero, others);
    assert Only(Nonzero, [-1]) == [-1];
    ProductOfConcat([-1], part);
    Single(-1);
    var rest := Others(Nonzero, others);
    assert multiset(part + ([-1] + rest)) == multiset{-1} + multiset(part + rest) == multiset([-1] + others);
    g := PartOverflows(Mul, 1, l, part, [-1] + rest);
  }

  lemma UnsafeProductOverflows(l: seq<int>) returns (g: Grouping)
    requires !SafeProduct(l)
    ensures Arranges(g, 1, l) && Grouped(Mul, g).None?
  {
    if Product(Only(Nonzero, l)) == INT_MIN {
      g := MinusOneOverflows(l);
    } else {
      var rest := Others(Nonzero, l);
      g := PartOverflows(Mul, 1, l, Only(Nonzero, l), rest);
    }
  }

  /** A product is defined exactly when no order and no bracketing of the operands overflows. */
  lemma ProductDefinedIff(l: seq<int>)
    ensures Apply(ReMul, [ListValue(l)]).Some? <==> forall g :: Arranges(g, 1, l) ==> Grouped(Mul, g).Some?
  {
    ApplyReductions(l);
    if SafeProduct(l) {
      forall g | Arranges(g, 1, l)
        ensures Grouped(Mul, g).Some?
      {
        ArrangedProduct(l, g);
      }
    } else {
      var g := UnsafeProductOverflows(l);
    }
  }

  // ---------- the worker's case split ----------

  function OfScalar(x: Option<int>): Option<Value> {
    if x.Some? then Some(ScalarValue(x.value)) else None
  }

  function OfList(l: Option<seq<int>>): Option<Value> {
    if l.Some? then Some(ListValue(l.value)) else None
  }

  function ApplyReduce(t: ExprType, lhs: Value): Option<Value> {
    if !lhs.ListValue? then None
    else
      match t
      case ReMin => if lhs.list == [] then None else Some(ScalarValue(lhs.list[0]))
      case ReMax => if lhs.list == [] then None else Some(ScalarValue(lhs.list[0]))
      case ReMul => OfScalar(ReduceMul(lhs.list))
      case ReSum => OfScalar(ReduceSum(lhs.list))
      case ReSize => Some(ScalarValue(ToScalar(|lhs.list|)))
      case _ => None
  }

  function ApplyBinary(t: ExprType, lhs: Value, rhs: Value): Option<Value> {
    match (lhs, rhs)
    case (ListValue(l), ScalarValue(x)) =>
      (match t
       case MeAdd => OfList(Broadcast(Add, l, x))
       case MeMul => OfList(Broadcast(Mul, l, x))
       case MeDiv => OfList(Broadcast(Div, l, x))
       case _ => None)
    case (ListValue(l), ListValue(r)) =>
      (match t
       case LoAdd => OfList(Elementwise(Add, l, r))
       case LoMul => OfList(Elementwise(Mul, l, r))
       case LoDiv => OfList(Elementwise(Div, l, r))
       case LoDot => if |l| != |r| then None else OfScalar(InnerProduct(l, r))
       case _ => None)
    case (ScalarValue(a), ScalarValue(b)) =>
      (match t
       case SoAdd => OfScalar(Scalar(Add, a, b))
       case SoMul => OfScalar(Scalar(Mul, a, b))
       case SoDiv => OfScalar(Scalar(Div, a, b))
       case SoMax => OfScalar(Scalar(Max, a, b))
       case SoMin => OfScalar(Scalar(Min, a, b))
       case _ => None)
    case _ => None
  }

  /** The worker takes the first and the last operand as its two sides, whatever their number. */
  function Apply(t: ExprType, operands: seq<Value>): Option<Value> {
    if operands == [] then None
    else if t in {ReMin, ReMax, ReMul, ReSum, ReSize} then ApplyReduce(t, operands[0])
    else ApplyBinary(t, operands[0], operands[|operands| - 1])
  }

  // ---------- what the operations mean ----------

  predicate IsSum(a: int, b: int, c: int) {
    c == a + b && Fits(c)
  }

  predicate IsProduct(a: int, b: int, c: int) {
    c == a * b && Fits(c)
  }

  predicate IsRatio(a: int, b: int, c: int) {
    b != 0 && IsQuotient(a, b, c) && Fits(c)
  }

  predicate IsLarger(a: int, b: int, c: int) {
    c in {a, b} && a <= c && b <= c
  }

  predicate IsSmaller(a: int, b: int, c: int) {
    c in {a, b} && c <= a && c <= b
  }

  /** c is what an operation of type t makes of the scalars a and b. */
  predicate Meets(t: ExprType, a: int, b: int, c: int) {
    if t in {MeAdd, LoAdd, SoAdd} then IsSum(a, b, c)
    else if t in {MeMul, LoMul, SoMul} then IsProduct(a, b, c)
    else if t in {MeDiv, LoDiv, SoDiv} then IsRatio(a, b, c)
    else if t == SoMax then IsLarger(a, b, c)
    else t == SoMin && IsSmaller(a, b, c)
  }

  /** v is what an operation on pairs makes of lhs and rhs: scalar by scalar, position by position, or
      every position with the one scalar. */
  predicate PairMeets(t: ExprType, lhs: Value, rhs: Value, v: Value) {
    if t in {SoAdd, SoMul, SoDiv, SoMax, SoMin} then
      lhs.ScalarValue? && rhs.ScalarValue? && v.ScalarValue? && Meets(t, lhs.scalar, rhs.scalar, v.scalar)
    else if t in {LoAdd, LoMul, LoDiv} then
      && lhs.ListValue? && rhs.ListValue? && v.ListValue? && |lhs.list| == |rhs.list| == |v.list|
      && forall i :: 0 <= i < |v.list| ==> Meets(t, lhs.list[i], rhs.list[i], v.list[i])
    else
      && t in {MeAdd, MeMul, MeDiv}
      && lhs.ListValue? && rhs.ScalarValue? && v.ListValue? && |lhs.list| == |v.list|
      && forall i :: 0 <= i < |v.list| ==> Meets(t, lhs.list[i], rhs.scalar, v.list[i])
  }

  function OpOf(t: ExprType): ScalarOp
    requires t in {MeAdd, MeMul, MeDiv, LoAdd, LoMul, LoDiv, SoAdd, SoMul, SoDiv, SoMax, SoMin}
  {
    if t in {MeAdd, LoAdd, SoAdd} then Add
    else if t in {MeMul, LoMul, SoMul} then Mul
    else if t in {MeDiv, LoDiv, SoDiv} then Div
    else if t == SoMax then Max else Min
  }

  lemma ScalarMeets(t: ExprType, a: int, b: int, c: int)
    requires t in {MeAdd, MeMul, MeDiv, LoAdd, LoMul, LoDiv, SoAdd, SoMul, SoDiv, SoMax, SoMin}
    ensures Scalar(OpOf(t), a, b) == Some(c) <==> Meets(t, a, b, c)
  {
    if b != 0 {
      TruncDivRoundsTowardZero(a, b, c);
    }
  }

  lemma ElementwiseMeets(t: ExprType, l: seq<int>, r: seq<int>, v: seq<int>)
    requires t in {MeAdd, MeMul, MeDiv, LoAdd, LoMul, LoDiv}
    ensures Elementwise(OpOf(t), l, r) == Some(v) <==>
            |l| == |r| == |v| && forall i :: 0 <= i < |v| ==> Meets(t, l[i], r[i], v[i])
  {
    if |l| == |r| == |v| {
      forall i | 0 <= i < |v|
        ensures Scalar(OpOf(t), l[i], r[i]) == Some(v[i]) <==> Meets(t, l[i], r[i], v[i])
      {
        ScalarMeets(t, l[i], r[i], v[i]);
      }
      if forall i :: 0 <= i < |v| ==> Scalar(OpOf(t), l[i], r[i]) == Some(v[i]) {
        assert Elementwise(OpOf(t), l, r).value == v;
      }
    }
  }

  /** The worker's operations on pairs give exactly the values they should, left operand first. */
  lemma ApplyMeets(t: ExprType, lhs: Value, rhs: Value, v: Value)
    requires t in {MeAdd, MeMul, MeDiv, LoAdd, LoMul, LoDiv, SoAdd, SoMul, SoDiv, SoMax, SoMin}
    ensures Apply(t, [lhs, rhs]) == Some(v) <==> PairMeets(t, lhs, rhs, v)
  {
    if t in {SoAdd, SoMul, SoDiv, SoMax, SoMin} {
      if lhs.ScalarValue? && rhs.ScalarValue? && v.ScalarValue? {
        ScalarMeets(t, lhs.scalar, rhs.scalar, v.scalar);
      }
    } else if lhs.ListValue? && v.ListValue? {
      ListApplyMeets(t, lhs.list, rhs, v.list);
    }
  }

  lemma ListApplyMeets(t: ExprType, l: seq<int>, rhs: Value, v: seq<int>)
    requires t in {MeAdd, MeMul, MeDiv, LoAdd, LoMul, LoDiv}
    ensures Apply(t, [ListValue(l), rhs]) == Some(ListValue(v)) <==> PairMeets(t, ListValue(l), rhs, ListValue(v))
  {
    match rhs
    case ListValue(r) => ElementwiseMeets(t, l, r, v);
    case ScalarValue(x) => ElementwiseMeets(t, l, seq(|l|, _ => x), v);
  }

  function Products(l: seq<int>, r: seq<int>): (s: seq<int>)
    requires |l| == |r|
    ensures |s| == |l| && forall i :: 0 <= i < |s| ==> s[i] == l[i] * r[i]
  {
    seq(|l|, i requires 0 <= i < |l| => l[i] * r[i])
  }

  /** Every product an int, and every sum of the products up to a position an int. */
  predicate FoldFits(products: seq<int>) {
    && (forall i :: 0 <= i < |products| ==> Fits(products[i]))
    && forall n :: 0 <= n <= |products| ==> Fits(Sum(products[..n]))
  }

  lemma FoldFitsNext(products: seq<int>, x: int)
    ensures Sum(products + [x]) == Sum(products) + x
    ensures FoldFits(products + [x]) <==> FoldFits(products) && Fits(x) && Fits(Sum(products) + x)
  {
    var all := products + [x];
    SumOfConcat(products, [x]);
    Single(x);
    assert all[..|all|] == all;
    assert forall n :: 0 <= n <= |products| ==> all[..n] == products[..n];
    assert all[|products|] == x && forall i :: 0 <= i < |products| ==> all[i] == products[i];
  }

  lemma {:induction false} DotIsSumOfProducts(l: seq<int>, r: seq<int>)
    requires |l| == |r|
    ensures InnerProduct(l, r) == if FoldFits(Products(l, r)) then Some(Sum(Products(l, r))) else None
  {
    if l != [] {
      var n := |l| - 1;
      DotIsSumOfProducts(l[..n], r[..n]);
      assert Products(l, r) == Products(l[..n], r[..n]) + [l[n] * r[n]];
      FoldFitsNext(Products(l[..n], r[..n]), l[n] * r[n]);
    }
  }

  /** c is what every order and bracketing of the elements and the initial value gives. */
  ghost predicate IsReduced(op: ScalarOp, init: int, l: seq<int>, c: int) {
    forall g :: Arranges(g, init, l) ==> Grouped(op, g) == Some(c)
  }

  /** c is the int congruent to the length. */
  predicate IsSize(l: seq<int>, c: int) {
    Fits(c) && (|l| - c) % 0x1_0000_0000 == 0
  }

  /** c is the inner product, computed without overflow from the left. */
  predicate IsDot(l: seq<int>, r: seq<int>, c: int) {
    |l| == |r| && FoldFits(Products(l, r)) && c == Sum(Products(l, r))
  }

  /** v is what the worker should make of its two sides, for every type of operation. */
  ghost predicate Gives(t: ExprType, lhs: Value, rhs: Value, v: Value) {
    match t
    case ReMin => lhs.ListValue? && lhs.list != [] && v == ScalarValue(lhs.list[0])
    case ReMax => lhs.ListValue? && lhs.list != [] && v == ScalarValue(lhs.list[0])
    case ReMul => lhs.ListValue? && v.ScalarValue? && IsReduced(Mul, 1, lhs.list, v.scalar)
    case ReSum => lhs.ListValue? && v.ScalarValue? && IsReduced(Add, 0, lhs.list, v.scalar)
    case ReSize => lhs.ListValue? && v.ScalarValue? && IsSize(lhs.list, v.scalar)
    case LoDot => lhs.ListValue? && rhs.ListValue? && v.ScalarValue? && IsDot(lhs.list, rhs.list, v.scalar)
    case List => false
    case ScalarConst => false
    case ScalarVar => false
    case _ => PairMeets(t, lhs, rhs, v)
  }

  lemma AnyGrouping(init: int, l: seq<int>) returns (g: Grouping)
    ensures Arranges(g, init, l)
  {
    g := Nest([init] + l);
  }

  lemma SumGives(l: seq<int>, c: int)
    ensures ReduceSum(l) == Some(c) <==> IsReduced(Add, 0, l, c)
  {
    if SafeSum(l) {
      var g := AnyGrouping(0, l);
      ArrangedSum(l, g);
      forall g | Arranges(g, 0, l)
        ensures Grouped(Add, g) == Some(Sum(l))
      {
        ArrangedSum(l, g);
      }
    } else {
      var g := UnsafeSumOverflows(l);
    }
  }

  lemma ProductGives(l: seq<int>, c: int)
    ensures ReduceMul(l) == Some(c) <==> IsReduced(Mul, 1, l, c)
  {
    if SafeProduct(l) {
      var g := AnyGrouping(1, l);
      ArrangedProduct(l, g);
      forall g | Arranges(g, 1, l)
        ensures Grouped(Mul, g) == Some(Product(l))
      {
        ArrangedProduct(l, g);
      }
    } else {
      var g := UnsafeProductOverflows(l);
    }
  }

  lemma SizeGives(l: seq<int>, c: int)
    ensures ToScalar(|l|) == c <==> IsSize(l, c)
  {
    if IsSize(l, c) {
      var k := (|l| - c) / 0x1_0000_0000;
      assert |l| - INT_MIN == 0x1_0000_0000 * k + (c - INT_MIN);
    }
  }

  lemma ReduceGives(t: ExprType, operands: seq<Value>, v: Value)
    requires operands != [] && t in {ReMin, ReMax, ReMul, ReSum, ReSize}
    ensures Apply(t, operands) == Some(v) <==> Gives(t, operands[0], operands[|operands| - 1], v)
  {
    if operands[0].ListValue? && v.ScalarValue? {
      SumGives(operands[0].list, v.scalar);
      ProductGives(operands[0].list, v.scalar);
      SizeGives(operands[0].list, v.scalar);
    }
  }

  /** The worker computes what it should, for every type of operation and every operands: it takes the
      first as its left side and the last as its right side. */
  lemma ApplyGives(t: ExprType, operands: seq<Value>, v: Value)
    ensures Apply(t, operands) == Some(v) <==> operands != [] && Gives(t, operands[0], operands[|operands| - 1], v)
  {
    if operands != [] {
      var lhs, rhs := operands[0], operands[|operands| - 1];
      if t in {ReMin, ReMax, ReMul, ReSum, ReSize} {
        ReduceGives(t, operands, v);
      } else if t == LoDot {
        if lhs.ListValue? && rhs.ListValue? && |lhs.list| == |rhs.list| {
          DotIsSumOfProducts(lhs.list, rhs.list);
        }
      } else if !IsVariable(t) {
        ApplyMeets(t, lhs, rhs, v);
      }
    }
  }

  predicate Least(x: int, l: seq<int>) {
    x in l && forall i :: 0 <= i < |l| ==> x <= l[i]
  }

  predicate Greatest(x: int, l: seq<int>) {
    x in l && forall i :: 0 <= i < |l| ==> l[i] <= x
  }

  /** The list reductions called minimum and maximum both take the smaller of two iterators, so
      they are right exactly on the lists whose first element is the answer. */
  lemma ListExtremaIff(l: seq<int>)
    requires l != []
    ensures exists x :: Apply(ReMin, [ListValue(l)]) == Some(ScalarValue(x)) && (Least(x, l) <==> forall i :: 0 <= i < |l| ==> l[0] <= l[i])
    ensures exists x :: Apply(ReMax, [ListValue(l)]) == Some(ScalarValue(x)) && (Greatest(x, l) <==> forall i :: 0 <= i < |l| ==> l[i] <= l[0])
  {
    assert Apply(ReMin, [ListValue(l)]) == Some(ScalarValue(l[0]));
    assert Apply(ReMax, [ListValue(l)]) == Some(ScalarValue(l[0]));
  }

  lemma ListExtremaCounterexample()
    ensures Apply(ReMin, [ListValue([2, 1])]) == Some(ScalarValue(2)) && Least(1, [2, 1])
    ensures Apply(ReMax, [ListValue([1, 2])]) == Some(ScalarValue(1)) && Greatest(2, [1, 2])
  {
    assert [2, 1][1] == 1 && [1, 2][1] == 2;
  }
}
