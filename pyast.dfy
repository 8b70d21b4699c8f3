/** The restricted evaluator `safe_eval_ast` of backend/app/solver.py.

    It walks a Python expression tree and builds what the constraint solver
    library would build from it: integers, linear expressions over the declared
    integer variables, and single comparisons between them. The text-to-tree
    step (`ast.parse`) is a parameter of `SafeEvalAst`; the evaluator itself
    starts from the tree. */
module PyAst {
  import opened Wrappers

  // ---------------------------------------------------------------------------
  // Expression trees

  /** The value held by an `ast.Constant` node. */
  datatype Literal =
    | IntLit(i: int)
    | BoolLit(b: bool)
    | FloatLit(r: real)
    | ComplexLit
    | StrLit(s: string)
    | BytesLit
    | NoneLit
    | EllipsisLit

  datatype BinOperator =
    | Add | Sub | Mult | Div | FloorDiv | Mod | Pow | MatMult
    | LShift | RShift | BitOr | BitXor | BitAnd

  datatype UnaryOperator = UAdd | USub | Not | Invert

  datatype CmpOperator = Eq | NotEq | Lt | LtE | Gt | GtE | Is | IsNot | In | NotIn

  /** The body of an `ast.Expression`. Node kinds the evaluator never looks
      inside (calls, attributes, `and`/`or`, subscripts, ...) are `OtherNode`. */
  datatype Node =
    | Constant(value: Literal)
    | Name(id: string)
    | BinOp(left: Node, op: BinOperator, right: Node)
    | UnaryOp(uop: UnaryOperator, operand: Node)
    | Compare(first: Node, ops: seq<CmpOperator>, comparators: seq<Node>)
    | OtherNode(kind: string)

  /** The operator table `ops`: the binary, unary and comparison operators it maps. */
  predicate InBinTable(op: BinOperator) { op == Add || op == Sub || op == Mult }

  predicate InUnaryTable(op: UnaryOperator) { op == UAdd || op == USub }

  predicate InCmpTable(op: CmpOperator) {
    op == Eq || op == NotEq || op == Lt || op == LtE || op == Gt || op == GtE
  }

  // ---------------------------------------------------------------------------
  // Linear expressions of the solver library

  /** A sum of `coefficient * variable` terms plus a constant. Like the
      library's own linear expressions it is not normalised: a variable may
      occur in several terms. */
  datatype LinearExpr = LinearExpr(terms: seq<(string, int)>, constant: int)

  function ConstExpr(n: int): LinearExpr { LinearExpr([], n) }

  function VarExpr(name: string): LinearExpr { LinearExpr([(name, 1)], 0) }

  function Plus(a: LinearExpr, b: LinearExpr): LinearExpr {
    LinearExpr(a.terms + b.terms, a.constant + b.constant)
  }

  function ScaleTerms(ts: seq<(string, int)>, k: int): (r: seq<(string, int)>)
    ensures |r| == |ts|
    ensures forall i :: 0 <= i < |ts| ==> r[i] == (ts[i].0, ts[i].1 * k)
  {
    if ts == [] then [] else [(ts[0].0, ts[0].1 * k)] + ScaleTerms(ts[1..], k)
  }

  function Scale(a: LinearExpr, k: int): LinearExpr {
    LinearExpr(ScaleTerms(a.terms, k), a.constant * k)
  }

  function Minus(a: LinearExpr, b: LinearExpr): LinearExpr { Plus(a, Scale(b, -1)) }

  /** The variables an expression mentions. */
  predicate MentionsOnly(e: LinearExpr, vars: set<string>) {
    forall i :: 0 <= i < |e.terms| ==> e.terms[i].0 in vars
  }

  /** Value of a variable under an assignment; unassigned variables read as 0. */
  function Lookup(sigma: map<string, int>, x: string): int {
    if x in sigma then sigma[x] else 0
  }

  function TermsValue(ts: seq<(string, int)>, sigma: map<string, int>): int {
    if ts == [] then 0 else ts[0].1 * Lookup(sigma, ts[0].0) + TermsValue(ts[1..], sigma)
  }

  function LinValue(e: LinearExpr, sigma: map<string, int>): int {
    TermsValue(e.terms, sigma) + e.constant
  }

  lemma {:induction false} TermsValueConcat(a: seq<(string, int)>, b: seq<(string, int)>, sigma: map<string, int>)
    ensures TermsValue(a + b, sigma) == TermsValue(a, sigma) + TermsValue(b, sigma)
  {
    if a == [] {
      assert a + b == b;
    } else {
      TermsValueConcat(a[1..], b, sigma);
      assert (a + b)[0] == a[0] && (a + b)[1..] == a[1..] + b;
    }
  }

  lemma {:induction false} TermsValueScale(ts: seq<(string, int)>, k: int, sigma: map<string, int>)
    ensures TermsValue(ScaleTerms(ts, k), sigma) == k * TermsValue(ts, sigma)
  {
    if ts != [] {
      TermsValueScale(ts[1..], k, sigma);
      var c, v := ts[0].1, Lookup(sigma, ts[0].0);
      calc {
        TermsValue(ScaleTerms(ts, k), sigma);
        c * k * v + TermsValue(ScaleTerms(ts[1..], k), sigma);
        { assert c * k * v == k * (c * v); }
        k * (c * v) + k * TermsValue(ts[1..], sigma);
        k * (c * v + TermsValue(ts[1..], sigma));
      }
    }
  }

  /** Adding and scaling linear expressions adds and scales their values. */
  lemma PlusValue(a: LinearExpr, b: LinearExpr, sigma: map<string, int>)
    ensures LinValue(Plus(a, b), sigma) == LinValue(a, sigma) + LinValue(b, sigma)
  {
    TermsValueConcat(a.terms, b.terms, sigma);
  }

  lemma ScaleValue(a: LinearExpr, k: int, sigma: map<string, int>)
    ensures LinValue(Scale(a, k), sigma) == k * LinValue(a, sigma)
  {
    TermsValueScale(a.terms, k, sigma);
  }

  // ---------------------------------------------------------------------------
  // Values and errors of the evaluator

  /** What `_eval` returns: a Python int, a Python bool (from comparing two
      integers), a linear expression (a variable or arithmetic on one), or a
      bounded linear expression (a comparison involving a variable). */
  datatype Value =
    | IntVal(n: int)
    | BoolVal(b: bool)
    | LinVal(e: LinearExpr)
    | CmpVal(op: CmpOperator, lhs: LinearExpr, rhs: LinearExpr)

  /** Every failure `safe_eval_ast` reports, all of them surfaced as a
      `ValueError` naming the expression. */
  datatype EvalError =
    | ParseFailure                      // `ast.parse` rejected the text
    | BoolLiteral                       // `True`/`False` used as a number
    | NonIntegerLiteral                 // float, complex, string, bytes, None, ...
    | UnknownVariable(name: string)
    | UnsupportedOperator(bop: BinOperator)
    | NonLinearMultiplication
    | UnsupportedUnaryOperator(uop: UnaryOperator)
    | ChainedComparison
    | UnsupportedComparison(cop: CmpOperator)
    | UnsupportedSyntax(kind: string)
    | OperandTypeError                  // the library refuses arithmetic on a comparison

  /** `isinstance(v, int)`: a Python bool is an int too. */
  predicate IsInt(v: Value) { v.IntVal? || v.BoolVal? }

  function AsInt(v: Value): int
    requires IsInt(v)
  {
    if v.IntVal? then v.n else if v.b then 1 else 0
  }

  function AsLinear(v: Value): LinearExpr
    requires !v.CmpVal?
  {
    if v.LinVal? then v.e else ConstExpr(AsInt(v))
  }

  predicate Scoped(v: Value, vars: set<string>) {
    match v
    case LinVal(e) => MentionsOnly(e, vars)
    case CmpVal(_, l, r) => MentionsOnly(l, vars) && MentionsOnly(r, vars)
    case _ => true
  }

  predicate IntCompare(op: CmpOperator, a: int, b: int)
    requires InCmpTable(op)
  {
    match op
    case Eq => a == b
    case NotEq => a != b
    case Lt => a < b
    case LtE => a <= b
    case Gt => a > b
    case GtE => a >= b
  }

  /** `+`, `-` and `*` on Python integers. */
  function IntBin(op: BinOperator, a: int, b: int): int
    requires InBinTable(op)
  {
    match op
    case Add => a + b
    case Sub => a - b
    case Mult => a * b
  }

  function IntUnary(op: UnaryOperator, a: int): int
    requires InUnaryTable(op)
  {
    if op == USub then -a else a
  }

  /** `ops[type(node.op)](left, right)` for `+`, `-` and `*`, once the
      evaluator has let the operation through. */
  function ApplyBin(op: BinOperator, l: Value, r: Value): (res: Result<Value, EvalError>)
    requires InBinTable(op)
    requires op == Mult ==> IsInt(l) || IsInt(r)
    ensures res.Err? <==> l.CmpVal? || r.CmpVal?
    ensures res.Err? ==> res.error == OperandTypeError
    ensures res.Ok? ==> (res.value.IntVal? <==> IsInt(l) && IsInt(r)) && (res.value.IntVal? || res.value.LinVal?)
  {
    if l.CmpVal? || r.CmpVal? then Err(OperandTypeError)
    else if IsInt(l) && IsInt(r) then Ok(IntVal(IntBin(op, AsInt(l), AsInt(r))))
    else
      Ok(LinVal(match op
                case Add => Plus(AsLinear(l), AsLinear(r))
                case Sub => Minus(AsLinear(l), AsLinear(r))
                case Mult => if IsInt(l) then Scale(AsLinear(r), AsInt(l)) else Scale(AsLinear(l), AsInt(r))))
  }

  function ApplyUnary(op: UnaryOperator, v: Value): (res: Result<Value, EvalError>)
    requires InUnaryTable(op)
    ensures res.Err? <==> v.CmpVal?
    ensures res.Err? ==> res.error == OperandTypeError
    ensures res.Ok? ==> (res.value.IntVal? <==> IsInt(v)) && (res.value.IntVal? || res.value.LinVal?)
  {
    if v.CmpVal? then Err(OperandTypeError)
    else if IsInt(v) then Ok(IntVal(IntUnary(op, AsInt(v))))
    else Ok(LinVal(if op == USub then Scale(v.e, -1) else v.e))
  }

  /** A comparison of two integers is a Python bool; one involving a variable
      is a bounded linear expression. */
  function ApplyCompare(op: CmpOperator, l: Value, r: Value): (res: Result<Value, EvalError>)
    requires InCmpTable(op)
    ensures res.Err? <==> l.CmpVal? || r.CmpVal?
    ensures res.Err? ==> res.error == OperandTypeError
    ensures res.Ok? ==> (res.value.BoolVal? <==> IsInt(l) && IsInt(r)) && (res.value.BoolVal? || res.value.CmpVal?)
  {
    if l.CmpVal? || r.CmpVal? then Err(OperandTypeError)
    else if IsInt(l) && IsInt(r) then Ok(BoolVal(IntCompare(op, AsInt(l), AsInt(r))))
    else Ok(CmpVal(op, AsLinear(l), AsLinear(r)))
  }

  /** `_eval`: operands are evaluated left to right before the operator is
      checked, so the first failure met in that order is the one reported. */
  function Eval(node: Node, vars: set<string>): (r: Result<Value, EvalError>)
    ensures r.Ok? ==> Scoped(r.value, vars)
    decreases node
  {
    match node
    case Constant(lit) =>
      if lit.BoolLit? then Err(BoolLiteral)
      else if !lit.IntLit? then Err(NonIntegerLiteral)
      else Ok(IntVal(lit.i))
    case Name(id) =>
      if id in vars then Ok(LinVal(VarExpr(id))) else Err(UnknownVariable(id))
    case BinOp(left, op, right) =>
      var l :- Eval(left, vars);
      var r :- Eval(right, vars);
      if !InBinTable(op) then Err(UnsupportedOperator(op))
      else if op == Mult && !(IsInt(l) || IsInt(r)) then Err(NonLinearMultiplication)
      else ApplyBin(op, l, r)
    case UnaryOp(op, operand) =>
      var v :- Eval(operand, vars);
      if InUnaryTable(op) then ApplyUnary(op, v) else Err(UnsupportedUnaryOperator(op))
    case Compare(first, ops, comparators) =>
      var l :- Eval(first, vars);
      if |ops| != 1 || |comparators| != 1 then Err(ChainedComparison)
      else
        assert comparators[0] in comparators;
        var r :- Eval(comparators[0], vars);
        if InCmpTable(ops[0]) then ApplyCompare(ops[0], l, r) else Err(UnsupportedComparison(ops[0]))
    case OtherNode(kind) => Err(UnsupportedSyntax(kind))
  }

  /** `safe_eval_ast(expression, variables)`, with `ast.parse` as the parameter
      `parse` (None when the text is not a Python expression). */
  function SafeEvalAst(expression: string, parse: string -> Option<Node>, vars: set<string>): (r: Result<Value, EvalError>)
    ensures parse(expression).None? ==> r == Err(ParseFailure)
    ensures parse(expression).Some? ==> r == Eval(parse(expression).value, vars)
  {
    match parse(expression)
    case None => Err(ParseFailure)
    case Some(tree) => Eval(tree, vars)
  }

  // ---------------------------------------------------------------------------
  // What evaluation accepts

  /** The fragment the evaluator accepts: integer literals, names, `+ - *`,
      unary `+ -` and single comparisons with `== != < <= > >=`. */
  predicate InFragment(node: Node)
    decreases node
  {
    match node
    case Constant(lit) => lit.IntLit?
    case Name(_) => true
    case BinOp(l, op, r) => InBinTable(op) && InFragment(l) && InFragment(r)
    case UnaryOp(op, x) => InUnaryTable(op) && InFragment(x)
    case Compare(l, ops, cs) =>
      |ops| == 1 && |cs| == 1 && InCmpTable(ops[0]) && InFragment(l)
      && (assert cs[0] in cs; InFragment(cs[0]))
    case OtherNode(_) => false
  }

  /** Evaluation succeeds only on the fragment: a bool or non-integer literal,
      an operator outside the table, a chained comparison or any other syntax
      is an error. */
  lemma {:induction false} EvalOnlyFragment(node: Node, vars: set<string>)
    requires Eval(node, vars).Ok?
    ensures InFragment(node)
    decreases node
  {
    match node
    case Constant(_) =>
    case Name(_) =>
    case BinOp(l, _, r) => EvalOnlyFragment(l, vars); EvalOnlyFragment(r, vars);
    case UnaryOp(_, x) => EvalOnlyFragment(x, vars);
    case Compare(l, _, cs) =>
      EvalOnlyFragment(l, vars);
      assert cs[0] in cs;
      EvalOnlyFragment(cs[0], vars);
    case OtherNode(_) =>
  }

  /** Multiplying two operands that both evaluate to variable expressions is
      refused, so evaluation never yields a variable-times-variable term. */
  lemma NonLinearRejected(a: Node, b: Node, vars: set<string>)
    requires Eval(a, vars).Ok? && Eval(a, vars).value.LinVal?
    requires Eval(b, vars).Ok? && Eval(b, vars).value.LinVal?
    ensures Eval(BinOp(a, Mult, b), vars) == Err(NonLinearMultiplication)
  {
  }

  /** A name that is not a declared variable is reported as unknown. */
  lemma UnknownNameRejected(id: string, vars: set<string>)
    requires id !in vars
    ensures Eval(Name(id), vars) == Err(UnknownVariable(id))
  {
  }

  // ---------------------------------------------------------------------------
  // Reference semantics: evaluating the tree on concrete integers

  /** A Python int or bool. */
  datatype Concrete = CInt(i: int) | CBool(b: bool)

  function CAsInt(c: Concrete): int {
    if c.CInt? then c.i else if c.b then 1 else 0
  }

  /** What Python computes for the tree once every variable holds the integer
      `sigma` gives it; None outside the fragment. */
  function Interp(node: Node, sigma: map<string, int>): Option<Concrete>
    decreases node
  {
    match node
    case Constant(lit) =>
      if lit.IntLit? then Some(CInt(lit.i)) else if lit.BoolLit? then Some(CBool(lit.b)) else None
    case Name(id) => if id in sigma then Some(CInt(sigma[id])) else None
    case BinOp(l, op, r) =>
      if !InBinTable(op) then None
      else (match (Interp(l, sigma), Interp(r, sigma))
        case (Some(a), Some(b)) =>
          Some(CInt(IntBin(op, CAsInt(a), CAsInt(b))))
        case _ => None)
    case UnaryOp(op, x) =>
      if !InUnaryTable(op) then None
      else (match Interp(x, sigma)
        case Some(a) => Some(CInt(IntUnary(op, CAsInt(a))))
        case None => None)
    case Compare(l, ops, cs) =>
      if |ops| != 1 || |cs| != 1 || !InCmpTable(ops[0]) then None
      else
        assert cs[0] in cs;
        (match (Interp(l, sigma), Interp(cs[0], sigma))
         case (Some(a), Some(b)) => Some(CBool(IntCompare(ops[0], CAsInt(a), CAsInt(b))))
         case _ => None)
    case OtherNode(_) => None
  }

  /** The concrete Python value of an evaluator result under `sigma`. */
  function Concretize(v: Value, sigma: map<string, int>): Concrete {
    match v
    case IntVal(n) => CInt(n)
    case BoolVal(b) => CBool(b)
    case LinVal(e) => CInt(LinValue(e, sigma))
    case CmpVal(op, l, r) =>
      if InCmpTable(op) then CBool(IntCompare(op, LinValue(l, sigma), LinValue(r, sigma))) else CBool(false)
  }

  predicate WellFormed(v: Value) {
    v.CmpVal? ==> InCmpTable(v.op)
  }

  lemma AsLinearValue(v: Value, sigma: map<string, int>)
    requires !v.CmpVal?
    ensures LinValue(AsLinear(v), sigma) == CAsInt(Concretize(v, sigma))
  {
  }

  lemma ApplyBinSound(op: BinOperator, l: Value, r: Value, sigma: map<string, int>)
    requires InBinTable(op) && (op == Mult ==> IsInt(l) || IsInt(r))
    requires ApplyBin(op, l, r).Ok?
    ensures Concretize(ApplyBin(op, l, r).value, sigma)
         == CInt(IntBin(op, CAsInt(Concretize(l, sigma)), CAsInt(Concretize(r, sigma))))
  {
    if !(IsInt(l) && IsInt(r)) {
      AsLinearValue(l, sigma);
      AsLinearValue(r, sigma);
      match op
      case Add => PlusValue(AsLinear(l), AsLinear(r), sigma);
      case Sub => MinusValue(AsLinear(l), AsLinear(r), sigma);
      case Mult => MultValue(l, r, sigma);
    }
  }

  /** Multiplying by an integer operand scales the other operand's value. */
  lemma MultValue(l: Value, r: Value, sigma: map<string, int>)
    requires !l.CmpVal? && !r.CmpVal? && (IsInt(l) || IsInt(r))
    ensures LinValue(if IsInt(l) then Scale(AsLinear(r), AsInt(l)) else Scale(AsLinear(l), AsInt(r)), sigma)
         == CAsInt(Concretize(l, sigma)) * CAsInt(Concretize(r, sigma))
  {
    AsLinearValue(l, sigma);
    AsLinearValue(r, sigma);
    if IsInt(l) { ScaleValue(AsLinear(r), AsInt(l), sigma); }
    else { ScaleValue(AsLinear(l), AsInt(r), sigma); }
  }

  lemma MinusValue(a: LinearExpr, b: LinearExpr, sigma: map<string, int>)
    ensures LinValue(Minus(a, b), sigma) == LinValue(a, sigma) - LinValue(b, sigma)
  {
    ScaleValue(b, -1, sigma);
    PlusValue(a, Scale(b, -1), sigma);
  }

  lemma ApplyUnarySound(op: UnaryOperator, v: Value, sigma: map<string, int>)
    requires InUnaryTable(op) && ApplyUnary(op, v).Ok?
    ensures Concretize(ApplyUnary(op, v).value, sigma) == CInt(IntUnary(op, CAsInt(Concretize(v, sigma))))
  {
    if v.LinVal? { ScaleValue(v.e, -1, sigma); }
  }

  lemma ApplyCompareSound(op: CmpOperator, l: Value, r: Value, sigma: map<string, int>)
    requires InCmpTable(op) && ApplyCompare(op, l, r).Ok?
    ensures WellFormed(ApplyCompare(op, l, r).value)
    ensures Concretize(ApplyCompare(op, l, r).value, sigma)
         == CBool(IntCompare(op, CAsInt(Concretize(l, sigma)), CAsInt(Concretize(r, sigma))))
  {
    if !(IsInt(l) && IsInt(r)) {
      AsLinearValue(l, sigma);
      AsLinearValue(r, sigma);
    }
  }

  /** Soundness of the symbolic evaluator: building the linear expression and
      then giving the variables values yields what Python computes on those
      values directly. */
  lemma {:induction false} EvalSound(node: Node, vars: set<string>, sigma: map<string, int>)
    requires vars <= sigma.Keys
    requires Eval(node, vars).Ok?
    ensures WellFormed(Eval(node, vars).value)
    ensures Interp(node, sigma) == Some(Concretize(Eval(node, vars).value, sigma))
    decreases node
  {
    match node
    case Constant(_) =>
    case Name(id) =>
      assert TermsValue(VarExpr(id).terms, sigma) == Lookup(sigma, id) + TermsValue([], sigma);
    case BinOp(left, op, right) =>
      EvalSound(left, vars, sigma);
      EvalSound(right, vars, sigma);
      ApplyBinSound(op, Eval(left, vars).value, Eval(right, vars).value, sigma);
    case UnaryOp(op, operand) =>
      EvalSound(operand, vars, sigma);
      ApplyUnarySound(op, Eval(operand, vars).value, sigma);
    case Compare(first, ops, comparators) =>
      EvalSound(first, vars, sigma);
      assert comparators[0] in comparators;
      EvalSound(comparators[0], vars, sigma);
      ApplyCompareSound(ops[0], Eval(first, vars).value, Eval(comparators[0], vars).value, sigma);
    case OtherNode(_) =>
  }
}
