/** The relax-and-resolve constraint solver of backend/app/solver.py.

    A request declares bounded integer variables, hard and soft constraints
    written as Python expressions, and an optional objective. The solver adds
    every hard constraint and the active soft ones to a fresh model, asks the
    CP-SAT solver for a solution and, while none is found, drops the soft
    constraint of least importance and tries again.

    The CP-SAT solver is a parameter `cpsat` (a function from the model to the
    status, the variable values, the objective value and the wall time it
    reports) and `ast.parse` is a parameter `parse`. */
module Solver {
  import opened Wrappers
  import opened PyStr
  import opened Sorting
  import opened PyAst
  import Seqs

  // ---------------------------------------------------------------------------
  // The request schema

  datatype ConstraintType = Hard | Soft

  datatype Direction = Maximize | Minimize

  datatype VariableDefinition = VariableDefinition(name: string, lowerBound: int, upperBound: int)

  datatype ConstraintDefinition = ConstraintDefinition(
    expression: string,
    constraintType: ConstraintType,
    priority: int,       // lower number = more important (soft constraints only)
    description: string)

  datatype ObjectiveDefinition = ObjectiveDefinition(expression: string, direction: Direction)

  datatype SolverRequest = SolverRequest(
    variables: seq<VariableDefinition>,
    constraints: seq<ConstraintDefinition>,
    objective: Option<ObjectiveDefinition>)

  /** Request fields as they arrive in the JSON payload, before validation.
      Absent optional fields are `None`. */
  datatype RawVariable = RawVariable(name: string, lowerBound: int, upperBound: int)

  datatype RawConstraint = RawConstraint(
    expression: string,
    constraintType: Option<string>,
    priority: Option<int>,
    description: Option<string>)

  datatype RawObjective = RawObjective(expression: string, direction: string)

  datatype RawRequest = RawRequest(
    variables: seq<RawVariable>,
    constraints: seq<RawConstraint>,
    objective: Option<RawObjective>)

  datatype ValidationError =
    | BoundsViolation(lowerBound: int, upperBound: int)
    | BadConstraintType(given: string)
    | BadDirection(given: string)

  function ValidationMessage(e: ValidationError): string {
    match e
    case BoundsViolation(lo, hi) =>
      "lower_bound must be <= upper_bound (got lower_bound=" + IntToDecimal(lo)
      + ", upper_bound=" + IntToDecimal(hi) + ")"
    case BadConstraintType(s) => "constraint_type must be 'hard' or 'soft' (got '" + s + "')"
    case BadDirection(s) => "direction must be 'maximize' or 'minimize' (got '" + s + "')"
  }

  /** `VariableDefinition.check_bounds`. */
  function CheckBounds(v: RawVariable): (r: Result<VariableDefinition, ValidationError>)
    ensures r.Ok? <==> v.lowerBound <= v.upperBound
    ensures r.Ok? ==> r.value == VariableDefinition(v.name, v.lowerBound, v.upperBound)
    ensures r.Err? ==> r.error == BoundsViolation(v.lowerBound, v.upperBound)
  {
    if v.lowerBound > v.upperBound then Err(BoundsViolation(v.lowerBound, v.upperBound))
    else Ok(VariableDefinition(v.name, v.lowerBound, v.upperBound))
  }

  /** The `Literal["hard", "soft"]` field with its default "hard", priority
      defaulting to 0 and description to "". */
  function ValidateConstraint(c: RawConstraint): (r: Result<ConstraintDefinition, ValidationError>)
    ensures r.Ok? <==> c.constraintType in {None, Some("hard"), Some("soft")}
    ensures r.Ok? ==> r.value.expression == c.expression
    ensures r.Ok? ==> (r.value.constraintType == Soft <==> c.constraintType == Some("soft"))
    ensures r.Ok? ==> r.value.priority == (if c.priority.Some? then c.priority.value else 0)
    ensures r.Ok? ==> r.value.description == (if c.description.Some? then c.description.value else "")
  {
    var ty :- match c.constraintType
      case None => Ok(Hard)
      case Some(s) =>
        if s == "hard" then Ok(Hard) else if s == "soft" then Ok(Soft) else Err(BadConstraintType(s));
    Ok(ConstraintDefinition(
      c.expression, ty,
      if c.priority.Some? then c.priority.value else 0,
      if c.description.Some? then c.description.value else ""))
  }

  function ValidateObjective(o: RawObjective): (r: Result<ObjectiveDefinition, ValidationError>)
    ensures r.Ok? <==> o.direction in {"maximize", "minimize"}
    ensures r.Ok? ==> r.value.expression == o.expression
    ensures r.Ok? ==> (r.value.direction == Maximize <==> o.direction == "maximize")
  {
    if o.direction == "maximize" then Ok(ObjectiveDefinition(o.expression, Maximize))
    else if o.direction == "minimize" then Ok(ObjectiveDefinition(o.expression, Minimize))
    else Err(BadDirection(o.direction))
  }

  function ValidateVariables(vs: seq<RawVariable>): (r: Result<seq<VariableDefinition>, ValidationError>)
    ensures r.Ok? ==> |r.value| == |vs|
  {
    if vs == [] then Ok([])
    else
      var v :- CheckBounds(vs[0]);
      var rest :- ValidateVariables(vs[1..]);
      Ok([v] + rest)
  }

  function ValidateConstraints(cs: seq<RawConstraint>): (r: Result<seq<ConstraintDefinition>, ValidationError>)
    ensures r.Ok? ==> |r.value| == |cs|
  {
    if cs == [] then Ok([])
    else
      var c :- ValidateConstraint(cs[0]);
      var rest :- ValidateConstraints(cs[1..]);
      Ok([c] + rest)
  }

  /** `SolverRequest(**json_data)`: the first error in field order is the one reported. */
  function Validate(raw: RawRequest): (r: Result<SolverRequest, ValidationError>)
    ensures r.Ok? <==>
      (forall i :: 0 <= i < |raw.variables| ==> BoundsOk(raw.variables[i]))
      && (forall i :: 0 <= i < |raw.constraints| ==> TypeOk(raw.constraints[i]))
      && (raw.objective.Some? ==> raw.objective.value.direction in {"maximize", "minimize"})
    ensures r.Ok? ==>
      |r.value.variables| == |raw.variables| && |r.value.constraints| == |raw.constraints|
      && (r.value.objective.Some? <==> raw.objective.Some?)
  {
    ValidateVariablesExact(raw.variables);
    ValidateConstraintsExact(raw.constraints);
    var vs :- ValidateVariables(raw.variables);
    var cs :- ValidateConstraints(raw.constraints);
    var obj :- match raw.objective
      case None => Ok(None)
      case Some(o) => (var d :- ValidateObjective(o); Ok(Some(d)));
    Ok(SolverRequest(vs, cs, obj))
  }

  predicate BoundsOk(v: RawVariable) { v.lowerBound <= v.upperBound }

  predicate TypeOk(c: RawConstraint) { c.constraintType in {None, Some("hard"), Some("soft")} }

  /** Validation of a request with an objective succeeds when each part
      does, and a failing variable list is reported first. */
  lemma ValidateParts(raw: RawRequest)
    requires raw.objective.Some?
    ensures Validate(raw).Ok? <==>
      ValidateVariables(raw.variables).Ok? && ValidateConstraints(raw.constraints).Ok?
      && ValidateObjective(raw.objective.value).Ok?
    ensures ValidateVariables(raw.variables).Err? ==> Validate(raw) == Err(ValidateVariables(raw.variables).error)
  {
  }

  lemma {:induction false} ValidateConstraintsExact(cs: seq<RawConstraint>)
    ensures ValidateConstraints(cs).Ok? <==> forall i :: 0 <= i < |cs| ==> TypeOk(cs[i])
  {
    if cs != [] {
      ValidateConstraintsExact(cs[1..]);
      if ValidateConstraints(cs).Ok? {
        forall i | 0 <= i < |cs| ensures TypeOk(cs[i]) {
          if i > 0 { assert cs[i] == cs[1..][i - 1]; }
        }
      }
      if forall i :: 0 <= i < |cs| ==> TypeOk(cs[i]) {
        assert forall i :: 0 <= i < |cs[1..]| ==> TypeOk(cs[1..][i]) by {
          forall i | 0 <= i < |cs[1..]| ensures TypeOk(cs[1..][i]) { assert cs[1..][i] == cs[i + 1]; }
        }
      }
    }
  }

  /** A request validates exactly when every variable has ordered bounds and
      every enumerated field holds one of its allowed values; validated
      variables keep their bounds, so every declared domain is non-empty. */
  lemma {:induction false} ValidateVariablesExact(vs: seq<RawVariable>)
    ensures ValidateVariables(vs).Ok? <==> forall i :: 0 <= i < |vs| ==> BoundsOk(vs[i])
    ensures ValidateVariables(vs).Ok? ==> forall i :: 0 <= i < |vs| ==>
      ValidateVariables(vs).value[i] == VariableDefinition(vs[i].name, vs[i].lowerBound, vs[i].upperBound)
  {
    if vs != [] {
      ValidateVariablesExact(vs[1..]);
      if ValidateVariables(vs).Ok? {
        forall i | 0 <= i < |vs| ensures BoundsOk(vs[i]) {
          if i > 0 { assert vs[i] == vs[1..][i - 1]; }
        }
      }
      if forall i :: 0 <= i < |vs| ==> BoundsOk(vs[i]) {
        assert forall i :: 0 <= i < |vs[1..]| ==> BoundsOk(vs[1..][i]) by {
          forall i | 0 <= i < |vs[1..]| ensures BoundsOk(vs[1..][i]) { assert vs[1..][i] == vs[i + 1]; }
        }
      }
    }
  }

  // ---------------------------------------------------------------------------
  // The CP-SAT model and the solver oracle

  /** A constraint handed to `model.Add`: a bounded linear expression, or a
      Python bool already decided by comparing two integers. */
  datatype CpConstraint =
    | LinearConstraint(op: CmpOperator, lhs: LinearExpr, rhs: LinearExpr)
    | ConstantConstraint(holds: bool)

  datatype CpObjective = CpObjective(direction: Direction, expr: LinearExpr)

  datatype CpModel = CpModel(
    variables: seq<VariableDefinition>,
    constraints: seq<CpConstraint>,
    objective: Option<CpObjective>)

  datatype Status = Unknown | ModelInvalid | Feasible | Infeasible | Optimal

  /** `CpSolver.StatusName`. */
  function StatusName(s: Status): string {
    match s
    case Unknown => "UNKNOWN"
    case ModelInvalid => "MODEL_INVALID"
    case Feasible => "FEASIBLE"
    case Infeasible => "INFEASIBLE"
    case Optimal => "OPTIMAL"
  }

  lemma StatusNameInjective(a: Status, b: Status)
    ensures StatusName(a) == StatusName(b) <==> a == b
  {
  }

  predicate IsSolved(s: Status) { s == Optimal || s == Feasible }

  /** What one `CpSolver.Solve(model)` leaves behind: the status, `Value` of
      each variable, `ObjectiveValue()` and `WallTime()`. */
  datatype CpResult = CpResult(status: Status, value: string -> int, objectiveValue: real, wallTime: real)

  type CpSat = CpModel -> CpResult

  /** Value of every declared variable under the solver's assignment. */
  function Assignment(defs: seq<VariableDefinition>, value: string -> int): (sigma: map<string, int>)
    ensures sigma.Keys == NameSet(defs)
    ensures forall x :: x in sigma ==> sigma[x] == value(x)
  {
    map x | x in NameSet(defs) :: value(x)
  }

  predicate Holds(c: CpConstraint, sigma: map<string, int>) {
    match c
    case LinearConstraint(op, l, r) => InCmpTable(op) && IntCompare(op, LinValue(l, sigma), LinValue(r, sigma))
    case ConstantConstraint(b) => b
  }

  predicate Satisfies(m: CpModel, value: string -> int) {
    (forall i :: 0 <= i < |m.variables| ==>
       m.variables[i].lowerBound <= value(m.variables[i].name) <= m.variables[i].upperBound)
    && (forall i :: 0 <= i < |m.constraints| ==> Holds(m.constraints[i], Assignment(m.variables, value)))
  }

  /** A solver that only reports OPTIMAL or FEASIBLE with an assignment that
      meets every bound and every constraint of the model. */
  ghost predicate SoundOracle(cpsat: CpSat) {
    forall m :: IsSolved(cpsat(m).status) ==> Satisfies(m, cpsat(m).value)
  }

  // ---------------------------------------------------------------------------
  // Building the model (`DynamicSolver._build_model`)

  datatype BuildError =
    | InvalidName(name: string)
    | DuplicateName(name: string)
    | EvalFailed(expression: string, cause: EvalError)
    | NotAConstraint(expression: string)     // `model.Add` given a number or a linear expression
    | BadObjective(expression: string)       // `Maximize`/`Minimize` given a comparison

  function NameSeq(defs: seq<VariableDefinition>): (r: seq<string>)
    ensures |r| == |defs|
    ensures forall i :: 0 <= i < |defs| ==> r[i] == defs[i].name
  {
    if defs == [] then [] else NameSeq(defs[..|defs| - 1]) + [defs[|defs| - 1].name]
  }

  function NameSet(defs: seq<VariableDefinition>): set<string> {
    set d | d in defs :: d.name
  }

  /** The first invalid or repeated name met when declaring `defs` in order. */
  function DeclError(defs: seq<VariableDefinition>): (r: Option<BuildError>)
    ensures r.Some? ==> r.value.InvalidName? || r.value.DuplicateName?
    ensures r.Some? && r.value.InvalidName? ==> !IsIdentifier(r.value.name)
    ensures r.Some? ==> exists i :: 0 <= i < |defs| && defs[i].name == r.value.name
    ensures r.Some? && r.value.DuplicateName? ==>
      exists i, j :: 0 <= i < j < |defs| && defs[i].name == r.value.name && defs[j].name == r.value.name
  {
    if defs == [] then None
    else
      var init, d := defs[..|defs| - 1], defs[|defs| - 1];
      assert forall i :: 0 <= i < |init| ==> init[i] == defs[i];
      if DeclError(init).Some? then DeclError(init)
      else if !IsIdentifier(d.name) then Some(InvalidName(d.name))
      else if d.name in NameSeq(init) then
        assert exists i :: 0 <= i < |init| && NameSeq(init)[i] == d.name;
        assert defs[|defs| - 1].name == d.name;
        Some(DuplicateName(d.name))
      else None
  }

  predicate DistinctNames(defs: seq<VariableDefinition>) {
    forall i, j :: 0 <= i < j < |defs| ==> defs[i].name != defs[j].name
  }

  /** Declaration succeeds exactly when every name is an identifier and no
      name is declared twice. */
  lemma {:induction false} DeclErrorExact(defs: seq<VariableDefinition>)
    ensures DeclError(defs).None? <==>
      (forall i :: 0 <= i < |defs| ==> IsIdentifier(defs[i].name)) && DistinctNames(defs)
  {
    if defs != [] {
      var init, d := defs[..|defs| - 1], defs[|defs| - 1];
      DeclErrorExact(init);
      assert forall i :: 0 <= i < |init| ==> init[i] == defs[i];
      if DeclError(defs).None? {
        forall i, j | 0 <= i < j < |defs| ensures defs[i].name != defs[j].name {
          if j == |defs| - 1 { assert NameSeq(init)[i] == defs[i].name; }
        }
      }
      if (forall i :: 0 <= i < |defs| ==> IsIdentifier(defs[i].name)) && DistinctNames(defs) {
        assert IsIdentifier(defs[|defs| - 1].name);
      }
    }
  }

  lemma DeclErrorStep(defs: seq<VariableDefinition>, i: nat)
    requires i < |defs|
    ensures DeclError(defs[..i + 1]) ==
      if DeclError(defs[..i]).Some? then DeclError(defs[..i])
      else if !IsIdentifier(defs[i].name) then Some(InvalidName(defs[i].name))
      else if defs[i].name in NameSeq(defs[..i]) then Some(DuplicateName(defs[i].name))
      else None
    ensures NameSeq(defs[..i + 1]) == NameSeq(defs[..i]) + [defs[i].name]
  {
    assert defs[..i + 1][..i] == defs[..i];
  }

  lemma NameSetOfSeq(defs: seq<VariableDefinition>)
    ensures (set x | x in NameSeq(defs)) == NameSet(defs)
  {
    forall x ensures x in NameSeq(defs) <==> x in NameSet(defs) {
      if x in NameSet(defs) {
        var k :| 0 <= k < |defs| && defs[k].name == x;
        assert NameSeq(defs)[k] == x;
      }
    }
  }

  lemma FilterStep(cs: seq<ConstraintDefinition>, t: ConstraintType, i: nat)
    requires i < |cs|
    ensures Filter(cs[..i + 1], t) == Filter(cs[..i], t) + (if cs[i].constraintType == t then [cs[i]] else [])
  {
    assert cs[..i + 1][..i] == cs[..i];
  }

  /** Once declaring a prefix has failed, declaring more keeps that error. */
  lemma {:induction false} DeclErrorExtends(defs: seq<VariableDefinition>, i: nat)
    requires i <= |defs| && DeclError(defs[..i]).Some?
    ensures DeclError(defs) == DeclError(defs[..i])
    decreases |defs| - i
  {
    if i < |defs| {
      assert defs[..i + 1][..i] == defs[..i];
      DeclErrorExtends(defs, i + 1);
    } else {
      assert defs[..i] == defs;
    }
  }

  /** `model.Add(expr)`. */
  function ToConstraint(expression: string, v: Value): (r: Result<CpConstraint, BuildError>)
    ensures r.Ok? <==> v.CmpVal? || v.BoolVal?
    ensures r.Err? ==> r.error == NotAConstraint(expression)
  {
    match v
    case CmpVal(op, l, r) => Ok(LinearConstraint(op, l, r))
    case BoolVal(b) => Ok(ConstantConstraint(b))
    case _ => Err(NotAConstraint(expression))
  }

  /** `model.Add(safe_eval_ast(c.expression, self.vars))`. */
  function CompileConstraint(c: ConstraintDefinition, parse: string -> Option<Node>, names: set<string>): (r: Result<CpConstraint, BuildError>)
    ensures r.Ok? <==>
      SafeEvalAst(c.expression, parse, names).Ok?
      && (SafeEvalAst(c.expression, parse, names).value.CmpVal? || SafeEvalAst(c.expression, parse, names).value.BoolVal?)
    ensures r.Err? ==> (r.error.EvalFailed? || r.error.NotAConstraint?) && r.error.expression == c.expression
  {
    match SafeEvalAst(c.expression, parse, names)
    case Err(e) => Err(EvalFailed(c.expression, e))
    case Ok(v) => ToConstraint(c.expression, v)
  }

  function CompileAll(cs: seq<ConstraintDefinition>, parse: string -> Option<Node>, names: set<string>): (r: Result<seq<CpConstraint>, BuildError>)
    ensures r.Ok? ==> |r.value| == |cs|
  {
    if cs == [] then Ok([])
    else
      var init :- CompileAll(cs[..|cs| - 1], parse, names);
      var c :- CompileConstraint(cs[|cs| - 1], parse, names);
      Ok(init + [c])
  }

  lemma {:induction false} CompileAllAt(cs: seq<ConstraintDefinition>, parse: string -> Option<Node>, names: set<string>, i: nat)
    requires CompileAll(cs, parse, names).Ok? && i < |cs|
    ensures CompileConstraint(cs[i], parse, names) == Ok(CompileAll(cs, parse, names).value[i])
  {
    if i < |cs| - 1 {
      CompileAllAt(cs[..|cs| - 1], parse, names, i);
    }
  }

  lemma {:induction false} CompileAllExtends(a: seq<ConstraintDefinition>, b: seq<ConstraintDefinition>, parse: string -> Option<Node>, names: set<string>)
    requires CompileAll(a, parse, names).Err?
    ensures CompileAll(a + b, parse, names) == CompileAll(a, parse, names)
  {
    if b == [] {
      assert a + b == a;
    } else {
      assert (a + b)[..|a + b| - 1] == a + b[..|b| - 1];
      CompileAllExtends(a, b[..|b| - 1], parse, names);
    }
  }

  lemma CompileAllSnoc(a: seq<ConstraintDefinition>, c: ConstraintDefinition, parse: string -> Option<Node>, names: set<string>)
    ensures CompileAll(a + [c], parse, names) ==
      match CompileAll(a, parse, names)
      case Err(e) => Err(e)
      case Ok(init) =>
        (match CompileConstraint(c, parse, names)
         case Err(e) => Err(e)
         case Ok(x) => Ok(init + [x]))
  {
    assert (a + [c])[..|a|] == a;
  }

  function Filter(cs: seq<ConstraintDefinition>, t: ConstraintType): (r: seq<ConstraintDefinition>)
    ensures forall i :: 0 <= i < |r| ==> r[i].constraintType == t
    ensures forall c :: c in r ==> c in cs
  {
    if cs == [] then []
    else Filter(cs[..|cs| - 1], t) + (if cs[|cs| - 1].constraintType == t then [cs[|cs| - 1]] else [])
  }

  /** One step of the loop that compiles the hard constraints: a soft
      constraint changes nothing, a hard one appends its compiled form or
      ends the whole list with its error. */
  lemma HardStep(cs: seq<ConstraintDefinition>, i: nat, parse: string -> Option<Node>, names: set<string>)
    requires i < |cs| && CompileAll(Filter(cs[..i], Hard), parse, names).Ok?
    ensures var before := CompileAll(Filter(cs[..i], Hard), parse, names).value;
      var c := CompileConstraint(cs[i], parse, names);
      var after := CompileAll(Filter(cs[..i + 1], Hard), parse, names);
      if cs[i].constraintType == Hard then
        (c.Err? ==> CompileAll(Filter(cs, Hard), parse, names) == Err(c.error))
        && (c.Ok? ==> after == Ok(before + [c.value]))
      else after == Ok(before)
  {
    FilterStep(cs, Hard, i);
    if cs[i].constraintType == Hard {
      CompileAllSnoc(Filter(cs[..i], Hard), cs[i], parse, names);
      if CompileConstraint(cs[i], parse, names).Err? {
        CompileFilterExtends(cs, Hard, i + 1, parse, names);
      }
    } else {
      assert Filter(cs[..i + 1], Hard) == Filter(cs[..i], Hard);
    }
  }

  /** One step of the loop that compiles the selected soft constraints: the
      next one is appended in compiled form, or its error ends the list. */
  lemma SoftStep(soft: seq<ConstraintDefinition>, i: nat, parse: string -> Option<Node>, names: set<string>)
    requires i < |soft| && CompileAll(soft[..i], parse, names).Ok?
    ensures var c := CompileConstraint(soft[i], parse, names);
      (c.Err? ==> CompileAll(soft, parse, names) == Err(c.error))
      && (c.Ok? ==> CompileAll(soft[..i + 1], parse, names) == Ok(CompileAll(soft[..i], parse, names).value + [c.value]))
  {
    assert soft[..i + 1] == soft[..i] + [soft[i]];
    CompileAllSnoc(soft[..i], soft[i], parse, names);
    if CompileConstraint(soft[i], parse, names).Err? {
      CompileAllExtends(soft[..i + 1], soft[i + 1..], parse, names);
      assert soft[..i + 1] + soft[i + 1..] == soft;
    }
  }

  /** Once compiling the hard constraints of a prefix has failed, the whole
      list fails with the same error. */
  lemma {:induction false} CompileFilterExtends(cs: seq<ConstraintDefinition>, t: ConstraintType, i: nat,
                                                parse: string -> Option<Node>, names: set<string>)
    requires i <= |cs| && CompileAll(Filter(cs[..i], t), parse, names).Err?
    ensures CompileAll(Filter(cs, t), parse, names) == CompileAll(Filter(cs[..i], t), parse, names)
    decreases |cs| - i
  {
    if i == |cs| {
      assert cs[..i] == cs;
    } else {
      FilterStep(cs, t, i);
      if cs[i].constraintType == t {
        CompileAllSnoc(Filter(cs[..i], t), cs[i], parse, names);
      } else {
        assert Filter(cs[..i + 1], t) == Filter(cs[..i], t);
      }
      CompileFilterExtends(cs, t, i + 1, parse, names);
    }
  }

  function Priority(c: ConstraintDefinition): int { c.priority }

  /** The soft constraints, most important first, ties in input order. */
  function SortedSoft(req: SolverRequest): seq<ConstraintDefinition> {
    SortBy(Filter(req.constraints, Soft), Priority)
  }

  /** A fresh model: the variables, every hard constraint in input order, the
      selected soft constraints in the given order, and the objective. */
  function BuildModelSpec(req: SolverRequest, soft: seq<ConstraintDefinition>, parse: string -> Option<Node>): (r: Result<CpModel, BuildError>)
    ensures DeclError(req.variables).Some? ==> r == Err(DeclError(req.variables).value)
    ensures r.Ok? ==>
      r.value.variables == req.variables
      && |r.value.constraints| == |Filter(req.constraints, Hard)| + |soft|
      && (r.value.objective.Some? <==> req.objective.Some?)
  {
    if DeclError(req.variables).Some? then Err(DeclError(req.variables).value)
    else
      var names := NameSet(req.variables);
      var hard :- CompileAll(Filter(req.constraints, Hard), parse, names);
      var selected :- CompileAll(soft, parse, names);
      var objective :- CompileObjective(req.objective, parse, names);
      Ok(CpModel(req.variables, hard + selected, objective))
  }

  /** `BuildModelSpec` once the declarations succeeded, step by step. */
  lemma BuildModelSpecSteps(req: SolverRequest, soft: seq<ConstraintDefinition>, parse: string -> Option<Node>)
    requires DeclError(req.variables).None?
    ensures var names := NameSet(req.variables);
      var hard := CompileAll(Filter(req.constraints, Hard), parse, names);
      var selected := CompileAll(soft, parse, names);
      var objective := CompileObjective(req.objective, parse, names);
      BuildModelSpec(req, soft, parse) ==
        if hard.Err? then Err(hard.error)
        else if selected.Err? then Err(selected.error)
        else if objective.Err? then Err(objective.error)
        else Ok(CpModel(req.variables, [] + hard.value + selected.value, objective.value))
  {
    var names := NameSet(req.variables);
    var hard := CompileAll(Filter(req.constraints, Hard), parse, names);
    var selected := CompileAll(soft, parse, names);
    if hard.Ok? && selected.Ok? {
      assert [] + hard.value + selected.value == hard.value + selected.value;
    }
  }

  /** `model.Maximize`/`model.Minimize` on the evaluated objective, which
      must not be a comparison. */
  function CompileObjective(objective: Option<ObjectiveDefinition>, parse: string -> Option<Node>, names: set<string>)
    : (r: Result<Option<CpObjective>, BuildError>)
    ensures objective.None? ==> r == Ok(None)
    ensures r.Ok? && objective.Some? ==> r.value.Some? && r.value.value.direction == objective.value.direction
  {
    match objective
    case None => Ok(None)
    case Some(o) =>
      match SafeEvalAst(o.expression, parse, names)
      case Err(e) => Err(EvalFailed(o.expression, e))
      case Ok(v) =>
        if v.CmpVal? then Err(BadObjective(o.expression)) else Ok(Some(CpObjective(o.direction, AsLinear(v))))
  }

  /** Every rebuilt model starts with the same compiled hard constraints,
      whatever soft constraints are selected, and holds exactly one compiled
      constraint per hard and per selected soft constraint. */
  lemma HardInEveryModel(req: SolverRequest, soft: seq<ConstraintDefinition>, parse: string -> Option<Node>)
    requires BuildModelSpec(req, soft, parse).Ok?
    ensures CompileAll(Filter(req.constraints, Hard), parse, NameSet(req.variables)).Ok?
    ensures CompileAll(soft, parse, NameSet(req.variables)).Ok?
    ensures BuildModelSpec(req, soft, parse).value.constraints
         == CompileAll(Filter(req.constraints, Hard), parse, NameSet(req.variables)).value
          + CompileAll(soft, parse, NameSet(req.variables)).value
    ensures |BuildModelSpec(req, soft, parse).value.constraints| == |Filter(req.constraints, Hard)| + |soft|
    ensures BuildModelSpec(req, soft, parse).value.variables == req.variables
  {
  }

  /** A hard constraint that the variables, the hard constraints or the
      objective cannot be built from makes every model fail, whatever soft
      constraints are selected. */
  lemma BuildErrorIndependentOfSoft(req: SolverRequest, s1: seq<ConstraintDefinition>, s2: seq<ConstraintDefinition>, parse: string -> Option<Node>)
    requires DeclError(req.variables).Some? || CompileAll(Filter(req.constraints, Hard), parse, NameSet(req.variables)).Err?
    ensures BuildModelSpec(req, s1, parse) == BuildModelSpec(req, s2, parse)
    ensures BuildModelSpec(req, s1, parse).Err?
  {
  }

  // ---------------------------------------------------------------------------
  // The relaxation loop (`DynamicSolver.solve`)

  datatype Outcome = Outcome(active: seq<ConstraintDefinition>, dropped: seq<ConstraintDefinition>, result: CpResult)

  /** The loop from a state with `active` soft constraints still in force and
      `dropped` already given up: rebuild, solve, stop when solved or nothing
      is left to drop, otherwise move the last active constraint to `dropped`. */
  function Relax(req: SolverRequest, parse: string -> Option<Node>, cpsat: CpSat,
                 active: seq<ConstraintDefinition>, dropped: seq<ConstraintDefinition>): (r: Result<Outcome, BuildError>)
    ensures r.Ok? ==> IsSolved(r.value.result.status) || r.value.active == []
    ensures r.Ok? ==> |r.value.active| <= |active| && r.value.active == active[..|r.value.active|]
    ensures r.Ok? ==> |dropped| <= |r.value.dropped| && r.value.dropped[..|dropped|] == dropped
    ensures r.Ok? ==> |r.value.active| + |r.value.dropped| == |active| + |dropped|
    decreases |active|
  {
    match BuildModelSpec(req, active, parse)
    case Err(e) => Err(e)
    case Ok(m) =>
      var res := cpsat(m);
      if IsSolved(res.status) || active == [] then Ok(Outcome(active, dropped, res))
      else Relax(req, parse, cpsat, active[..|active| - 1], dropped + [active[|active| - 1]])
  }

  /** The soft-constraint lists the loop builds a model from, one per round. */
  function Attempts(req: SolverRequest, parse: string -> Option<Node>, cpsat: CpSat,
                    active: seq<ConstraintDefinition>): seq<seq<ConstraintDefinition>>
    decreases |active|
  {
    match BuildModelSpec(req, active, parse)
    case Err(_) => [active]
    case Ok(m) =>
      if IsSolved(cpsat(m).status) || active == [] then [active]
      else [active] + Attempts(req, parse, cpsat, active[..|active| - 1])
  }

  function Reverse<T>(s: seq<T>): (r: seq<T>)
    ensures |r| == |s|
  {
    if s == [] then [] else [s[|s| - 1]] + Reverse(s[..|s| - 1])
  }

  lemma {:induction false} ReverseAt<T>(s: seq<T>, i: nat)
    requires i < |s|
    ensures Reverse(s)[i] == s[|s| - 1 - i]
  {
    if i > 0 {
      ReverseAt(s[..|s| - 1], i - 1);
    }
  }

  lemma ReverseSnoc<T>(s: seq<T>, x: T)
    ensures Reverse(s + [x]) == [x] + Reverse(s)
  {
    assert (s + [x])[..|s|] == s;
  }

  /** Loop invariant: the active constraints followed by the dropped ones in
      reverse order of dropping is always the list the loop started from; the
      active list only shrinks from the end and `dropped` only grows. */
  lemma {:induction false} RelaxPartition(req: SolverRequest, parse: string -> Option<Node>, cpsat: CpSat,
                                          active: seq<ConstraintDefinition>, dropped: seq<ConstraintDefinition>)
    requires Relax(req, parse, cpsat, active, dropped).Ok?
    ensures var o := Relax(req, parse, cpsat, active, dropped).value;
      o.active + Reverse(o.dropped) == active + Reverse(dropped)
      && |o.active| <= |active| && o.active == active[..|o.active|]
      && |dropped| <= |o.dropped| && o.dropped[..|dropped|] == dropped
    decreases |active|
  {
    var m := BuildModelSpec(req, active, parse).value;
    if !(IsSolved(cpsat(m).status) || active == []) {
      var a, x := active[..|active| - 1], active[|active| - 1];
      RelaxPartition(req, parse, cpsat, a, dropped + [x]);
      var o := Relax(req, parse, cpsat, active, dropped).value;
      assert o == Relax(req, parse, cpsat, a, dropped + [x]).value;
      assert active == a + [x];
      ShiftLast(a, x, dropped, o.active, o.dropped);
    }
  }

  /** Moving the last active constraint to the end of `dropped` keeps the
      partition of `a + [x]`. */
  lemma ShiftLast<T>(a: seq<T>, x: T, dropped: seq<T>, oa: seq<T>, od: seq<T>)
    requires oa + Reverse(od) == a + Reverse(dropped + [x])
    requires |oa| <= |a| && oa == a[..|oa|]
    requires |dropped| + 1 <= |od| && od[..|dropped| + 1] == dropped + [x]
    ensures oa + Reverse(od) == (a + [x]) + Reverse(dropped)
    ensures |oa| <= |a + [x]| && oa == (a + [x])[..|oa|]
    ensures |dropped| <= |od| && od[..|dropped|] == dropped
  {
    ReverseSnoc(dropped, x);
    Seqs.AppendAssoc(a, [x], Reverse(dropped));
    Seqs.TakeSnoc(a, x, |oa|);
    Seqs.TakeTake(od, |dropped|);
  }

  /** The loop stops on a solved model or with nothing left to drop; the
      reported result is the solver's answer on the model built from the final
      active list. */
  lemma {:induction false} RelaxStops(req: SolverRequest, parse: string -> Option<Node>, cpsat: CpSat,
                                      active: seq<ConstraintDefinition>, dropped: seq<ConstraintDefinition>)
    requires Relax(req, parse, cpsat, active, dropped).Ok?
    ensures var o := Relax(req, parse, cpsat, active, dropped).value;
      BuildModelSpec(req, o.active, parse).Ok?
      && o.result == cpsat(BuildModelSpec(req, o.active, parse).value)
      && (IsSolved(o.result.status) || o.active == [])
    decreases |active|
  {
    var m := BuildModelSpec(req, active, parse).value;
    if !(IsSolved(cpsat(m).status) || active == []) {
      RelaxStops(req, parse, cpsat, active[..|active| - 1], dropped + [active[|active| - 1]]);
    }
  }

  /** Round `i` builds its model from the active list with its last `i`
      constraints removed; every round but the last failed to solve a model
      it built; there are at most `|active| + 1` rounds, and exactly one more
      than the number of constraints dropped. */
  lemma {:induction false} AttemptsShape(req: SolverRequest, parse: string -> Option<Node>, cpsat: CpSat,
                                         active: seq<ConstraintDefinition>, dropped: seq<ConstraintDefinition>)
    ensures var at := Attempts(req, parse, cpsat, active);
      1 <= |at| <= |active| + 1
      && (forall i :: 0 <= i < |at| ==> at[i] == active[..|active| - i])
      && (forall i :: 0 <= i < |at| - 1 ==>
            BuildModelSpec(req, at[i], parse).Ok? && !IsSolved(cpsat(BuildModelSpec(req, at[i], parse).value).status))
    ensures Relax(req, parse, cpsat, active, dropped).Ok? ==>
      |Attempts(req, parse, cpsat, active)| == |Relax(req, parse, cpsat, active, dropped).value.dropped| - |dropped| + 1
    decreases |active|
  {
    var at := Attempts(req, parse, cpsat, active);
    match BuildModelSpec(req, active, parse)
    case Err(_) =>
      assert active[..|active|] == active;
    case Ok(m) =>
      if IsSolved(cpsat(m).status) || active == [] {
        assert active[..|active|] == active;
      } else {
        var a := active[..|active| - 1];
        AttemptsShape(req, parse, cpsat, a, dropped + [active[|active| - 1]]);
        var rest := Attempts(req, parse, cpsat, a);
        assert at == [active] + rest;
        forall i | 0 <= i < |at| ensures at[i] == active[..|active| - i] {
          if i == 0 { assert active[..|active|] == active; }
          else { assert at[i] == rest[i - 1] == a[..|a| - (i - 1)]; }
        }
        forall i | 0 <= i < |at| - 1
          ensures BuildModelSpec(req, at[i], parse).Ok? && !IsSolved(cpsat(BuildModelSpec(req, at[i], parse).value).status)
        {
          if i > 0 { assert at[i] == rest[i - 1]; }
        }
      }
  }

  // ---------------------------------------------------------------------------
  // The response

  datatype SolverResponse = SolverResponse(
    status: string,
    objectiveValue: Option<real>,
    solution: seq<(string, int)>,       // the `Dict[str, int]`, in declaration order
    wallTime: real,
    satisfiedConstraints: seq<string>,
    droppedConstraints: seq<string>)

  /** `c.description or c.expression`. */
  function Label(c: ConstraintDefinition): (r: string)
    ensures r == (if c.description != "" then c.description else c.expression)
  {
    if c.description == "" then c.expression else c.description
  }

  function Labels(cs: seq<ConstraintDefinition>): (r: seq<string>)
    ensures |r| == |cs|
    ensures forall i :: 0 <= i < |cs| ==> r[i] == Label(cs[i])
  {
    if cs == [] then [] else Labels(cs[..|cs| - 1]) + [Label(cs[|cs| - 1])]
  }

  function Solution(names: seq<string>, value: string -> int): (r: seq<(string, int)>)
    ensures |r| == |names|
    ensures forall i :: 0 <= i < |names| ==> r[i] == (names[i], value(names[i]))
  {
    if names == [] then [] else Solution(names[..|names| - 1], value) + [(names[|names| - 1], value(names[|names| - 1]))]
  }

  /** `SolverResponse(status="ERROR", wall_time=0.0)`. */
  function ErrorResponse(): SolverResponse {
    SolverResponse("ERROR", None, [], 0.0, [], [])
  }

  function Respond(req: SolverRequest, outcome: Result<Outcome, BuildError>): (r: SolverResponse)
    ensures outcome.Err? ==> r.status == "ERROR" && r.wallTime == 0.0 && r.solution == [] && r.droppedConstraints == []
    ensures outcome.Ok? ==> r.status == StatusName(outcome.value.result.status) && r.wallTime == outcome.value.result.wallTime
    ensures outcome.Ok? ==> |r.droppedConstraints| == |outcome.value.dropped|
    ensures outcome.Ok? && IsSolved(outcome.value.result.status) ==>
      r.objectiveValue.Some? && |r.solution| == |req.variables|
      && |r.satisfiedConstraints| == |Filter(req.constraints, Hard)| + |outcome.value.active|
    ensures outcome.Ok? && !IsSolved(outcome.value.result.status) ==>
      r.objectiveValue.None? && r.solution == [] && r.satisfiedConstraints == []
  {
    match outcome
    case Err(_) => ErrorResponse()
    case Ok(o) =>
      var solved := IsSolved(o.result.status);
      SolverResponse(
        StatusName(o.result.status),
        if solved then Some(o.result.objectiveValue) else None,
        if solved then Solution(NameSeq(req.variables), o.result.value) else [],
        o.result.wallTime,
        if solved then Labels(Filter(req.constraints, Hard)) + Labels(o.active) else [],
        Labels(o.dropped))
  }

  /** `DynamicSolver().solve(request)`. */
  function SolveSpec(req: SolverRequest, parse: string -> Option<Node>, cpsat: CpSat): (r: SolverResponse)
    ensures r.status == "ERROR" <==> Relax(req, parse, cpsat, SortedSoft(req), []).Err?
    ensures r.status in {"ERROR", "UNKNOWN", "MODEL_INVALID", "FEASIBLE", "INFEASIBLE", "OPTIMAL"}
    ensures r.status == "OPTIMAL" || r.status == "FEASIBLE" ==> |r.solution| == |req.variables|
    ensures r.status != "OPTIMAL" && r.status != "FEASIBLE" ==> r.solution == [] && r.satisfiedConstraints == []
  {
    Respond(req, Relax(req, parse, cpsat, SortedSoft(req), []))
  }

  // ---------------------------------------------------------------------------
  // What the relaxation guarantees

  /** Splitting a priority-sorted list into a kept prefix and a dropped
      suffix recorded back to front. */
  lemma SplitSorted(a: seq<ConstraintDefinition>, d: seq<ConstraintDefinition>, s: seq<ConstraintDefinition>)
    requires a + Reverse(d) == s && SortedBy(s, Priority)
    ensures forall i, j :: 0 <= i < j < |d| ==> d[i].priority >= d[j].priority
    ensures forall i, j :: 0 <= i < |a| && 0 <= j < |d| ==> a[i].priority <= d[j].priority
    ensures forall c :: c in d ==> c in s
  {
    var n := |a|;
    forall i, j | 0 <= i < j < |d| ensures d[i].priority >= d[j].priority {
      AppendReverseAt(a, d, i);
      AppendReverseAt(a, d, j);
      assert Priority(s[n + (|d| - 1 - j)]) <= Priority(s[n + (|d| - 1 - i)]);
    }
    forall i, j | 0 <= i < |a| && 0 <= j < |d| ensures a[i].priority <= d[j].priority {
      AppendReverseAt(a, d, j);
      assert s[i] == a[i];
      assert Priority(s[i]) <= Priority(s[n + (|d| - 1 - j)]);
    }
    forall c | c in d ensures c in s {
      var t :| 0 <= t < |d| && d[t] == c;
      AppendReverseAt(a, d, t);
    }
  }

  lemma AppendReverseAt<T>(a: seq<T>, d: seq<T>, t: nat)
    requires t < |d|
    ensures (a + Reverse(d))[|a| + (|d| - 1 - t)] == d[t]
  {
    ReverseAt(d, |d| - 1 - t);
  }

  /** Drop order: the constraints that stay followed by the dropped ones in
      reverse order of dropping is the sorted soft list. So dropped
      constraints have non-increasing priority numbers (least important
      first), no kept constraint has a larger priority number than a dropped
      one, and among constraints of equal priority the kept ones are the
      first-declared and the dropped ones the last-declared. */
  lemma DropOrder(req: SolverRequest, parse: string -> Option<Node>, cpsat: CpSat, o: Outcome)
    requires Relax(req, parse, cpsat, SortedSoft(req), []) == Ok(o)
    ensures o.active + Reverse(o.dropped) == SortedSoft(req)
    ensures forall i, j :: 0 <= i < j < |o.dropped| ==> o.dropped[i].priority >= o.dropped[j].priority
    ensures forall i, j :: 0 <= i < |o.active| && 0 <= j < |o.dropped| ==> o.active[i].priority <= o.dropped[j].priority
    ensures forall k :: WithKey(o.active, Priority, k) + WithKey(Reverse(o.dropped), Priority, k)
                        == WithKey(Filter(req.constraints, Soft), Priority, k)
  {
    var soft := SortedSoft(req);
    RelaxPartition(req, parse, cpsat, soft, []);
    assert o.active + Reverse(o.dropped) == soft;
    SplitSorted(o.active, o.dropped, soft);
    forall k ensures WithKey(o.active, Priority, k) + WithKey(Reverse(o.dropped), Priority, k)
                     == WithKey(Filter(req.constraints, Soft), Priority, k) {
      WithKeyConcat(o.active, Reverse(o.dropped), Priority, k);
    }
  }

  /** Only soft constraints are ever dropped, and each dropped constraint is
      one of the request's constraints. */
  lemma OnlySoftDropped(req: SolverRequest, parse: string -> Option<Node>, cpsat: CpSat, o: Outcome)
    requires Relax(req, parse, cpsat, SortedSoft(req), []) == Ok(o)
    ensures forall c :: c in o.dropped ==> c.constraintType == Soft && c in req.constraints
  {
    var soft := SortedSoft(req);
    RelaxPartition(req, parse, cpsat, soft, []);
    SplitSorted(o.active, o.dropped, soft);
    forall c | c in o.dropped ensures c.constraintType == Soft && c in req.constraints {
      assert c in multiset(soft);
      assert c in Filter(req.constraints, Soft);
    }
  }

  /** The loop solves at most once more than there are soft constraints. */
  lemma SolveCount(req: SolverRequest, parse: string -> Option<Node>, cpsat: CpSat)
    requires Relax(req, parse, cpsat, SortedSoft(req), []).Ok?
    ensures |Attempts(req, parse, cpsat, SortedSoft(req))| <= |Filter(req.constraints, Soft)| + 1
    ensures |Attempts(req, parse, cpsat, SortedSoft(req))| == |Relax(req, parse, cpsat, SortedSoft(req), []).value.dropped| + 1
    ensures Attempts(req, parse, cpsat, SortedSoft(req))[0] == SortedSoft(req)
  {
    AttemptsShape(req, parse, cpsat, SortedSoft(req), []);
    assert SortedSoft(req)[..|SortedSoft(req)|] == SortedSoft(req);
  }

  /** When a solution is found: one solution entry per declared variable in
      declaration order, the satisfied list is the hard labels in input order
      followed by the kept soft labels in priority order, and the objective
      value is reported. */
  lemma SolvedResponse(req: SolverRequest, parse: string -> Option<Node>, cpsat: CpSat, o: Outcome)
    requires Relax(req, parse, cpsat, SortedSoft(req), []) == Ok(o)
    requires IsSolved(o.result.status)
    ensures var resp := SolveSpec(req, parse, cpsat);
      |resp.solution| == |req.variables|
      && (forall i :: 0 <= i < |req.variables| ==>
            resp.solution[i] == (req.variables[i].name, o.result.value(req.variables[i].name)))
      && resp.satisfiedConstraints == Labels(Filter(req.constraints, Hard)) + Labels(o.active)
      && |resp.satisfiedConstraints| + |resp.droppedConstraints| == |Filter(req.constraints, Hard)| + |Filter(req.constraints, Soft)|
      && resp.objectiveValue == Some(o.result.objectiveValue)
      && (resp.status == "OPTIMAL" || resp.status == "FEASIBLE")
  {
    RelaxPartition(req, parse, cpsat, SortedSoft(req), []);
    RespondSolved(req, o, |Filter(req.constraints, Soft)|);
  }

  lemma RespondSolved(req: SolverRequest, o: Outcome, softCount: nat)
    requires IsSolved(o.result.status)
    requires |o.active| + |o.dropped| == softCount
    ensures var resp := Respond(req, Ok(o));
      |resp.solution| == |req.variables|
      && (forall i :: 0 <= i < |req.variables| ==>
            resp.solution[i] == (req.variables[i].name, o.result.value(req.variables[i].name)))
      && resp.satisfiedConstraints == Labels(Filter(req.constraints, Hard)) + Labels(o.active)
      && |resp.satisfiedConstraints| + |resp.droppedConstraints| == |Filter(req.constraints, Hard)| + softCount
      && resp.objectiveValue == Some(o.result.objectiveValue)
      && (resp.status == "OPTIMAL" || resp.status == "FEASIBLE")
  {
  }

  /** When no solution is found even with every soft constraint dropped: no
      solution, nothing satisfied, no objective value, and every soft
      constraint dropped, least important first. */
  lemma UnsolvedResponse(req: SolverRequest, parse: string -> Option<Node>, cpsat: CpSat, o: Outcome)
    requires Relax(req, parse, cpsat, SortedSoft(req), []) == Ok(o)
    requires !IsSolved(o.result.status)
    ensures var resp := SolveSpec(req, parse, cpsat);
      o.active == [] && Reverse(o.dropped) == SortedSoft(req)
      && multiset(o.dropped) == multiset(Filter(req.constraints, Soft))
      && resp.solution == [] && resp.satisfiedConstraints == [] && resp.objectiveValue.None?
      && resp.droppedConstraints == Labels(o.dropped)
      && resp.status != "OPTIMAL" && resp.status != "FEASIBLE"
  {
    UnsolvedDropsAll(req, parse, cpsat, o);
    RespondUnsolved(req, o);
    assert SolveSpec(req, parse, cpsat) == Respond(req, Ok(o));
  }

  lemma RespondUnsolved(req: SolverRequest, o: Outcome)
    requires !IsSolved(o.result.status)
    ensures var resp := Respond(req, Ok(o));
      resp.solution == [] && resp.satisfiedConstraints == [] && resp.objectiveValue.None?
      && resp.droppedConstraints == Labels(o.dropped)
      && resp.status != "OPTIMAL" && resp.status != "FEASIBLE"
  {
    var st := o.result.status;
    StatusNameInjective(st, Optimal);
    StatusNameInjective(st, Feasible);
  }

  /** Without a solution the loop ran until no soft constraint was left. */
  lemma UnsolvedDropsAll(req: SolverRequest, parse: string -> Option<Node>, cpsat: CpSat, o: Outcome)
    requires Relax(req, parse, cpsat, SortedSoft(req), []) == Ok(o)
    requires !IsSolved(o.result.status)
    ensures o.active == [] && Reverse(o.dropped) == SortedSoft(req)
    ensures multiset(o.dropped) == multiset(Filter(req.constraints, Soft))
  {
    RelaxStops(req, parse, cpsat, SortedSoft(req), []);
    RelaxPartition(req, parse, cpsat, SortedSoft(req), []);
    assert [] + Reverse(o.dropped) == Reverse(o.dropped);
    ReverseMultiset(o.dropped);
  }

  lemma {:induction false} ReverseMultiset<T>(s: seq<T>)
    ensures multiset(Reverse(s)) == multiset(s)
  {
    if s != [] {
      ReverseMultiset(s[..|s| - 1]);
      assert s == s[..|s| - 1] + [s[|s| - 1]];
    }
  }

  /** Building a model fails at some point before any solution: the response
      is the "ERROR" response with wall time 0. */
  lemma BuildFailureResponse(req: SolverRequest, parse: string -> Option<Node>, cpsat: CpSat)
    requires Relax(req, parse, cpsat, SortedSoft(req), []).Err?
    ensures SolveSpec(req, parse, cpsat) == SolverResponse("ERROR", None, [], 0.0, [], [])
  {
  }

  /** A compiled constraint that the assignment meets is, read back as Python
      over the assigned integers, a true comparison. */
  lemma ConstraintSound(c: ConstraintDefinition, parse: string -> Option<Node>, names: set<string>,
                        cc: CpConstraint, sigma: map<string, int>)
    requires CompileConstraint(c, parse, names) == Ok(cc)
    requires names <= sigma.Keys && Holds(cc, sigma)
    ensures parse(c.expression).Some?
    ensures Interp(parse(c.expression).value, sigma) == Some(CBool(true))
  {
    var tree := parse(c.expression).value;
    EvalSound(tree, names, sigma);
  }

  /** Constraints compiled into a list the assignment meets each evaluate to True. */
  lemma CompiledHold(cs: seq<ConstraintDefinition>, parse: string -> Option<Node>, names: set<string>,
                     compiled: seq<CpConstraint>, sigma: map<string, int>)
    requires CompileAll(cs, parse, names) == Ok(compiled) && names <= sigma.Keys
    requires forall i :: 0 <= i < |compiled| ==> Holds(compiled[i], sigma)
    ensures forall c :: c in cs ==>
      parse(c.expression).Some? && Interp(parse(c.expression).value, sigma) == Some(CBool(true))
  {
    forall c | c in cs
      ensures parse(c.expression).Some? && Interp(parse(c.expression).value, sigma) == Some(CBool(true))
    {
      var j :| 0 <= j < |cs| && cs[j] == c;
      CompileAllAt(cs, parse, names, j);
      ConstraintSound(c, parse, names, compiled[j], sigma);
    }
  }

  /** An assignment meeting a built model makes each of its hard and
      selected soft constraints evaluate to True. */
  lemma ModelHolds(req: SolverRequest, soft: seq<ConstraintDefinition>, parse: string -> Option<Node>,
                   m: CpModel, value: string -> int)
    requires BuildModelSpec(req, soft, parse) == Ok(m) && Satisfies(m, value)
    ensures var sigma := Assignment(req.variables, value);
      forall c :: c in Filter(req.constraints, Hard) + soft ==>
        parse(c.expression).Some? && Interp(parse(c.expression).value, sigma) == Some(CBool(true))
  {
    HardInEveryModel(req, soft, parse);
    var names := NameSet(req.variables);
    var sigma := Assignment(req.variables, value);
    var hard := Filter(req.constraints, Hard);
    var hc := CompileAll(hard, parse, names).value;
    var sc := CompileAll(soft, parse, names).value;
    assert m.constraints == hc + sc;
    assert forall i :: 0 <= i < |hc| ==> Holds(hc[i], sigma) by {
      forall i | 0 <= i < |hc| ensures Holds(hc[i], sigma) { assert m.constraints[i] == hc[i]; }
    }
    assert forall i :: 0 <= i < |sc| ==> Holds(sc[i], sigma) by {
      forall i | 0 <= i < |sc| ensures Holds(sc[i], sigma) { assert m.constraints[|hc| + i] == sc[i]; }
    }
    CompiledHold(hard, parse, names, hc, sigma);
    CompiledHold(soft, parse, names, sc, sigma);
  }

  /** With a solver that only reports solutions meeting the model, every
      constraint reported as satisfied (each hard one, each kept soft one)
      evaluates to True in Python on the reported solution. */
  lemma SatisfiedConstraintsHold(req: SolverRequest, parse: string -> Option<Node>, cpsat: CpSat, o: Outcome)
    requires SoundOracle(cpsat)
    requires Relax(req, parse, cpsat, SortedSoft(req), []) == Ok(o)
    requires IsSolved(o.result.status)
    ensures var sigma := Assignment(req.variables, o.result.value);
      forall c :: c in Filter(req.constraints, Hard) + o.active ==>
        parse(c.expression).Some? && Interp(parse(c.expression).value, sigma) == Some(CBool(true))
  {
    RelaxStops(req, parse, cpsat, SortedSoft(req), []);
    var m := BuildModelSpec(req, o.active, parse).value;
    assert Satisfies(m, o.result.value);
    ModelHolds(req, o.active, parse, m, o.result.value);
  }

  /** The reported solution lists each declared variable, in declaration
      order, with its value in the assignment the constraints above are
      evaluated on. */
  lemma ReportedSolutionIsAssignment(req: SolverRequest, parse: string -> Option<Node>, cpsat: CpSat, o: Outcome)
    requires Relax(req, parse, cpsat, SortedSoft(req), []) == Ok(o)
    requires IsSolved(o.result.status)
    ensures var resp := SolveSpec(req, parse, cpsat);
      var sigma := Assignment(req.variables, o.result.value);
      |resp.solution| == |req.variables|
      && forall i :: 0 <= i < |req.variables| ==>
           req.variables[i].name in sigma && resp.solution[i] == (req.variables[i].name, sigma[req.variables[i].name])
  {
    forall i | 0 <= i < |req.variables| ensures req.variables[i].name in NameSet(req.variables) {
      assert req.variables[i] in req.variables;
    }
  }

  /** With such a solver, every reported value lies within its variable's bounds. */
  lemma SolutionWithinBounds(req: SolverRequest, parse: string -> Option<Node>, cpsat: CpSat, o: Outcome)
    requires SoundOracle(cpsat)
    requires Relax(req, parse, cpsat, SortedSoft(req), []) == Ok(o)
    requires IsSolved(o.result.status)
    ensures var resp := SolveSpec(req, parse, cpsat);
      |resp.solution| == |req.variables|
      && forall i :: 0 <= i < |req.variables| ==>
           req.variables[i].lowerBound <= resp.solution[i].1 <= req.variables[i].upperBound
  {
    SolvedModel(req, parse, cpsat, o);
    RespondSolved(req, o, |o.active| + |o.dropped|);
    var vars := BuildModelSpec(req, o.active, parse).value.variables;
    assert forall i :: 0 <= i < |vars| ==> vars[i] == req.variables[i];
  }

  /** The reported solution satisfies the model of the kept constraints,
      whose variables are the request's. */
  lemma SolvedModel(req: SolverRequest, parse: string -> Option<Node>, cpsat: CpSat, o: Outcome)
    requires SoundOracle(cpsat)
    requires Relax(req, parse, cpsat, SortedSoft(req), []) == Ok(o)
    requires IsSolved(o.result.status)
    ensures BuildModelSpec(req, o.active, parse).Ok?
    ensures BuildModelSpec(req, o.active, parse).value.variables == req.variables
    ensures Satisfies(BuildModelSpec(req, o.active, parse).value, o.result.value)
    ensures SolveSpec(req, parse, cpsat) == Respond(req, Ok(o))
  {
    RelaxStops(req, parse, cpsat, SortedSoft(req), []);
    HardInEveryModel(req, o.active, parse);
  }

  // ---------------------------------------------------------------------------
  // Entry points

  /** `SolverResponse(status=f"VALIDATION_ERROR: {e}", wall_time=0.0)`. */
  function ValidationResponse(e: ValidationError): SolverResponse {
    SolverResponse("VALIDATION_ERROR: " + ValidationMessage(e), None, [], 0.0, [], [])
  }

  /** `solve_from_json`: validate the payload, then run a fresh solver. */
  method SolveFromJson(raw: RawRequest, parse: string -> Option<Node>, cpsat: CpSat) returns (resp: SolverResponse)
    ensures Validate(raw).Err? ==> resp == ValidationResponse(Validate(raw).error)
    ensures Validate(raw).Ok? ==> resp == SolveSpec(Validate(raw).value, parse, cpsat)
    ensures (exists i :: 0 <= i < |raw.variables| && !BoundsOk(raw.variables[i])) ==>
      |resp.status| >= 18 && resp.status[..18] == "VALIDATION_ERROR: " && resp.wallTime == 0.0
  {
    ValidateVariablesExact(raw.variables);
    match Validate(raw)
    case Err(e) =>
      resp := ValidationResponse(e);
    case Ok(req) =>
      var engine := new DynamicSolver();
      resp := engine.Solve(req, parse, cpsat);
  }

  datatype CallError = MissingDirection

  /** `solve_constraint_problem`: an objective expression needs a direction;
      the direction string itself is checked by validation. */
  method SolveConstraintProblem(variables: seq<RawVariable>, constraints: seq<RawConstraint>,
                                objectiveExpression: Option<string>, objectiveDirection: Option<string>,
                                parse: string -> Option<Node>, cpsat: CpSat)
    returns (r: Result<SolverResponse, CallError>)
    ensures objectiveExpression.Some? && objectiveDirection.None? <==> r == Err(MissingDirection)
    ensures r.Ok? ==>
      var raw := RawRequest(variables, constraints,
        if objectiveExpression.Some? then Some(RawObjective(objectiveExpression.value, objectiveDirection.value)) else None);
      (Validate(raw).Err? ==> r.value == ValidationResponse(Validate(raw).error))
      && (Validate(raw).Ok? ==> r.value == SolveSpec(Validate(raw).value, parse, cpsat))
  {
    var objective: Option<RawObjective> := None;
    if objectiveExpression.Some? {
      if objectiveDirection.None? {
        return Err(MissingDirection);
      }
      objective := Some(RawObjective(objectiveExpression.value, objectiveDirection.value));
    }
    var resp := SolveFromJson(RawRequest(variables, constraints, objective), parse, cpsat);
    return Ok(resp);
  }

  // ---------------------------------------------------------------------------
  // The solver object

  class DynamicSolver {
    var model: CpModel
    var vars: seq<string>     // the keys of `self.vars`, in declaration order
    var result: CpResult      // what `self.solver` reports after its last solve

    constructor ()
      ensures vars == []
    {
      model := CpModel([], [], None);
      vars := [];
      result := CpResult(Unknown, _ => 0, 0.0, 0.0);
    }

    /** The declaration loop of `_build_model`: a fresh model holding the
        variables, or the first invalid or repeated name. */
    method DeclareVariables(defs: seq<VariableDefinition>) returns (err: Option<BuildError>)
      modifies this
      ensures err == DeclError(defs)
      ensures err.None? ==> model == CpModel(defs, [], None) && vars == NameSeq(defs)
      ensures result == old(result)
    {
      model := CpModel([], [], None);
      vars := [];
      var i := 0;
      while i < |defs|
        invariant 0 <= i <= |defs|
        invariant DeclError(defs[..i]).None?
        invariant vars == NameSeq(defs[..i])
        invariant model == CpModel(defs[..i], [], None)
        invariant result == old(result)
      {
        var d := defs[i];
        DeclErrorStep(defs, i);
        if !IsIdentifier(d.name) {
          DeclErrorExtends(defs, i + 1);
          return Some(InvalidName(d.name));
        }
        if d.name in vars {
          DeclErrorExtends(defs, i + 1);
          return Some(DuplicateName(d.name));
        }
        vars := vars + [d.name];
        model := model.(variables := model.variables + [d]);
        i := i + 1;
      }
      assert defs[..i] == defs;
      return None;
    }

    /** The loop over `request.constraints` that adds the hard ones. */
    method AddHardConstraints(cs: seq<ConstraintDefinition>, parse: string -> Option<Node>, names: set<string>)
      returns (err: Option<BuildError>)
      modifies this
      ensures CompileAll(Filter(cs, Hard), parse, names).Err? ==> err == Some(CompileAll(Filter(cs, Hard), parse, names).error)
      ensures CompileAll(Filter(cs, Hard), parse, names).Ok? ==>
        err.None? && model == old(model).(constraints := old(model).constraints + CompileAll(Filter(cs, Hard), parse, names).value)
      ensures vars == old(vars) && result == old(result)
    {
      var i := 0;
      while i < |cs|
        invariant 0 <= i <= |cs|
        invariant CompileAll(Filter(cs[..i], Hard), parse, names).Ok?
        invariant model == old(model).(constraints := old(model).constraints + CompileAll(Filter(cs[..i], Hard), parse, names).value)
        invariant vars == old(vars) && result == old(result)
      {
        HardStep(cs, i, parse, names);
        if cs[i].constraintType == Hard {
          var c := CompileConstraint(cs[i], parse, names);
          if c.Err? {
            return Some(c.error);
          }
          Seqs.AppendAssoc(old(model).constraints, CompileAll(Filter(cs[..i], Hard), parse, names).value, [c.value]);
          model := model.(constraints := model.constraints + [c.value]);
        }
        i := i + 1;
      }
      assert cs[..i] == cs;
      return None;
    }

    /** The loop over `soft_to_include`. */
    method AddSoftConstraints(soft: seq<ConstraintDefinition>, parse: string -> Option<Node>, names: set<string>)
      returns (err: Option<BuildError>)
      modifies this
      ensures CompileAll(soft, parse, names).Err? ==> err == Some(CompileAll(soft, parse, names).error)
      ensures CompileAll(soft, parse, names).Ok? ==>
        err.None? && model == old(model).(constraints := old(model).constraints + CompileAll(soft, parse, names).value)
      ensures vars == old(vars) && result == old(result)
    {
      var i := 0;
      while i < |soft|
        invariant 0 <= i <= |soft|
        invariant CompileAll(soft[..i], parse, names).Ok?
        invariant model == old(model).(constraints := old(model).constraints + CompileAll(soft[..i], parse, names).value)
        invariant vars == old(vars) && result == old(result)
      {
        SoftStep(soft, i, parse, names);
        match CompileConstraint(soft[i], parse, names)
        case Err(e) =>
          return Some(e);
        case Ok(c) =>
          Seqs.AppendAssoc(old(model).constraints, CompileAll(soft[..i], parse, names).value, [c]);
          model := model.(constraints := model.constraints + [c]);
        i := i + 1;
      }
      assert soft[..i] == soft;
      return None;
    }

    /** `_build_model`: on success the fields hold the model of
        `BuildModelSpec` and the declared names; otherwise the error that
        `BuildModelSpec` reports is returned. */
    method BuildModel(req: SolverRequest, soft: seq<ConstraintDefinition>, parse: string -> Option<Node>)
      returns (err: Option<BuildError>)
      modifies this
      ensures BuildModelSpec(req, soft, parse).Ok? ==>
        err.None? && model == BuildModelSpec(req, soft, parse).value && vars == NameSeq(req.variables)
      ensures BuildModelSpec(req, soft, parse).Err? ==> err == Some(BuildModelSpec(req, soft, parse).error)
      ensures result == old(result)
    {
      var defs := req.variables;
      err := DeclareVariables(defs);
      if err.Some? {
        return;
      }
      var names := set x | x in vars;
      NameSetOfSeq(defs);
      BuildModelSpecSteps(req, soft, parse);
      err := AddHardConstraints(req.constraints, parse, names);
      if err.Some? {
        return;
      }
      err := AddSoftConstraints(soft, parse, names);
      if err.Some? {
        return;
      }
      err := SetObjective(req.objective, parse, names);
    }

    /** The objective step of `_build_model`. */
    method SetObjective(objective: Option<ObjectiveDefinition>, parse: string -> Option<Node>, names: set<string>)
      returns (err: Option<BuildError>)
      modifies this
      ensures CompileObjective(objective, parse, names).Err? ==> err == Some(CompileObjective(objective, parse, names).error)
      ensures CompileObjective(objective, parse, names).Ok? && objective.Some? ==>
        err.None? && model == old(model).(objective := CompileObjective(objective, parse, names).value)
      ensures objective.None? ==> err.None? && model == old(model)
      ensures vars == old(vars) && result == old(result)
    {
      err := None;
      if objective.Some? {
        var o := objective.value;
        var v := SafeEvalAst(o.expression, parse, names);
        if v.Err? {
          return Some(EvalFailed(o.expression, v.error));
        }
        if v.value.CmpVal? {
          return Some(BadObjective(o.expression));
        }
        model := model.(objective := Some(CpObjective(o.direction, AsLinear(v.value))));
      }
    }

    /** The loop over `self.vars` that reads each variable's value from the
        last solve, in declaration order. */
    method ReadSolution() returns (solution: seq<(string, int)>)
      ensures solution == Solution(vars, result.value)
    {
      solution := [];
      var i := 0;
      while i < |vars|
        invariant 0 <= i <= |vars|
        invariant solution == Solution(vars[..i], result.value)
      {
        assert vars[..i + 1][..i] == vars[..i];
        solution := solution + [(vars[i], result.value(vars[i]))];
        i := i + 1;
      }
      assert vars[..i] == vars;
    }

    /** `solve`: the response of the relaxation loop, or the "ERROR" response
        when building a model fails. */
    method Solve(req: SolverRequest, parse: string -> Option<Node>, cpsat: CpSat) returns (resp: SolverResponse)
      modifies this
      ensures resp == SolveSpec(req, parse, cpsat)
    {
      vars := [];
      var soft := SortedSoft(req);
      var active := soft;
      var dropped: seq<ConstraintDefinition> := [];
      while true
        invariant Relax(req, parse, cpsat, active, dropped) == Relax(req, parse, cpsat, soft, [])
        decreases |active|
      {
        var err := BuildModel(req, active, parse);
        if err.Some? {
          return ErrorResponse();
        }
        result := cpsat(model);
        if IsSolved(result.status) || active == [] {
          break;
        }
        dropped := dropped + [active[|active| - 1]];
        active := active[..|active| - 1];
      }
      var o := Outcome(active, dropped, result);
      assert Relax(req, parse, cpsat, soft, []) == Ok(o);

      var solved := IsSolved(result.status);
      var solution: seq<(string, int)> := [];
      var satisfied: seq<string> := [];
      if solved {
        solution := ReadSolution();
        satisfied := Labels(Filter(req.constraints, Hard)) + Labels(active);
      }
      resp := SolverResponse(
        StatusName(result.status),
        if solved then Some(result.objectiveValue) else None,
        solution,
        result.wallTime,
        satisfied,
        Labels(dropped));
    }
  }
}
