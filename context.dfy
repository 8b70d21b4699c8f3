/** The request builders of backend/app/context.py: turning dashboard
    spending data and per-category user constraints into the JSON payload the
    solver validates. */
module Context {
  import opened Wrappers
  import opened PyStr
  import Solver

  /** The fields of a user or Nessie constraint that the builders read and write. */
  datatype UserConstraint = UserConstraint(
    id: string,
    category: string,
    operator: string,
    amount: int,
    constraintType: string,
    priority: int,
    description: string,
    source: string)

  datatype UserPriority = UserPriority(category: string, priority: int)

  /** One entry of the dashboard's spending breakdown; the amount is a float. */
  datatype CategorySpending = CategorySpending(category: string, amount: real)

  datatype DashboardResponse = DashboardResponse(categoryBreakdown: seq<CategorySpending>)

  // ---------------------------------------------------------------------------
  // Category names

  predicate Sanitized(s: string) {
    forall c :: c in s ==> !IsAsciiUpper(c) && c != ' ' && c != '-' && c != '&'
  }

  /** `_sanitize_category_name`: lower-case, spaces and hyphens to `_`, `&` to "and". */
  function SanitizeCategoryName(name: string): (r: string)
    ensures Sanitized(r)
  {
    var lower := Lower(name);
    var a := Replace(lower, ' ', "_");
    var b := Replace(a, '-', "_");
    ReplaceContents(lower, ' ', "_");
    ReplaceContents(a, '-', "_");
    ReplaceContents(b, '&', "and");
    assert forall c :: c in lower ==> !IsAsciiUpper(c) by {
      forall c | c in lower ensures !IsAsciiUpper(c) {
        var i :| 0 <= i < |lower| && lower[i] == c;
      }
    }
    Replace(b, '&', "and")
  }

  lemma LowerIdentity(s: string)
    requires forall c :: c in s ==> !IsAsciiUpper(c)
    ensures Lower(s) == s
  {
    assert forall i :: 0 <= i < |s| ==> Lower(s)[i] == s[i] by {
      forall i | 0 <= i < |s| ensures Lower(s)[i] == s[i] { assert s[i] in s; }
    }
  }

  /** A sanitized name is left as it is, so sanitizing twice is sanitizing once. */
  lemma SanitizeIdempotent(name: string)
    ensures SanitizeCategoryName(SanitizeCategoryName(name)) == SanitizeCategoryName(name)
  {
    var r := SanitizeCategoryName(name);
    LowerIdentity(r);
    ReplaceContents(r, ' ', "_");
    ReplaceContents(r, '-', "_");
    ReplaceContents(r, '&', "and");
  }

  // ---------------------------------------------------------------------------
  // Constraints from the dashboard

  /** Python's `int(x)` on a float: truncation toward zero. */
  function Trunc(x: real): (r: int)
    ensures x >= 0.0 ==> r as real <= x < r as real + 1.0
    ensures x < 0.0 ==> r as real - 1.0 < x <= r as real
  {
    if x >= 0.0 then x.Floor else -((-x).Floor)
  }

  /** The constraint suggested for breakdown entry `idx`. */
  function DashboardConstraint(idx: nat, entry: CategorySpending, suggest: real -> int): (r: UserConstraint)
    ensures Sanitized(r.category) && r.operator == "<=" && r.amount == suggest(entry.amount)
    ensures r.constraintType == "soft" && r.priority == 2 && r.source == "nessie"
  {
    UserConstraint(
      "nessie-" + NatToDecimal(idx), SanitizeCategoryName(entry.category), "<=", suggest(entry.amount),
      "soft", 2, entry.category + " (historical: $" + IntToDecimal(Trunc(entry.amount)) + ")", "nessie")
  }

  /** `[f(i, x) for i, x in enumerate(s)]`. */
  function Enumerated<T, U>(s: seq<T>, f: (nat, T) -> U): (r: seq<U>)
    ensures |r| == |s|
  {
    if s == [] then [] else Enumerated(s[..|s| - 1], f) + [f(|s| - 1, s[|s| - 1])]
  }

  lemma {:induction false} EnumeratedAt<T, U>(s: seq<T>, f: (nat, T) -> U, i: nat)
    requires i < |s|
    ensures Enumerated(s, f)[i] == f(i, s[i])
  {
    var n := |s| - 1;
    if i < n {
      EnumeratedAt(s[..n], f, i);
      assert s[..n][i] == s[i];
    }
  }

  lemma EnumeratedStep<T, U>(s: seq<T>, f: (nat, T) -> U, n: nat)
    requires n < |s|
    ensures Enumerated(s[..n + 1], f) == Enumerated(s[..n], f) + [f(n, s[n])]
  {
    assert s[..n + 1][..n] == s[..n];
  }

  /** The suggestion for breakdown entry `idx`, as a function of the position and the entry. */
  function Suggester(suggest: real -> int): (nat, CategorySpending) -> UserConstraint {
    (idx: nat, entry: CategorySpending) => DashboardConstraint(idx, entry, suggest)
  }

  /** The loop of `build_constraints_from_dashboard`. */
  method SuggestFromBreakdown(breakdown: seq<CategorySpending>, suggest: real -> int)
    returns (constraints: seq<UserConstraint>)
    ensures constraints == Enumerated(breakdown, Suggester(suggest))
  {
    constraints := [];
    for idx := 0 to |breakdown|
      invariant constraints == Enumerated(breakdown[..idx], Suggester(suggest))
    {
      EnumeratedStep(breakdown, Suggester(suggest), idx);
      constraints := constraints + [DashboardConstraint(idx, breakdown[idx], suggest)];
    }
    assert breakdown[..|breakdown|] == breakdown;
  }

  /** `build_constraints_from_dashboard`: one soft constraint per breakdown
      entry, in order. The suggested limit `int(amount * 1.2)` is the
      parameter `suggest`. */
  method BuildConstraintsFromDashboard(dashboard: DashboardResponse, suggest: real -> int)
    returns (constraints: seq<UserConstraint>)
    ensures |constraints| == |dashboard.categoryBreakdown|
    ensures forall i :: 0 <= i < |constraints| ==>
      var entry := dashboard.categoryBreakdown[i];
      constraints[i].id == "nessie-" + NatToDecimal(i)
      && constraints[i].category == SanitizeCategoryName(entry.category)
      && constraints[i].operator == "<="
      && constraints[i].amount == suggest(entry.amount)
      && constraints[i].constraintType == "soft"
      && constraints[i].priority == 2
      && constraints[i].description == entry.category + " (historical: $" + IntToDecimal(Trunc(entry.amount)) + ")"
      && constraints[i].source == "nessie"
    ensures forall i, j :: 0 <= i < j < |constraints| ==> constraints[i].id != constraints[j].id
  {
    var breakdown := dashboard.categoryBreakdown;
    constraints := SuggestFromBreakdown(breakdown, suggest);
    forall i | 0 <= i < |constraints|
      ensures var entry := breakdown[i];
        constraints[i].id == "nessie-" + NatToDecimal(i)
        && constraints[i].category == SanitizeCategoryName(entry.category)
        && constraints[i].operator == "<="
        && constraints[i].amount == suggest(entry.amount)
        && constraints[i].constraintType == "soft"
        && constraints[i].priority == 2
        && constraints[i].description == entry.category + " (historical: $" + IntToDecimal(Trunc(entry.amount)) + ")"
        && constraints[i].source == "nessie"
    {
      EnumeratedAt(breakdown, Suggester(suggest), i);
      DashboardConstraintFields(constraints[i], i, breakdown[i], suggest);
    }
    forall i, j | 0 <= i < j < |constraints| ensures constraints[i].id != constraints[j].id {
      NessieIdsDistinct(i, j);
    }
  }

  lemma DashboardConstraintFields(c: UserConstraint, idx: nat, entry: CategorySpending, suggest: real -> int)
    requires c == DashboardConstraint(idx, entry, suggest)
    ensures c.id == "nessie-" + NatToDecimal(idx)
      && c.category == SanitizeCategoryName(entry.category)
      && c.operator == "<="
      && c.amount == suggest(entry.amount)
      && c.constraintType == "soft"
      && c.priority == 2
      && c.description == entry.category + " (historical: $" + IntToDecimal(Trunc(entry.amount)) + ")"
      && c.source == "nessie"
  {
  }

  /** Distinct positions get distinct ids. */
  lemma NessieIdsDistinct(i: nat, j: nat)
    requires i != j
    ensures "nessie-" + NatToDecimal(i) != "nessie-" + NatToDecimal(j)
  {
    var p := "nessie-";
    if p + NatToDecimal(i) == p + NatToDecimal(j) {
      assert NatToDecimal(i) == (p + NatToDecimal(i))[|p|..];
      NatToDecimalRoundTrip(i);
      NatToDecimalRoundTrip(j);
    }
  }

  // ---------------------------------------------------------------------------
  // The solver payload

  /** The category of each constraint, in order. */
  function CategoryList(cs: seq<UserConstraint>): (r: seq<string>)
    ensures |r| == |cs|
    ensures forall i :: 0 <= i < |cs| ==> r[i] == cs[i].category
  {
    if cs == [] then [] else CategoryList(cs[..|cs| - 1]) + [cs[|cs| - 1].category]
  }

  function Categories(cs: seq<UserConstraint>): set<string> {
    set x | x in CategoryList(cs)
  }

  /** The `priority_map` dict: each entry overwrites earlier ones for its category. */
  function PriorityMap(ps: seq<UserPriority>): (r: map<string, int>)
    ensures forall j :: 0 <= j < |ps| ==> ps[j].category in r
    ensures forall k :: k in r ==> exists j :: 0 <= j < |ps| && ps[j].category == k
  {
    if ps == [] then map[]
    else
      var init := ps[..|ps| - 1];
      assert forall j :: 0 <= j < |init| ==> init[j] == ps[j];
      PriorityMap(init)[ps[|ps| - 1].category := ps[|ps| - 1].priority]
  }

  /** A category has a priority override exactly when some entry names it,
      and the override is the priority of the last entry naming it. */
  lemma {:induction false} PriorityMapLastWins(ps: seq<UserPriority>, cat: string)
    ensures cat in PriorityMap(ps) <==> exists j :: 0 <= j < |ps| && ps[j].category == cat
    ensures forall j :: (0 <= j < |ps| && ps[j].category == cat
                         && (forall k :: j < k < |ps| ==> ps[k].category != cat))
                        ==> PriorityMap(ps)[cat] == ps[j].priority
  {
    if ps != [] {
      var init, last := ps[..|ps| - 1], ps[|ps| - 1];
      PriorityMapLastWins(init, cat);
      forall j | 0 <= j < |ps| && ps[j].category == cat && (forall k :: j < k < |ps| ==> ps[k].category != cat)
        ensures PriorityMap(ps)[cat] == ps[j].priority
      {
        if j < |init| {
          assert init[j] == ps[j];
          assert forall k :: j < k < |init| ==> init[k] == ps[k];
        }
      }
    }
  }

  function Overrides(categoryPriorities: Option<seq<UserPriority>>): map<string, int> {
    if categoryPriorities.Some? then PriorityMap(categoryPriorities.value) else map[]
  }

  /** `priority_map.get(c.category, c.priority)`. */
  function EffectivePriority(c: UserConstraint, pm: map<string, int>): (r: int)
    ensures c.category in pm ==> r == pm[c.category]
    ensures c.category !in pm ==> r == c.priority
  {
    if c.category in pm then pm[c.category] else c.priority
  }

  function Describe(c: UserConstraint): (r: string)
    ensures c.description != "" ==> r == c.description
    ensures c.description == "" ==> r == c.category + " " + c.operator + " $" + IntToDecimal(c.amount)
  {
    if c.description != "" then c.description else c.category + " " + c.operator + " $" + IntToDecimal(c.amount)
  }

  function ToRawConstraint(c: UserConstraint, pm: map<string, int>): (r: Solver.RawConstraint)
    ensures r.constraintType == Some(c.constraintType) && r.priority == Some(EffectivePriority(c, pm))
    ensures |c.category| <= |r.expression| && r.expression[..|c.category|] == c.category
    ensures r.description.Some? && r.description.value != ""
  {
    Solver.RawConstraint(
      c.category + " " + c.operator + " " + IntToDecimal(c.amount),
      Some(c.constraintType), Some(EffectivePriority(c, pm)), Some(Describe(c)))
  }

  /** The leading hard constraint: the sum of every variable stays within the income. */
  function IncomeCeiling(income: int, sortedCats: seq<string>): (r: Solver.RawConstraint)
    ensures r.constraintType == Some("hard") && r.priority == Some(0) && r.description.Some?
    ensures var bound := " <= " + IntToDecimal(income);
      |bound| <= |r.expression| && r.expression[|r.expression| - |bound|..] == bound
  {
    Solver.RawConstraint(
      Join(sortedCats, " + ") + " <= " + IntToDecimal(income),
      Some("hard"), Some(0),
      Some("Total cannot exceed $" + WithThousands(income) + " income"))
  }

  function VariablesFor(names: seq<string>, income: int): (r: seq<Solver.RawVariable>)
    ensures |r| == |names|
    ensures forall i :: 0 <= i < |names| ==> r[i] == Solver.RawVariable(names[i], 0, income)
  {
    if names == [] then [] else VariablesFor(names[..|names| - 1], income) + [Solver.RawVariable(names[|names| - 1], 0, income)]
  }

  function RawConstraints(cs: seq<UserConstraint>, pm: map<string, int>): (r: seq<Solver.RawConstraint>)
    ensures |r| == |cs|
    ensures forall i :: 0 <= i < |cs| ==> r[i] == ToRawConstraint(cs[i], pm)
  {
    if cs == [] then [] else RawConstraints(cs[..|cs| - 1], pm) + [ToRawConstraint(cs[|cs| - 1], pm)]
  }

  /** The dict `build_solver_input` returns. */
  function SolverInput(income: int, userConstraints: seq<UserConstraint>,
                       categoryPriorities: Option<seq<UserPriority>>,
                       objectiveCategory: string, objectiveDirection: string): (r: Solver.RawRequest)
    ensures |r.constraints| == 1 + |userConstraints| && r.constraints[0].constraintType == Some("hard")
    ensures forall i :: 0 <= i < |r.variables| ==> r.variables[i].lowerBound == 0 && r.variables[i].upperBound == income
    ensures r.objective == Some(Solver.RawObjective(objectiveCategory, objectiveDirection))
  {
    var sorted := SortedSet(Categories(userConstraints) + {objectiveCategory});
    Solver.RawRequest(
      VariablesFor(sorted, income),
      [IncomeCeiling(income, sorted)] + RawConstraints(userConstraints, Overrides(categoryPriorities)),
      Some(Solver.RawObjective(objectiveCategory, objectiveDirection)))
  }

  lemma CategoriesStep(cs: seq<UserConstraint>, i: nat)
    requires i < |cs|
    ensures Categories(cs[..i + 1]) == Categories(cs[..i]) + {cs[i].category}
  {
    assert cs[..i + 1][..i] == cs[..i];
    assert CategoryList(cs[..i + 1]) == CategoryList(cs[..i]) + [cs[i].category];
  }

  /** The first loop of `build_solver_input`: the set of categories used. */
  method CollectCategories(userConstraints: seq<UserConstraint>) returns (categories: set<string>)
    ensures categories == Categories(userConstraints)
  {
    categories := {};
    for i := 0 to |userConstraints|
      invariant categories == Categories(userConstraints[..i])
    {
      CategoriesStep(userConstraints, i);
      categories := categories + {userConstraints[i].category};
    }
    assert userConstraints[..|userConstraints|] == userConstraints;
  }

  /** The `priority_map` loop of `build_solver_input`. */
  method CollectPriorities(categoryPriorities: Option<seq<UserPriority>>) returns (priorityMap: map<string, int>)
    ensures priorityMap == Overrides(categoryPriorities)
  {
    priorityMap := map[];
    if categoryPriorities.Some? && categoryPriorities.value != [] {
      var ps := categoryPriorities.value;
      for i := 0 to |ps|
        invariant priorityMap == PriorityMap(ps[..i])
      {
        assert ps[..i + 1][..i] == ps[..i];
        priorityMap := priorityMap[ps[i].category := ps[i].priority];
      }
      assert ps[..|ps|] == ps;
    }
  }

  /** The user-constraint loop of `build_solver_input`, appending after `init`. */
  method AppendUserConstraints(init: seq<Solver.RawConstraint>, userConstraints: seq<UserConstraint>,
                               priorityMap: map<string, int>)
    returns (constraints: seq<Solver.RawConstraint>)
    ensures constraints == init + RawConstraints(userConstraints, priorityMap)
  {
    constraints := init;
    for i := 0 to |userConstraints|
      invariant constraints == init + RawConstraints(userConstraints[..i], priorityMap)
    {
      assert userConstraints[..i + 1][..i] == userConstraints[..i];
      constraints := constraints + [ToRawConstraint(userConstraints[i], priorityMap)];
    }
    assert userConstraints[..|userConstraints|] == userConstraints;
  }

  /** `build_solver_input`. */
  method BuildSolverInput(monthlyIncome: int, userConstraints: seq<UserConstraint>,
                          categoryPriorities: Option<seq<UserPriority>>,
                          objectiveCategory: string, objectiveDirection: string)
    returns (raw: Solver.RawRequest)
    ensures raw == SolverInput(monthlyIncome, userConstraints, categoryPriorities, objectiveCategory, objectiveDirection)
  {
    var categories := CollectCategories(userConstraints);
    if objectiveCategory !in categories {
      categories := categories + {objectiveCategory};
    }
    assert categories == Categories(userConstraints) + {objectiveCategory};
    var sorted := SortedSet(categories);
    var variables := VariablesFor(sorted, monthlyIncome);
    var priorityMap := CollectPriorities(categoryPriorities);
    var constraints := AppendUserConstraints([IncomeCeiling(monthlyIncome, sorted)], userConstraints, priorityMap);
    raw := Solver.RawRequest(variables, constraints, Some(Solver.RawObjective(objectiveCategory, objectiveDirection)));
  }

  /** The payload's variables are named by the distinct categories plus the
      objective category, in increasing order and each once, so the
      objective category is always declared. */
  lemma SolverInputVariables(income: int, ucs: seq<UserConstraint>, prios: Option<seq<UserPriority>>,
                             objCat: string, objDir: string)
    ensures var vs := SolverInput(income, ucs, prios, objCat, objDir).variables;
      var names := seq(|vs|, i requires 0 <= i < |vs| => vs[i].name);
      StrictlyIncreasing(names)
      && (forall x :: x in names <==> x == objCat || x in CategoryList(ucs))
      && objCat in names
  {
    var sorted := SortedSet(Categories(ucs) + {objCat});
    SolverInputShape(income, ucs, prios, objCat, objDir);
    VariablesForNames(sorted, income);
    CategoriesWith(ucs, objCat);
  }

  lemma VariablesForNames(names: seq<string>, income: int)
    ensures var vs := VariablesFor(names, income);
      seq(|vs|, i requires 0 <= i < |vs| => vs[i].name) == names
  {
    var vs := VariablesFor(names, income);
    assert forall i :: 0 <= i < |vs| ==> vs[i].name == names[i];
  }

  /** Every variable is bounded by `[0, income]`, and the objective is the
      objective category in the requested direction. */
  lemma SolverInputBounds(income: int, ucs: seq<UserConstraint>, prios: Option<seq<UserPriority>>,
                          objCat: string, objDir: string)
    ensures var raw := SolverInput(income, ucs, prios, objCat, objDir);
      (forall i :: 0 <= i < |raw.variables| ==> raw.variables[i].lowerBound == 0 && raw.variables[i].upperBound == income)
      && raw.objective == Some(Solver.RawObjective(objCat, objDir))
  {
    SolverInputShape(income, ucs, prios, objCat, objDir);
  }

  lemma CategoriesWith(ucs: seq<UserConstraint>, objCat: string)
    ensures forall x :: x in Categories(ucs) + {objCat} <==> x == objCat || x in CategoryList(ucs)
  {
  }

  lemma SolverInputShape(income: int, ucs: seq<UserConstraint>, prios: Option<seq<UserPriority>>,
                         objCat: string, objDir: string)
    ensures var raw := SolverInput(income, ucs, prios, objCat, objDir);
      raw.variables == VariablesFor(SortedSet(Categories(ucs) + {objCat}), income)
      && raw.objective == Some(Solver.RawObjective(objCat, objDir))
  {
  }

  /** The first constraint is the hard income ceiling over the sorted
      variables, and one constraint follows per user constraint. */
  lemma SolverInputCeiling(income: int, ucs: seq<UserConstraint>, prios: Option<seq<UserPriority>>,
                           objCat: string, objDir: string)
    ensures var raw := SolverInput(income, ucs, prios, objCat, objDir);
      var sorted := SortedSet(Categories(ucs) + {objCat});
      |raw.constraints| == 1 + |ucs|
      && raw.constraints[0] == Solver.RawConstraint(
           Join(sorted, " + ") + " <= " + IntToDecimal(income), Some("hard"), Some(0),
           Some("Total cannot exceed $" + WithThousands(income) + " income"))
  {
  }

  /** After the ceiling comes one constraint per user constraint, in order,
      taking the overriding priority when its category has one and the
      fallback description when its own is empty. */
  lemma SolverInputUserConstraints(income: int, ucs: seq<UserConstraint>, prios: Option<seq<UserPriority>>,
                                   objCat: string, objDir: string)
    ensures var raw := SolverInput(income, ucs, prios, objCat, objDir);
      |raw.constraints| == 1 + |ucs|
      && forall i :: 0 <= i < |ucs| ==>
           raw.constraints[i + 1].expression == ucs[i].category + " " + ucs[i].operator + " " + IntToDecimal(ucs[i].amount)
           && raw.constraints[i + 1].constraintType == Some(ucs[i].constraintType)
           && raw.constraints[i + 1].priority == Some(EffectivePriority(ucs[i], Overrides(prios)))
           && raw.constraints[i + 1].description == Some(Describe(ucs[i]))
  {
    var pm := Overrides(prios);
    var raw := SolverInput(income, ucs, prios, objCat, objDir);
    var rest := RawConstraints(ucs, pm);
    assert raw.constraints[1..] == rest;
    forall i | 0 <= i < |ucs|
      ensures raw.constraints[i + 1].expression == ucs[i].category + " " + ucs[i].operator + " " + IntToDecimal(ucs[i].amount)
        && raw.constraints[i + 1].constraintType == Some(ucs[i].constraintType)
        && raw.constraints[i + 1].priority == Some(EffectivePriority(ucs[i], pm))
        && raw.constraints[i + 1].description == Some(Describe(ucs[i]))
    {
      assert raw.constraints[i + 1] == rest[i];
      ToRawConstraintFields(rest[i], ucs[i], pm);
    }
  }

  lemma ToRawConstraintFields(rc: Solver.RawConstraint, c: UserConstraint, pm: map<string, int>)
    requires rc == ToRawConstraint(c, pm)
    ensures rc.expression == c.category + " " + c.operator + " " + IntToDecimal(c.amount)
      && rc.constraintType == Some(c.constraintType)
      && rc.priority == Some(EffectivePriority(c, pm))
      && rc.description == Some(Describe(c))
  {
  }

  lemma {:induction false} VariablesValidate(names: seq<string>, income: int)
    ensures Solver.ValidateVariables(VariablesFor(names, income)).Ok? <==> names == [] || income >= 0
    ensures names != [] && income < 0 ==>
      Solver.ValidateVariables(VariablesFor(names, income)) == Err(Solver.BoundsViolation(0, income))
  {
    var vs := VariablesFor(names, income);
    Solver.ValidateVariablesExact(vs);
    if names != [] && income < 0 {
      assert !Solver.BoundsOk(vs[0]);
    }
  }

  lemma UserConstraintTypeOk(c: UserConstraint, pm: map<string, int>)
    ensures Solver.TypeOk(ToRawConstraint(c, pm)) <==> c.constraintType in {"hard", "soft"}
  {
  }

  lemma ConstraintsValidate(ceiling: Solver.RawConstraint, ucs: seq<UserConstraint>, pm: map<string, int>)
    requires ceiling.constraintType == Some("hard")
    ensures Solver.ValidateConstraints([ceiling] + RawConstraints(ucs, pm)).Ok? <==>
      forall i :: 0 <= i < |ucs| ==> ucs[i].constraintType in {"hard", "soft"}
  {
    var rest := RawConstraints(ucs, pm);
    assert ([ceiling] + rest)[1..] == rest;
    Solver.ValidateConstraintsExact(rest);
    forall i | 0 <= i < |ucs|
      ensures Solver.TypeOk(rest[i]) <==> ucs[i].constraintType in {"hard", "soft"}
    {
      UserConstraintTypeOk(ucs[i], pm);
    }
  }

  /** The payload passes validation exactly when the income is not negative,
      every user constraint type is "hard" or "soft" and the direction is
      "maximize" or "minimize"; with a negative income the first variable's
      bounds are the reported error. */
  lemma SolverInputValidates(income: int, ucs: seq<UserConstraint>, prios: Option<seq<UserPriority>>,
                             objCat: string, objDir: string)
    ensures var raw := SolverInput(income, ucs, prios, objCat, objDir);
      Solver.Validate(raw).Ok? <==>
        income >= 0
        && (forall i :: 0 <= i < |ucs| ==> ucs[i].constraintType in {"hard", "soft"})
        && objDir in {"maximize", "minimize"}
    ensures income < 0 ==>
      Solver.Validate(SolverInput(income, ucs, prios, objCat, objDir)) == Err(Solver.BoundsViolation(0, income))
  {
    var sorted := SortedSet(Categories(ucs) + {objCat});
    var raw := SolverInput(income, ucs, prios, objCat, objDir);
    assert objCat in sorted;
    SolverInputShape(income, ucs, prios, objCat, objDir);
    assert raw.constraints == [IncomeCeiling(income, sorted)] + RawConstraints(ucs, Overrides(prios));
    VariablesValidate(sorted, income);
    ConstraintsValidate(IncomeCeiling(income, sorted), ucs, Overrides(prios));
    Solver.ValidateParts(raw);
  }

  // ---------------------------------------------------------------------------
  // Merging Nessie and user constraints

  /** The categories of `cs` in order of first appearance. */
  function MergedKeys(cs: seq<UserConstraint>): (r: seq<string>)
    ensures forall x :: x in r <==> x in CategoryList(cs)
  {
    if cs == [] then []
    else
      var init, last := cs[..|cs| - 1], cs[|cs| - 1];
      assert CategoryList(cs) == CategoryList(init) + [last.category];
      MergedKeys(init) + (if last.category in MergedKeys(init) then [] else [last.category])
  }

  /** The last constraint of `cs` with category `cat`. */
  function LastWith(cs: seq<UserConstraint>, cat: string): (r: Option<UserConstraint>)
    ensures r.Some? ==> r.value in cs && r.value.category == cat
  {
    if cs == [] then None
    else if cs[|cs| - 1].category == cat then Some(cs[|cs| - 1])
    else LastWith(cs[..|cs| - 1], cat)
  }

  lemma {:induction false} LastWithExists(cs: seq<UserConstraint>, cat: string)
    requires cat in CategoryList(cs)
    ensures LastWith(cs, cat).Some?
  {
    var init := cs[..|cs| - 1];
    if cs[|cs| - 1].category != cat {
      assert CategoryList(cs) == CategoryList(init) + [cs[|cs| - 1].category];
      LastWithExists(init, cat);
    }
  }

  function MergeSpec(cs: seq<UserConstraint>): (r: seq<UserConstraint>)
    ensures |r| == |MergedKeys(cs)|
  {
    var keys := MergedKeys(cs);
    seq(|keys|, i requires 0 <= i < |keys| =>
      LastWithExists(cs, keys[i]);
      LastWith(cs, keys[i]).value)
  }

  /** What the `merged` dict holds after the constraints `cs` went in:
      its keys in insertion order, each mapped to the last constraint with it. */
  ghost predicate MergeState(cs: seq<UserConstraint>, keys: seq<string>, values: map<string, UserConstraint>) {
    keys == MergedKeys(cs)
    && (forall k :: k in keys <==> k in values)
    && (forall k :: k in values ==> LastWith(cs, k) == Some(values[k]))
  }

  /** One `merged[c.category] = c` step. */
  lemma MergeStep(seen: seq<UserConstraint>, c: UserConstraint, keys: seq<string>, values: map<string, UserConstraint>)
    requires MergeState(seen, keys, values)
    ensures MergeState(seen + [c], if c.category in values then keys else keys + [c.category],
                       values[c.category := c])
  {
    var p := seen + [c];
    SnocInit(seen, c);
    forall k | k in values[c.category := c]
      ensures LastWith(p, k) == Some(values[c.category := c][k])
    {
      if k != c.category {
        assert LastWith(p, k) == LastWith(seen, k);
      }
    }
  }

  lemma SnocInit(seen: seq<UserConstraint>, c: UserConstraint)
    ensures var p := seen + [c]; p[..|p| - 1] == seen && p[|p| - 1] == c
  {
  }

  lemma MergeStateSpec(cs: seq<UserConstraint>, keys: seq<string>, values: map<string, UserConstraint>)
    requires MergeState(cs, keys, values)
    ensures forall k :: k in keys ==> k in values
    ensures |keys| == |MergeSpec(cs)|
    ensures forall j :: 0 <= j < |keys| ==> values[keys[j]] == MergeSpec(cs)[j]
  {
  }

  /** One `for c in ...: merged[c.category] = c` loop of `merge_constraints`,
      run on a dict that already holds the constraints `done`. */
  method Absorb(ghost done: seq<UserConstraint>, cs: seq<UserConstraint>,
                keys0: seq<string>, values0: map<string, UserConstraint>)
    returns (keys: seq<string>, values: map<string, UserConstraint>)
    requires MergeState(done, keys0, values0)
    ensures MergeState(done + cs, keys, values)
  {
    keys, values := keys0, values0;
    ghost var seen := done;
    assert done + cs[..0] == done;
    for i := 0 to |cs|
      invariant seen == done + cs[..i]
      invariant MergeState(seen, keys, values)
    {
      var c := cs[i];
      MergeStep(seen, c, keys, values);
      keys := if c.category in values then keys else keys + [c.category];
      values := values[c.category := c];
      AppendSlice(done, cs, i);
      seen := seen + [c];
    }
    assert cs[..|cs|] == cs;
  }

  lemma AppendSlice(done: seq<UserConstraint>, cs: seq<UserConstraint>, i: nat)
    requires i < |cs|
    ensures done + cs[..i + 1] == (done + cs[..i]) + [cs[i]]
  {
    assert cs[..i + 1] == cs[..i] + [cs[i]];
  }

  /** `list(merged.values())`: the values in key insertion order. */
  method DictValues(keys: seq<string>, values: map<string, UserConstraint>) returns (r: seq<UserConstraint>)
    requires forall k :: k in keys ==> k in values
    ensures |r| == |keys| && forall j :: 0 <= j < |keys| ==> r[j] == values[keys[j]]
  {
    r := [];
    for i := 0 to |keys|
      invariant |r| == i
      invariant forall j :: 0 <= j < i ==> r[j] == values[keys[j]]
    {
      r := r + [values[keys[i]]];
    }
  }

  /** `merge_constraints`: a dict keyed by category, filled with the Nessie
      constraints and then the user constraints; user constraints win. */
  method MergeConstraints(nessieConstraints: seq<UserConstraint>, userConstraints: seq<UserConstraint>)
    returns (merged: seq<UserConstraint>)
    ensures merged == MergeSpec(nessieConstraints + userConstraints)
  {
    var keys, values := Absorb([], nessieConstraints, [], map[]);
    assert [] + nessieConstraints == nessieConstraints;
    keys, values := Absorb(nessieConstraints, userConstraints, keys, values);
    MergeStateSpec(nessieConstraints + userConstraints, keys, values);
    merged := DictValues(keys, values);
  }

  lemma {:induction false} MergedKeysDistinct(cs: seq<UserConstraint>)
    ensures forall i, j :: 0 <= i < j < |MergedKeys(cs)| ==> MergedKeys(cs)[i] != MergedKeys(cs)[j]
  {
    if cs != [] {
      MergedKeysDistinct(cs[..|cs| - 1]);
    }
  }

  lemma {:induction false} LastWithConcat(a: seq<UserConstraint>, b: seq<UserConstraint>, cat: string)
    ensures LastWith(a + b, cat) == if cat in CategoryList(b) then LastWith(b, cat) else LastWith(a, cat)
  {
    if b != [] {
      var init := b[..|b| - 1];
      assert (a + b)[..|a + b| - 1] == a + init;
      assert CategoryList(b) == CategoryList(init) + [b[|b| - 1].category];
      LastWithConcat(a, init, cat);
    } else {
      assert a + b == a;
    }
  }

  /** The merged list holds one constraint per category of either list, each
      category once; a category the user
      constrained keeps the user's last constraint for it, and any other
      keeps the last Nessie constraint for it. */
  lemma MergeUserWins(nessie: seq<UserConstraint>, user: seq<UserConstraint>)
    ensures var m := MergeSpec(nessie + user);
      (forall x :: x in CategoryList(m) <==> x in CategoryList(nessie) || x in CategoryList(user))
      && (forall i, j :: 0 <= i < j < |m| ==> m[i].category != m[j].category)
      && (forall i :: 0 <= i < |m| && m[i].category in CategoryList(user) ==>
            Some(m[i]) == LastWith(user, m[i].category))
      && (forall i :: 0 <= i < |m| && m[i].category !in CategoryList(user) ==>
            Some(m[i]) == LastWith(nessie, m[i].category))
  {
    var all := nessie + user;
    var m := MergeSpec(all);
    var keys := MergedKeys(all);
    forall i | 0 <= i < |m| ensures Some(m[i]) == LastWith(all, keys[i]) && m[i].category == keys[i] {
      assert keys[i] in keys;
      LastWithExists(all, keys[i]);
    }
    MergedKeysDistinct(all);
    assert CategoryList(m) == keys;
    assert CategoryList(all) == CategoryList(nessie) + CategoryList(user);
    forall i | 0 <= i < |m| ensures Some(m[i]) == LastWith(if m[i].category in CategoryList(user) then user else nessie, m[i].category) {
      LastWithConcat(nessie, user, m[i].category);
    }
  }
}
