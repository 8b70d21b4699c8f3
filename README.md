# Liquidity budget back end — a Dafny model

Liquidity plans a monthly budget. A user's income, spending history from the
Nessie banking API, and preferences ("keep dining under $300", "I want to buy
a $2000 watch") become an integer constraint problem. The problem has one
bounded integer variable per spending category and hard and soft constraints
written as small Python expressions. It is solved by a relax-and-resolve loop
over Google OR-Tools' CP-SAT solver: while no solution exists, the least
important soft constraint is dropped and the model is rebuilt. An LLM agent
builds problems and adds constraints through two tools. An explainer summarises
the answer.

This project models the deterministic core of that back end in Dafny and proves
what it promises:

- `solver.dfy` (module `Solver`) covers `backend/app/solver.py`. It holds:
  - request validation (`check_bounds` and the pydantic enumerations);
  - the class `DynamicSolver`, whose fields `model`, `vars` and `result` its methods reassign, as `_build_model` and `solve` do;
  - the relaxation loop, stated once as a function (`Relax`) and once as the `while` loop of `Solve`;
  - `solve_from_json` and `solve_constraint_problem`.

  CP-SAT is a parameter `cpsat: CpModel -> CpResult`. `SoundOracle` states what is assumed of it when solutions are discussed.
- `pyast.dfy` (module `PyAst`) covers the restricted evaluator `safe_eval_ast`. It works over an expression-tree datatype, and `ast.parse` is a parameter. A reference interpreter `Interp` evaluates the same tree on plain integers.
- `context.dfy` (module `Context`) covers `backend/app/context.py`: category sanitising, dashboard constraints, the solver payload builder and the category-keyed merge. The loops are methods proved against specification functions.
- `nessie.dfy` (module `Nessie`) covers the pure parts of `backend/app/nessie_client.py`: URLs, the street split of `create_customer`, and the rule-based translation of accounts and bills into a payload.
- `agent.dfy` (module `Agent`) covers `backend/app/agent.py`:
  - the three conversation scans, as methods with loops proved against specification functions;
  - the per-request accumulator of `add_user_constraint`, as the class `RequestState`;
  - the message list prepared by `BudgetAgent.run`.

  JSON values form a datatype, and `json.loads` is a parameter.
- `auth.dfy` (module `Auth`) covers the bearer-token extraction of `backend/app/supabase_client.py`.
- `explainer.dfy` (module `Explainer`) covers the top-five allocation selection of `backend/app/explainer_agent.py`.
- Supporting modules:
  - `pystr.dfy` (`PyStr`): the Python `str` built-ins the code uses (`strip`, `split(" ", 1)`, `lower`, `replace`, `isidentifier`, `str(int)`, `f"{n:,}"`, `" + ".join`, `sorted(set)`);
  - `sorting.dfy` (`Sorting`): Python's stable `sorted(key=...)` on an integer key, proved sorted, a permutation and stable;
  - `seqs.dfy` (`Seqs`): sequence facts;
  - `wrappers.dfy` (`Wrappers`): `Option` and `Result`.

A Python exception becomes an `Err` value naming what was raised. Where such
an exception is caught and turned into a response, the model produces that
response.

## Model

| member | source | states |
|---|---|---|
| Solver.CheckBounds | backend/app/solver.py:17-24 | a variable is accepted exactly when `lower_bound <= upper_bound`; otherwise the error carries both bounds |
| Solver.ValidateConstraint | backend/app/solver.py:30-35 | `constraint_type` is accepted exactly when absent, "hard" or "soft"; defaults are hard, priority 0 and description "" |
| Solver.ValidateObjective | backend/app/solver.py:26-28 | the direction is accepted exactly when it is "maximize" or "minimize" |
| Solver.ValidateVariablesExact | backend/app/solver.py:17-24 | a variable list validates exactly when every variable has ordered bounds; validated definitions keep name and bounds |
| Solver.ValidateConstraintsExact | backend/app/solver.py:30-35 | a constraint list validates exactly when every constraint type is allowed |
| Solver.ValidateParts | backend/app/solver.py:37-43 | a request with an objective validates exactly when its variables, constraints and objective do; a variable error is the one reported first |
| Solver.Validate | backend/app/solver.py:17-43 | a request validates exactly when every variable has ordered bounds, every constraint type is absent, "hard" or "soft", and any objective direction is "maximize" or "minimize"; a valid request keeps its variable and constraint counts and its objective |
| Solver.StatusNameInjective | backend/app/solver.py:207 | distinct CP-SAT statuses have distinct names |
| Solver.ReportedSolutionIsAssignment | backend/app/solver.py:210-214 | the reported solution lists every declared variable in declaration order, each with its value in the assignment the hard and kept soft constraints are proved to hold on |
| Solver.DeclErrorExact | backend/app/solver.py:152-159 | declaring the variables succeeds exactly when every name is an identifier and no name repeats |
| Solver.DeclError | backend/app/solver.py:152-156 | a declaration error is an invalid or a duplicate name; an invalid name is not an identifier; the name reported is declared, and a duplicate one is declared at two positions |
| Solver.DeclErrorExtends | backend/app/solver.py:152-156 | once a prefix of the declarations fails, the whole declaration loop reports that same error |
| Solver.DeclErrorStep | backend/app/solver.py:152-159 | one declaration step: an invalid name, then a repeated name, is the error; otherwise the name is added |
| Solver.CompileAll | backend/app/solver.py:162-170 | a successful compilation gives one compiled constraint per source constraint |
| Solver.ToConstraint | backend/app/solver.py:165 | `model.Add` accepts a comparison or a bool and nothing else; otherwise the error names the expression |
| Solver.CompileConstraint | backend/app/solver.py:164-165 | a constraint compiles exactly when its expression evaluates to a comparison or a bool; every error names the expression |
| Solver.CompileAllAt | backend/app/solver.py:164-170 | the compiled list's i-th entry is what `safe_eval_ast` built from the i-th expression |
| Solver.CompileAllExtends | backend/app/solver.py:162-170 | the first expression that fails to compile decides the error, whatever follows |
| Solver.Filter | backend/app/solver.py:163 | the filtered constraints all have the requested type and are all from the input |
| Solver.HardStep | backend/app/solver.py:162-165 | one iteration of the hard-constraint loop: a soft constraint changes nothing; a hard one appends its compiled form or ends the build with its error |
| Solver.SoftStep | backend/app/solver.py:168-170 | one iteration of the soft-constraint loop appends the compiled constraint or ends the build with its error |
| Solver.CompileFilterExtends | backend/app/solver.py:162-165 | a hard constraint that fails to compile fails the whole hard loop with its error |
| Solver.BuildModelSpecSteps | backend/app/solver.py:143-177 | after the declarations, a build fails with the first failing hard constraint, then selected soft one, then objective; otherwise the model holds the hard, then the soft constraints, then the objective |
| Solver.BuildModelSpec | backend/app/solver.py:143-177 | a declaration error fails the build with that error; a built model has the declared variables, one constraint per hard constraint and per selected soft constraint, and an objective exactly when one was requested |
| Solver.CompileObjective | backend/app/solver.py:172-177 | no objective compiles to none; a compiled objective keeps the requested direction |
| Solver.HardInEveryModel | backend/app/solver.py:161-170 | every rebuilt model holds the same compiled hard constraints, followed by the selected soft ones, and the request's variables |
| Solver.BuildErrorIndependentOfSoft | backend/app/solver.py:152-165 | a declaration or hard-constraint error fails every build identically, whatever soft constraints are selected |
| Solver.RelaxPartition | backend/app/solver.py:189-204 | loop invariant: the active list followed by the reversed dropped list is the starting list; active only shrinks from the end and dropped only grows |
| Solver.Relax | backend/app/solver.py:189-204 | the loop ends solved or with nothing active; the kept constraints are a prefix of the starting list, the dropped list extends the starting one, and no constraint is lost or added |
| Solver.RelaxStops | backend/app/solver.py:193-202 | the loop ends on a solved model or with no soft constraint left, and the reported result is the solver's answer on the last built model |
| Solver.AttemptsShape | backend/app/solver.py:193-204 | round i solves the active list without its last i constraints; every round but the last failed; rounds = drops + 1 |
| Solver.SolveCount | backend/app/solver.py:193-204 | the loop solves at most (number of soft constraints + 1) times |
| Solver.Label | backend/app/solver.py:216-217 | a constraint's label is its description, or its expression when the description is empty |
| Solver.Labels | backend/app/solver.py:216-217 | one label per constraint, in order |
| Solver.Solution | backend/app/solver.py:210-214 | one `(name, value)` entry per declared name, in declaration order |
| Solver.SplitSorted | backend/app/solver.py:185-188 | splitting a priority-sorted list into a kept prefix and a reversed dropped suffix: dropped priorities never increase and are never below a kept one |
| Solver.DropOrder | backend/app/solver.py:185-204 | active + reverse(dropped) is the stably sorted soft list; the highest priority number is dropped first, and among equal priorities the later-declared one first |
| Solver.OnlySoftDropped | backend/app/solver.py:186-204 | only soft constraints of the request are ever dropped |
| Solver.SolvedResponse | backend/app/solver.py:207-226 | when solved: one solution entry per variable; satisfied = hard labels in input order + kept soft labels; every constraint is satisfied or dropped; the objective value is reported; status OPTIMAL or FEASIBLE |
| Solver.Respond | backend/app/solver.py:207-231 | a build failure gives "ERROR" with wall time 0 and nothing else; otherwise the status name and wall time are the solver's, one dropped label per dropped constraint, and a solution, objective value and satisfied list only when solved, one entry per variable and per hard or kept soft constraint |
| Solver.SolveSpec | backend/app/solver.py:179-231 | the status is "ERROR" exactly when a model could not be built, and otherwise a CP-SAT status name; only an OPTIMAL or FEASIBLE answer carries a solution, with one entry per variable |
| Solver.RespondSolved | backend/app/solver.py:207-226 | the response built from a solved outcome has exactly the fields above |
| Solver.UnsolvedResponse | backend/app/solver.py:201-226 | when unsolved: nothing active, every soft constraint dropped least important first, empty solution and satisfied list, no objective value |
| Solver.UnsolvedDropsAll | backend/app/solver.py:201-204 | without a solution the loop ran until every soft constraint was dropped |
| Solver.BuildFailureResponse | backend/app/solver.py:229-231 | a model that cannot be built gives the "ERROR" response with wall time 0 |
| Solver.ConstraintSound | backend/app/solver.py:164-165 | a compiled constraint that an assignment meets is, evaluated in Python on those integers, True |
| Solver.CompiledHold | backend/app/solver.py:162-170 | the same for every constraint of a compiled list |
| Solver.ModelHolds | backend/app/solver.py:161-170 | an assignment meeting a built model makes every hard and selected soft constraint True |
| Solver.SatisfiedConstraintsHold | backend/app/solver.py:212-217 | with a sound solver, every constraint reported satisfied evaluates to True on the reported solution |
| Solver.SolutionWithinBounds | backend/app/solver.py:157-159 | with a sound solver, every reported value lies within its variable's bounds |
| Solver.SolvedModel | backend/app/solver.py:194-198 | with a sound solver, the reported solution satisfies the model of the kept constraints |
| Solver.SolveFromJson | backend/app/solver.py:235-273 | a validation error gives "VALIDATION_ERROR: …" with wall time 0 (so does any variable with unordered bounds); otherwise the response is that of a fresh solver |
| Solver.SolveConstraintProblem | backend/app/solver.py:276-324 | an objective expression without a direction is an error; otherwise the response is that of `solve_from_json` on the assembled payload |
| Solver.DynamicSolver.constructor | backend/app/solver.py:139-141 | a fresh engine has no declared variables |
| Solver.DynamicSolver.DeclareVariables | backend/app/solver.py:149-159 | the declaration loop reports the first invalid or repeated name; otherwise the model holds exactly the variables and `vars` their names in order |
| Solver.DynamicSolver.AddHardConstraints | backend/app/solver.py:161-165 | the hard loop appends the compiled hard constraints in input order, or reports the first compile error |
| Solver.DynamicSolver.AddSoftConstraints | backend/app/solver.py:167-170 | the soft loop appends the compiled selected constraints in order, or reports the first compile error |
| Solver.DynamicSolver.SetObjective | backend/app/solver.py:172-177 | the objective is set with its direction, or its compile error is reported; without an objective the model is unchanged |
| Solver.DynamicSolver.BuildModel | backend/app/solver.py:143-177 | the fields hold the model `BuildModelSpec` describes, or the error it reports is returned |
| Solver.DynamicSolver.ReadSolution | backend/app/solver.py:212-214 | the solution is read variable by variable in declaration order |
| Solver.DynamicSolver.Solve | backend/app/solver.py:179-231 | the `while` loop's response is exactly the specification's, so the drop-order and response lemmas above apply to it |
| PyAst.Eval | backend/app/solver.py:78-130 | a successful evaluation only mentions declared variables |
| PyAst.SafeEvalAst | backend/app/solver.py:132-136 | text that does not parse is a failure; otherwise the tree's evaluation is the result |
| PyAst.EvalOnlyFragment | backend/app/solver.py:81-130 | evaluation succeeds only on integer (non-bool) literals, names, `+ - *`, unary `+ -` and single comparisons from the operator table |
| PyAst.NonLinearRejected | backend/app/solver.py:103-108 | multiplying two variable expressions is rejected as non-linear |
| PyAst.UnknownNameRejected | backend/app/solver.py:92-95 | a name that is not declared is an unknown-variable error |
| PyAst.EvalSound | backend/app/solver.py:78-130 | the linear expression built, once variables get values, equals what Python computes on those values |
| PyAst.ApplyBinSound | backend/app/solver.py:109 | `+ - *` on built values agree with integer arithmetic on their concrete values |
| PyAst.ApplyUnarySound | backend/app/solver.py:110-113 | unary `+ -` agree with integer negation and identity |
| PyAst.ApplyCompareSound | backend/app/solver.py:123-127 | a built comparison is True exactly when the integer comparison holds |
| PyAst.ApplyBin | backend/app/solver.py:109 | `+ - *` fail exactly on a comparison operand; two integers give an integer, anything involving a variable a linear expression |
| PyAst.ApplyUnary | backend/app/solver.py:110-113 | unary `+ -` fail exactly on a comparison; an integer stays an integer, a linear expression stays linear |
| PyAst.ApplyCompare | backend/app/solver.py:123-127 | a comparison fails exactly on a comparison operand; two integers give a bool, anything involving a variable a bounded linear constraint |
| PyAst.MultValue | backend/app/solver.py:103-109 | scaling by the integer operand gives the product of the two values |
| PyAst.PlusValue | backend/app/solver.py:65 | adding linear expressions adds their values |
| PyAst.MinusValue | backend/app/solver.py:66 | subtracting linear expressions subtracts their values |
| PyAst.ScaleValue | backend/app/solver.py:67 | scaling a linear expression scales its value |
| Context.SanitizeCategoryName | backend/app/context.py:14-16 | the result has no ASCII capital, space, `-` or `&` |
| Context.SanitizeIdempotent | backend/app/context.py:14-16 | sanitizing twice is sanitizing once |
| Context.Trunc | backend/app/context.py:45 | `int()` of a float truncates toward zero |
| Context.EnumeratedAt | backend/app/context.py:32 | the i-th result of the enumeration loop is built from position i and entry i |
| Context.SuggestFromBreakdown | backend/app/context.py:32-48 | the loop builds exactly one constraint per breakdown entry, in order |
| Context.BuildConstraintsFromDashboard | backend/app/context.py:19-50 | one constraint per entry, in order: id `nessie-<i>`, sanitized category, `<=`, the suggested amount, soft, priority 2, the historical description, source "nessie" |
| Context.DashboardConstraintFields | backend/app/context.py:37-48 | every field of one dashboard constraint as above |
| Context.DashboardConstraint | backend/app/context.py:37-48 | a dashboard constraint has a sanitized category, `<=`, the suggested amount, type "soft", priority 2 and source "nessie" |
| Context.NessieIdsDistinct | backend/app/context.py:39 | distinct positions get distinct ids |
| Context.CategoryList | backend/app/context.py:75-76 | the category of each constraint, in order |
| Context.CollectCategories | backend/app/context.py:73-76 | the loop collects exactly the set of categories used |
| Context.PriorityMapLastWins | backend/app/context.py:89-92 | a category has an override exactly when some entry names it, and the last entry naming it wins |
| Context.PriorityMap | backend/app/context.py:89-92 | the override map has a key for every category named and for no other |
| Context.EffectivePriority | backend/app/context.py:109 | an override for the category replaces the constraint's own priority, which is kept otherwise |
| Context.CollectPriorities | backend/app/context.py:88-92 | the loop builds exactly that override map (empty when there are no priorities) |
| Context.Describe | backend/app/context.py:115 | an empty description falls back to `"{category} {operator} ${amount}"` |
| Context.VariablesFor | backend/app/context.py:83-86 | one variable per name, bounded by `[0, income]` |
| Context.RawConstraints | backend/app/context.py:107-116 | one payload constraint per user constraint, in order |
| Context.ToRawConstraint | backend/app/context.py:107-116 | a payload constraint keeps the type, takes the effective priority, starts its expression with the category, and always has a non-empty description |
| Context.AppendUserConstraints | backend/app/context.py:107-116 | the loop appends exactly those constraints after the ceiling |
| Context.BuildSolverInput | backend/app/context.py:53-125 | the method's payload is the specification `SolverInput`, whose properties the lemmas below state |
| Context.SolverInputVariables | backend/app/context.py:73-86 | the variables are the distinct categories plus the objective category, strictly increasing, each once; the objective category is always declared |
| Context.SolverInputBounds | backend/app/context.py:83-86 | every variable is bounded by `[0, income]`, and the objective is the objective category in the requested direction |
| Context.SolverInputCeiling | backend/app/context.py:97-104 | the first constraint is hard, priority 0, `<sorted categories joined by " + "> <= income`, with the thousands-grouped income in its description; one more constraint per user constraint |
| Context.IncomeCeiling | backend/app/context.py:97-104 | the ceiling is hard, priority 0, has a description, and its expression ends in `<= <income>` |
| Context.SolverInput | backend/app/context.py:53-125 | the payload has the ceiling (hard) followed by one constraint per user constraint, every variable bounded by `[0, income]`, and the requested objective |
| Context.SolverInputUserConstraints | backend/app/context.py:106-116 | after the ceiling, one constraint per user constraint in order, with its expression, type, overriding or own priority and description or fallback |
| Context.VariablesValidate | backend/app/context.py:83-86 | the variables validate exactly when there are none or the income is not negative; otherwise the first variable's bounds are the error |
| Context.UserConstraintTypeOk | backend/app/context.py:113 | a payload constraint's type is accepted exactly when the user constraint's is "hard" or "soft" |
| Context.ConstraintsValidate | backend/app/context.py:97-116 | the constraint list validates exactly when every user constraint type is "hard" or "soft" |
| Context.SolverInputValidates | backend/app/context.py:53-125 | the payload validates exactly when the income is not negative, every user constraint type is allowed and the direction is allowed |
| Context.MergedKeys | backend/app/context.py:140-145 | the dict's keys are exactly the categories seen |
| Context.LastWith | backend/app/context.py:140-145 | the entry found for a category is one of the constraints, with that category |
| Context.LastWithExists | backend/app/context.py:140-145 | every category seen has a last constraint |
| Context.MergeStep | backend/app/context.py:141 | one `merged[c.category] = c` keeps the dict's meaning: keys in first-insertion order, each mapped to the last constraint with it |
| Context.MergeStateSpec | backend/app/context.py:147 | such a dict's values in key order are the merge specification |
| Context.MergeSpec | backend/app/context.py:140-147 | one merged constraint per distinct category |
| Context.Absorb | backend/app/context.py:140-145 | one loop of keyed assignments leaves the dict holding everything inserted so far |
| Context.DictValues | backend/app/context.py:147 | `list(merged.values())` lists the values in key order |
| Context.MergeConstraints | backend/app/context.py:128-147 | the merged list is the merge specification on Nessie constraints then user constraints |
| Context.MergedKeysDistinct | backend/app/context.py:140-147 | each category appears once in the merged keys |
| Context.LastWithConcat | backend/app/context.py:140-145 | the later list wins for every category it contains |
| Context.MergeUserWins | backend/app/context.py:128-147 | one constraint per category of either list, each once; a user-constrained category keeps the user's last constraint, any other the last Nessie one |
| Nessie.BuildUrl | backend/app/nessie_client.py:16-18 | the URL is exactly base, `/`, endpoint, `?key=` and key |
| Nessie.BuildUrlInjective | backend/app/nessie_client.py:16-18 | one client never builds the same URL for two endpoints |
| Nessie.EndpointPathInjective | backend/app/nessie_client.py:53-74 | different requests go to different paths, whatever the ids |
| Nessie.SplitStreet | backend/app/nessie_client.py:30-32 | with a space the street is number, space, name with no space in the number; without one, the number is the whole street and the name is empty |
| Nessie.SplitStreetJoin | backend/app/nessie_client.py:30-32 | splitting a joined number and name gives them back |
| Nessie.CreateCustomerPayload | backend/app/nessie_client.py:27-44 | every payload field as above, including a missing street |
| Nessie.Total | backend/app/nessie_client.py:108-111 | a total of non-negative amounts is non-negative; missing fields count 0 |
| Nessie.TotalConcat | backend/app/nessie_client.py:108-111 | totals add over concatenation |
| Nessie.TotalSwap | backend/app/nessie_client.py:108-111 | the order of accounts or bills does not change a total |
| Nessie.TransformNessieToConstraints | backend/app/nessie_client.py:94-146 | three variables `bills`, `discretionary`, `savings` bounded by `[0, total balance]`; two hard priority-0 constraints (the sum within the balance, bills equal to the bills total); maximize savings |
| Nessie.TransformNumbersReadBack | backend/app/nessie_client.py:123-129 | the numbers written into the expressions read back as the two totals |
| Nessie.TransformValidates | backend/app/nessie_client.py:114-134 | the payload validates exactly when the balance total is not negative |
| Nessie.CategoriesAreNames | backend/app/nessie_client.py:114-118 | the three names are distinct identifiers |
| Nessie.TransformDeclares | backend/app/nessie_client.py:114-118 | a validated payload always declares without error |
| Nessie.CategoriesDeclare | backend/app/nessie_client.py:114-118 | three definitions with those names declare without error |
| Agent.In | backend/app/agent.py:332 | `key in data`: a dict tests its keys, a list its elements, a string whether `key` occurs in it at some offset; anything else raises `TypeError` |
| Agent.IsSubstringIff | backend/app/agent.py:332 | the recursive substring test holds exactly when the key occurs in the string at some offset |
| Agent.LatestOfNone | backend/app/agent.py:324-336 | a newest-first scan finds nothing exactly when no message yields anything |
| Agent.LatestOfIsLatest | backend/app/agent.py:324-336 | a newest-first scan answers with the newest message that yields something |
| Agent.LatestOfStep | backend/app/agent.py:324-335 | one scan step: the newer message decides if it yields something |
| Agent.LatestOf | backend/app/agent.py:324-336 | whatever a newest-first scan answers other than "nothing" is the answer of one of the messages |
| Agent.DecodeContent | backend/app/agent.py:327-331 | a content that is neither a dict nor a string raises |
| Agent.ResultFromMessage | backend/app/agent.py:325-335 | a message that is not a dict raises `AttributeError`; a dict that is not a tool message yields nothing; for a tool message, undecodable JSON is skipped, a content that is neither dict nor string raises, decoded data holding both "solution" and "status" is returned, data missing either yields nothing, and data that `in` cannot test raises `TypeError`; anything returned is such data |
| Agent.ExtractSolverResult | backend/app/agent.py:319-336 | the loop returns exactly the specification's newest-first scan |
| Agent.SolverResultIsNewest | backend/app/agent.py:319-336 | the result is that of the newest tool message that has one |
| Agent.SolverResultNone | backend/app/agent.py:336 | None exactly when no message yields a result |
| Agent.InputFromCall | backend/app/agent.py:347-355 | a call or `function` that is not a dict raises `AttributeError`; a call to another function yields nothing; for `create_constraint_problem`, arguments that are not a string or do not decode are skipped, decoded arguments that are not a dict raise `AttributeError`, and otherwise the value is `problem_json` decoded a second time, or nothing when it is not a string or does not decode |
| Agent.ScanToolCalls | backend/app/agent.py:347-355 | the inner loop returns the specification's answer for one message's calls |
| Agent.InputFromCalls | backend/app/agent.py:346-355 | the calls of one message yield nothing exactly when every call yields nothing; otherwise the answer is that of one of the calls |
| Agent.InputFromMessage | backend/app/agent.py:343-355 | a message that is not a dict raises `AttributeError`; falsy `tool_calls` yield nothing; truthy `tool_calls` that are a dict or a string raise `AttributeError`, other non-lists `TypeError`; a found input comes from one of the listed calls |
| Agent.ExtractSolverInput | backend/app/agent.py:338-356 | the loop returns exactly the specification's newest-first scan |
| Agent.InputFromCallsFirst | backend/app/agent.py:347-355 | within a message the first call that yields something decides |
| Agent.SolverInputIsNewest | backend/app/agent.py:343-356 | across messages the newest one that yields something decides |
| Agent.ConstraintFromMessage | backend/app/agent.py:365-375 | a message that is not a dict raises; a dict that is not a tool message yields nothing; for a tool message, content that does not decode or cannot be decoded is skipped, decoded data that is not a dict raises `AttributeError`, data with status "added" and a "constraint" key yields that constraint, and any other data yields nothing |
| Agent.NewConstraintsSpec | backend/app/agent.py:358-376 | at most one constraint per tool message |
| Agent.NewConstraintsOkIff | backend/app/agent.py:364-376 | the scan succeeds exactly when no message raises; otherwise its error is that of the oldest message that raises |
| Agent.NewConstraintsPositions | backend/app/agent.py:364-376 | every message that yields a constraint contributes it, right after the constraints of the messages before it (oldest first) |
| Agent.NewConstraintsSources | backend/app/agent.py:364-376 | every collected constraint comes from the message at its position, so nothing else is collected |
| Agent.ExtractNewConstraints | backend/app/agent.py:358-376 | the loop returns exactly the specification's oldest-first list |
| Agent.NewConstraintsErrorStays | backend/app/agent.py:364-375 | an error raised in a prefix ends the scan with that error |
| Agent.NewConstraintsConcat | backend/app/agent.py:364-376 | the scan of a conversation is the scan of its parts, one after the other |
| Agent.Tagged | backend/app/agent.py:141-142 | tagging adds exactly the `id` and `source` keys |
| Agent.AddUserConstraintReply | backend/app/agent.py:133-152 | malformed JSON gets the reply with status "error", message "malformed constraint JSON" and the decoder's message as details; a decoded dict gets status "added" with the tagged constraint; anything else raises `TypeError`, and only then |
| Agent.AddedConstraintIsExtracted | backend/app/agent.py:152 | a successful reply, put back as a tool message, is found by the constraint scan exactly when the JSON decoded, as the tagged constraint |
| Agent.RequestState.constructor | backend/app/agent.py:100-107 | both context variables start as None |
| Agent.RequestState.Reset | backend/app/agent.py:257-263 | the reset sets both to None |
| Agent.RequestState.AddUserConstraint | backend/app/agent.py:133-152 | a decoded dict is tagged and appended, exactly once, to the accumulated list; malformed JSON or a non-dict leaves the accumulator as it was; the solver result is untouched |
| Agent.PreparedMessages | backend/app/agent.py:259-269 | a history that starts with a system message gets only the user message appended; any other history gets the system prompt in front and the user message at the end; a first message that is not a dict raises |
| Agent.PrepareMessages | backend/app/agent.py:259-269 | the insert-and-append steps give exactly that list |
| Agent.PrepareAgain | backend/app/agent.py:266-269 | preparing an already prepared list only appends the next user message |
| Auth.ExtractBearerToken | backend/app/supabase_client.py:25-36 | None or "" is 401 "Missing Authorization header"; anything without the case-sensitive "Bearer " prefix is 401 "Invalid Authorization header"; otherwise the token is the text after "Bearer ", stripped |
| Auth.BearerRoundTrip | backend/app/supabase_client.py:36 | a token without surrounding whitespace comes back unchanged whatever whitespace pads it |
| Auth.BlankTokenAccepted | backend/app/supabase_client.py:31-36 | "Bearer " followed only by whitespace gives an empty token, not an error |
| Auth.LowerCaseBearerRejected | backend/app/supabase_client.py:31-35 | "bearer " in lower case is rejected |
| Explainer.Positive | backend/app/explainer_agent.py:75 | exactly the entries with a value above 0, drawn from the solution |
| Explainer.TopAllocations | backend/app/explainer_agent.py:74-78 | at most five entries (five, or all positive ones when fewer), all positive, values non-increasing, drawn from the positive entries |
| Explainer.SelectionFacts | backend/app/explainer_agent.py:74-78 | any prefix of the positive entries sorted by decreasing value has those properties |
| Explainer.LeftOutAreSmaller | backend/app/explainer_agent.py:74-78 | every positive entry left out is no larger than the smallest selected, and nothing is left out when there are at most five |
| Explainer.LeftOut | backend/app/explainer_agent.py:74-78 | the same for one entry |
| Explainer.OutsidePrefix | backend/app/explainer_agent.py:78 | an entry of a sorted list outside a prefix is no larger than the prefix's last entry |
| Explainer.EqualAmountsKeepOrder | backend/app/explainer_agent.py:74-77 | among equal values the selection keeps the solution's order: the selected entries with a value are the first entries of the solution with that value |
| Explainer.PositiveKeepsOrder | backend/app/explainer_agent.py:75 | dropping the non-positive entries keeps the order of the rest: the entries with any positive value are the same before and after |
| Explainer.PrefixSelection | backend/app/explainer_agent.py:78 | a prefix's entries of one value are the first ones of that value |
| Explainer.TopIsPrefix | backend/app/explainer_agent.py:74-78 | the selection is a prefix of the stable sort |
| Sorting.SortBy | backend/app/solver.py:185-188 | `sorted(key=...)`: same length, sorted, a permutation, and for every key the elements with it keep their input order |
| Sorting.Insert | backend/app/solver.py:185-188 | inserting into a sorted list keeps it sorted and adds exactly the element |
| Sorting.InsertWithKey | backend/app/solver.py:185-188 | inserting after every element with a smaller or equal key puts the element last among equal keys |
| Sorting.WithKeyConcat | backend/app/solver.py:185-188 | the elements with a key split over concatenation |
| Sorting.PrefixWithKey | backend/app/explainer_agent.py:78 | a prefix's elements with a key are the first ones with that key |
| PyStr.LStrip | backend/app/supabase_client.py:36 | removes exactly the leading whitespace |
| PyStr.RStrip | backend/app/supabase_client.py:36 | removes exactly the trailing whitespace |
| PyStr.Strip | backend/app/supabase_client.py:36 | the result neither starts nor ends with whitespace, and is empty exactly for all-whitespace text |
| PyStr.StripPadded | backend/app/supabase_client.py:36 | stripping removes exactly the surrounding whitespace |
| PyStr.SplitOnce | backend/app/supabase_client.py:36 | `split(sep, 1)` gives the text around the first separator, or the whole text when there is none; never an empty list |
| PyStr.Lower | backend/app/context.py:16 | `lower()` maps each ASCII capital to its small letter and keeps everything else |
| PyStr.ReplaceContents | backend/app/context.py:16 | `replace` leaves no replaced character unless the replacement has one, and changes nothing when it does not occur |
| PyStr.NatToDecimal | backend/app/context.py:39 | `str(n)` is a non-empty digit string without a leading zero |
| PyStr.IntToDecimal | backend/app/context.py:100 | `str(n)` is non-empty, starts with `-` exactly for negative n, and is otherwise digits |
| PyStr.WithThousands | backend/app/context.py:103 | `f"{n:,}"` is non-empty and starts with `-` exactly for negative n |
| PyStr.IsIdentifier | backend/app/solver.py:153 | `isidentifier()` on ASCII text: an identifier is non-empty, does not start with a digit and holds no space or `-` |
| PyStr.IntToDecimalRoundTrip | backend/app/context.py:100 | reading back what `str(n)` wrote gives n |
| PyStr.WithThousandsDigits | backend/app/context.py:103 | removing the commas from `f"{n:,}"` gives `str(n)` |
| PyStr.DecimalSplitsAtThousands | backend/app/context.py:103 | the decimal digits of n are those of n // 1000 followed by the last three |
| PyStr.SortedSet | backend/app/context.py:85 | `sorted(set)` lists every element once, in strictly increasing code-point order |
| PyStr.StrLtTransitive | backend/app/context.py:85 | Python's string `<` is transitive |
| PyStr.StrLtTotal | backend/app/context.py:85 | any two distinct strings are ordered by `<` |
| PyStr.LeastUnique | backend/app/context.py:85 | a set of strings has at most one least element |

## Left out

- CP-SAT itself (`CpModel`, `CpSolver.Solve`, `Value`, `ObjectiveValue`, `WallTime`) is the parameter `cpsat`. Search, timing and floating-point objective values are not modelled. Claims about solutions assume `SoundOracle`: the solver reports OPTIMAL or FEASIBLE only with an assignment meeting every bound and constraint.
- PyAst.Eval: OR-Tools' constant folding inside expression arithmetic is not modelled. In the library, `0 * x` becomes the integer 0, so `0 * x * y` passes the non-linearity check and is accepted. The model keeps `0 * x` a linear expression and rejects `0 * x * y` as non-linear.
- `ast.parse` is the parameter `parse`. The model starts from the expression tree. Python syntax errors are `parse` returning None.
- Python integers in the evaluator are unbounded. CP-SAT's 64-bit coefficient limits and overflow checks are not modelled.
- Linear expressions are lists of `(name, coefficient)` terms plus a constant. Like the library's own expressions they are not normalised. A map from names to coefficients would need map sums for the same statements.
- A comparison whose operand is itself a comparison (`(x < 3) == 1`) is an error in the model. What OR-Tools does with it is not modelled.
- Pydantic's error text is not modelled. A validation error is the first failing field in field order, and only its kind and bounds are kept. Malformed JSON shapes (missing fields, wrong types) are not modelled: payloads arrive as typed records.
- `json.loads` is a parameter. `json.dumps` is not modelled: the agent's replies are JSON values before serialisation. JSON numbers are integers.
- Context.SanitizeCategoryName, PyStr.Lower and PyStr.IsIdentifier: `lower()` and `isidentifier()` are modelled on ASCII letters only. Unicode case mapping and Unicode identifier classes are not.
- Context.BuildConstraintsFromDashboard: the suggested limit `int(amount * 1.2)` is the parameter `suggest`, because it is floating-point arithmetic. The description's `int(amount)` is modelled as truncation toward zero on a real.
- Nessie.TransformNessieToConstraints: balances and payment amounts are integers. `int()` of float fields is not modelled.
- `_compute_recommendations` in `backend/app/agent.py` is not modelled. Its rules are floating-point percentage thresholds and currency formatting.
- Not modelled in `BudgetAgent.run`: the LLM runner call, the response dictionary, `_sanitize_conversation` and the fallback paths. The system prompt is a parameter.
- Not modelled in `ExplainerAgent.run`: the LLM call and the prompt text.
- `create_constraint_problem` (the tool wrapper around `solve_constraint_problem`) is not modelled, nor the recording of its result in `_ctx_last_solver_result`. The field `lastSolverResult` exists so that `AddUserConstraint` can be shown not to touch it.
- The two `ContextVar`s are the fields of one `RequestState` object. Per-request isolation between concurrent requests is not modelled.
- Agent.AddUserConstraintReply: the eight hexadecimal characters of `uuid.uuid4()` are the parameter `token`.
- `generate_constraint_id` in `backend/app/context.py` is not modelled, because it is only a fresh UUID.
- Logging is not modelled.
- Network and environment code is not modelled:
  - the `NessieClient` HTTP methods, `close` and `get_nessie_client` (only the URLs they request are modelled);
  - `get_supabase_client`;
  - `require_auth_user_id`'s remote call.
- `backend/app/main.py` and `backend/app/database.py` (web endpoints and persistence) are not part of this model.
- `backend/app/models.py` does not define the records `context.py` imports. They are small datatypes here, holding the fields `context.py` reads.

## Behaviour worth knowing

The model states these facts about the code as it is written:

- **Undeclared names.** A constraint that mentions a name that is not a declared variable fails with "Unknown variable" (`UnknownVariable` in the model, `backend/app/solver.py:92-95`). No variable is declared for it.
- **Duplicate names.** Declaring the same variable name twice fails the build with "Duplicate variable name" (`DuplicateName`, `backend/app/solver.py:155-156`). The bounds are not merged.
- **Non-solved statuses.** Every CP-SAT status other than OPTIMAL and FEASIBLE (INFEASIBLE, MODEL_INVALID, UNKNOWN) drops the last active soft constraint and solves again (`backend/app/solver.py:197-204`).
- **Errors during solving.** Any exception raised while building or solving the model gives the "ERROR" response with wall time 0 (`backend/app/solver.py:229-231`).
