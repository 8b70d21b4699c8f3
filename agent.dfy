/** The deterministic parts of backend/app/agent.py: the per-request tool
    state (`add_user_constraint`'s accumulator), the message list the runner
    is given, and the three scans that pull the solver result, the solver
    input and the added constraints out of a finished conversation.
    `json.loads` is a parameter; a Python exception that escapes a function
    is an `Err` carrying its class. */
module Agent {
  import opened Wrappers
  import opened PyStr

  /** A decoded JSON value; numbers are integers. */
  datatype Json =
    | JNull
    | JBool(b: bool)
    | JNum(n: int)
    | JStr(s: string)
    | JArr(items: seq<Json>)
    | JObj(fields: map<string, Json>)

  /** `json.loads`: the decoded value, or the decoder's error message. */
  type Loads = string -> Result<Json, string>

  /** The exceptions that the scans let escape. */
  datatype PyError = TypeError | AttributeError

  /** `d.get(key)`. */
  function Field(d: map<string, Json>, key: string): Json {
    if key in d then d[key] else JNull
  }

  /** `d.get(key, default)`. */
  function FieldOr(d: map<string, Json>, key: string, default: Json): Json {
    if key in d then d[key] else default
  }

  /** Python truthiness. */
  predicate Truthy(j: Json) {
    match j
    case JNull => false
    case JBool(b) => b
    case JNum(n) => n != 0
    case JStr(s) => s != ""
    case JArr(items) => items != []
    case JObj(fields) => fields != map[]
  }

  predicate IsSubstring(k: string, s: string) {
    StartsWith(s, k) || (s != [] && IsSubstring(k, s[1..]))
  }

  /** `k` occurs in `s` starting at offset `i`. */
  predicate OccursAt(k: string, s: string, i: int) {
    0 <= i <= |s| - |k| && s[i..i + |k|] == k
  }

  /** The recursive substring test finds `k` exactly when it occurs in `s`
      at some offset. */
  lemma {:induction false} IsSubstringIff(k: string, s: string)
    ensures IsSubstring(k, s) <==> exists i :: OccursAt(k, s, i)
    decreases |s|
  {
    if StartsWith(s, k) {
      assert OccursAt(k, s, 0);
    }
    if s == [] {
      if exists i :: OccursAt(k, s, i) {
        assert StartsWith(s, k);
      }
    } else {
      IsSubstringIff(k, s[1..]);
      if IsSubstring(k, s[1..]) {
        var i :| OccursAt(k, s[1..], i);
        assert s[i + 1..i + 1 + |k|] == s[1..][i..i + |k|];
        assert OccursAt(k, s, i + 1);
      }
      if exists i :: OccursAt(k, s, i) {
        var i :| OccursAt(k, s, i);
        if i > 0 {
          assert s[1..][i - 1..i - 1 + |k|] == s[i..i + |k|];
          assert OccursAt(k, s[1..], i - 1);
        } else {
          assert StartsWith(s, k);
        }
      }
    }
  }

  /** `key in data`: a dict tests its keys, a list its elements, a string its
      substrings; anything else raises `TypeError`. */
  function In(key: string, data: Json): (r: Result<bool, PyError>)
    ensures r.Err? <==> data.JNull? || data.JBool? || data.JNum?
    ensures data.JObj? ==> r == Ok(key in data.fields)
    ensures data.JArr? ==> r == Ok(JStr(key) in data.items)
    ensures data.JStr? ==>
      (r == Ok(true) <==> exists i :: OccursAt(key, data.s, i))
  {
    match data
    case JObj(fields) => Ok(key in fields)
    case JArr(items) => Ok(JStr(key) in items)
    case JStr(s) => IsSubstringIff(key, s); Ok(IsSubstring(key, s))
    case _ => Err(TypeError)
  }

  /** A conversation message with the given role and content. */
  function Message(role: string, content: Json): Json {
    JObj(map["role" := JStr(role), "content" := content])
  }

  predicate IsTool(msg: Json) {
    msg.JObj? && Field(msg.fields, "role") == JStr("tool")
  }

  // ---------------------------------------------------------------------------
  // Scanning newest to oldest

  /** The first non-`None` answer of `f`, asking the newest message first. */
  function LatestOf(conv: seq<Json>, f: Json -> Result<Option<Json>, PyError>): (r: Result<Option<Json>, PyError>)
    ensures r != Ok(None) ==> exists i :: 0 <= i < |conv| && f(conv[i]) == r
  {
    if conv == [] then Ok(None)
    else
      var last := f(conv[|conv| - 1]);
      var init := conv[..|conv| - 1];
      assert forall i :: 0 <= i < |init| ==> init[i] == conv[i];
      if last != Ok(None) then last else LatestOf(init, f)
  }

  lemma LatestOfStep(conv: seq<Json>, i: nat, f: Json -> Result<Option<Json>, PyError>)
    requires 0 < i <= |conv|
    ensures LatestOf(conv[..i], f) ==
      if f(conv[i - 1]) != Ok(None) then f(conv[i - 1]) else LatestOf(conv[..i - 1], f)
  {
    assert conv[..i][..i - 1] == conv[..i - 1];
  }

  /** The scan finds nothing exactly when every message yields nothing. */
  lemma {:induction false} LatestOfNone(conv: seq<Json>, f: Json -> Result<Option<Json>, PyError>)
    ensures LatestOf(conv, f) == Ok(None) <==> forall i :: 0 <= i < |conv| ==> f(conv[i]) == Ok(None)
  {
    if conv != [] {
      var init := conv[..|conv| - 1];
      LatestOfNone(init, f);
      assert forall i :: 0 <= i < |init| ==> init[i] == conv[i];
    }
  }

  /** The scan answers with the newest message that yields something. */
  lemma {:induction false} LatestOfIsLatest(conv: seq<Json>, f: Json -> Result<Option<Json>, PyError>, i: nat)
    requires i < |conv| && f(conv[i]) != Ok(None)
    requires forall j :: i < j < |conv| ==> f(conv[j]) == Ok(None)
    ensures LatestOf(conv, f) == f(conv[i])
  {
    if i < |conv| - 1 {
      var init := conv[..|conv| - 1];
      assert forall j :: i < j < |init| ==> init[j] == conv[j];
      LatestOfIsLatest(init, f, i);
    }
  }

  // ---------------------------------------------------------------------------
  // `_extract_solver_result`

  /** What a tool message's content decodes to: a dict is taken as it is, a
      string goes through `json.loads`, anything else raises `TypeError`. */
  datatype Decoded = Data(value: Json) | Undecodable | Raises(error: PyError)

  function DecodeContent(content: Json, loads: Loads): (r: Decoded)
    ensures r.Raises? <==> !content.JObj? && !content.JStr?
  {
    match content
    case JObj(_) => Data(content)
    case JStr(s) => (match loads(s) case Ok(d) => Data(d) case Err(_) => Undecodable)
    case _ => Raises(TypeError)
  }

  /** One iteration of `_extract_solver_result`'s loop. */
  function ResultFromMessage(msg: Json, loads: Loads): (r: Result<Option<Json>, PyError>)
    ensures r.Ok? && r.value.Some? ==>
      IsTool(msg) && DecodeContent(Field(msg.fields, "content"), loads) == Data(r.value.value)
      && In("solution", r.value.value) == Ok(true) && In("status", r.value.value) == Ok(true)
    ensures msg.JObj? && !IsTool(msg) ==> r == Ok(None)
    ensures !msg.JObj? ==> r == Err(AttributeError)
    ensures IsTool(msg) ==>
      match DecodeContent(Field(msg.fields, "content"), loads)
      case Undecodable => r == Ok(None)
      case Raises(e) => r == Err(e)
      case Data(d) =>
        (In("solution", d).Err? ==> r == Err(TypeError))
        && (In("solution", d) == Ok(true) && In("status", d) == Ok(true) ==> r == Ok(Some(d)))
        && (In("solution", d) == Ok(false) || In("status", d) == Ok(false) ==> r == Ok(None))
  {
    if !msg.JObj? then Err(AttributeError)
    else if Field(msg.fields, "role") != JStr("tool") then Ok(None)
    else
      match DecodeContent(Field(msg.fields, "content"), loads)
      case Undecodable => Ok(None)
      case Raises(e) => Err(e)
      case Data(data) =>
        match In("solution", data)
        case Err(e) => Err(e)
        case Ok(hasSolution) =>
          if !hasSolution then Ok(None)
          else
            match In("status", data)
            case Err(e) => Err(e)
            case Ok(hasStatus) => if hasStatus then Ok(Some(data)) else Ok(None)
  }

  function SolverResultSpec(conv: seq<Json>, loads: Loads): Result<Option<Json>, PyError> {
    LatestOf(conv, msg => ResultFromMessage(msg, loads))
  }

  /** `_extract_solver_result`. */
  method ExtractSolverResult(conversation: seq<Json>, loads: Loads) returns (r: Result<Option<Json>, PyError>)
    ensures r == SolverResultSpec(conversation, loads)
  {
    var i := |conversation|;
    assert conversation[..i] == conversation;
    while i > 0
      invariant 0 <= i <= |conversation|
      invariant SolverResultSpec(conversation, loads) == SolverResultSpec(conversation[..i], loads)
      decreases i
    {
      LatestOfStep(conversation, i, msg => ResultFromMessage(msg, loads));
      var msg := conversation[i - 1];
      if !msg.JObj? {
        return Err(AttributeError);
      }
      if Field(msg.fields, "role") == JStr("tool") {
        var content := Field(msg.fields, "content");
        var data: Json;
        if content.JObj? {
          data := content;
        } else if content.JStr? {
          var parsed := loads(content.s);
          if parsed.Err? {
            i := i - 1;
            continue;
          }
          data := parsed.value;
        } else {
          return Err(TypeError);
        }
        var hasSolution := In("solution", data);
        if hasSolution.Err? {
          return Err(hasSolution.error);
        }
        if hasSolution.value {
          var hasStatus := In("status", data);
          if hasStatus == Ok(true) {
            return Ok(Some(data));
          }
        }
      }
      i := i - 1;
    }
    assert conversation[..0] == [];
    r := Ok(None);
  }

  /** The result found is the newest tool message whose content holds both
      "solution" and "status"; when every message is a dict and none is a
      tool message, nothing is found. */
  lemma SolverResultIsNewest(conv: seq<Json>, loads: Loads, i: nat)
    requires i < |conv| && ResultFromMessage(conv[i], loads) != Ok(None)
    requires forall j :: i < j < |conv| ==> ResultFromMessage(conv[j], loads) == Ok(None)
    ensures SolverResultSpec(conv, loads) == ResultFromMessage(conv[i], loads)
  {
    LatestOfIsLatest(conv, msg => ResultFromMessage(msg, loads), i);
  }

  lemma SolverResultNone(conv: seq<Json>, loads: Loads)
    ensures SolverResultSpec(conv, loads) == Ok(None) <==>
      forall i :: 0 <= i < |conv| ==> ResultFromMessage(conv[i], loads) == Ok(None)
  {
    LatestOfNone(conv, msg => ResultFromMessage(msg, loads));
  }

  // ---------------------------------------------------------------------------
  // `_extract_solver_input`

  /** One tool call: the doubly decoded `problem_json` of a
      `create_constraint_problem` call; a decoding error or a non-string
      argument (`TypeError`) skips the call. */
  function InputFromCall(tc: Json, loads: Loads): (r: Result<Option<Json>, PyError>)
    ensures r.Ok? && r.value.Some? ==>
      tc.JObj? && FieldOr(tc.fields, "function", JObj(map[])).JObj?
      && Field(FieldOr(tc.fields, "function", JObj(map[])).fields, "name") == JStr("create_constraint_problem")
    ensures !tc.JObj? ==> r == Err(AttributeError)
    ensures tc.JObj? && !FieldOr(tc.fields, "function", JObj(map[])).JObj? ==> r == Err(AttributeError)
    ensures tc.JObj? && FieldOr(tc.fields, "function", JObj(map[])).JObj? ==>
      var fn := FieldOr(tc.fields, "function", JObj(map[])).fields;
      var arguments := FieldOr(fn, "arguments", JStr("{}"));
      (Field(fn, "name") != JStr("create_constraint_problem") ==> r == Ok(None))
      && (Field(fn, "name") == JStr("create_constraint_problem") ==>
        (!arguments.JStr? ==> r == Ok(None))
        && (arguments.JStr? && loads(arguments.s).Err? ==> r == Ok(None))
        && (arguments.JStr? && loads(arguments.s).Ok? && !loads(arguments.s).value.JObj? ==> r == Err(AttributeError))
        && (arguments.JStr? && loads(arguments.s).Ok? && loads(arguments.s).value.JObj? ==>
          var problem := FieldOr(loads(arguments.s).value.fields, "problem_json", JStr(""));
          (problem.JStr? && loads(problem.s).Ok? ==> r == Ok(Some(loads(problem.s).value)))
          && (!problem.JStr? || loads(problem.s).Err? ==> r == Ok(None))))
  {
    if !tc.JObj? then Err(AttributeError)
    else
      var fn := FieldOr(tc.fields, "function", JObj(map[]));
      if !fn.JObj? then Err(AttributeError)
      else if Field(fn.fields, "name") != JStr("create_constraint_problem") then Ok(None)
      else
        match FieldOr(fn.fields, "arguments", JStr("{}"))
        case JStr(arguments) =>
          (match loads(arguments)
           case Err(_) => Ok(None)
           case Ok(args) =>
             if !args.JObj? then Err(AttributeError)
             else
               match FieldOr(args.fields, "problem_json", JStr(""))
               case JStr(problem) => (match loads(problem) case Err(_) => Ok(None) case Ok(d) => Ok(Some(d)))
               case _ => Ok(None))
        case _ => Ok(None)
  }

  /** The tool calls of one message, in order. */
  function InputFromCalls(calls: seq<Json>, loads: Loads): (r: Result<Option<Json>, PyError>)
    ensures r != Ok(None) ==> exists i :: 0 <= i < |calls| && InputFromCall(calls[i], loads) == r
    ensures r == Ok(None) <==> forall i :: 0 <= i < |calls| ==> InputFromCall(calls[i], loads) == Ok(None)
  {
    if calls == [] then Ok(None)
    else
      var first := InputFromCall(calls[0], loads);
      assert forall i :: 0 <= i < |calls| - 1 ==> calls[1..][i] == calls[i + 1];
      if first != Ok(None) then first else InputFromCalls(calls[1..], loads)
  }

  /** One iteration of the outer loop: iterating a dict or a string yields
      strings, whose missing `.get` raises `AttributeError`; iterating a
      number or a boolean raises `TypeError`. */
  function InputFromMessage(msg: Json, loads: Loads): (r: Result<Option<Json>, PyError>)
    ensures !msg.JObj? ==> r == Err(AttributeError)
    ensures msg.JObj? && !Truthy(Field(msg.fields, "tool_calls")) ==> r == Ok(None)
    ensures msg.JObj? && Truthy(Field(msg.fields, "tool_calls")) && !Field(msg.fields, "tool_calls").JArr? ==>
      r == Err(if Field(msg.fields, "tool_calls").JObj? || Field(msg.fields, "tool_calls").JStr? then AttributeError else TypeError)
    ensures r.Ok? && r.value.Some? ==>
      msg.JObj? && Field(msg.fields, "tool_calls").JArr?
      && exists i :: 0 <= i < |Field(msg.fields, "tool_calls").items| && InputFromCall(Field(msg.fields, "tool_calls").items[i], loads) == r
  {
    if !msg.JObj? then Err(AttributeError)
    else
      var toolCalls := Field(msg.fields, "tool_calls");
      if !Truthy(toolCalls) then Ok(None)
      else
        match toolCalls
        case JArr(calls) => InputFromCalls(calls, loads)
        case JObj(_) => Err(AttributeError)
        case JStr(_) => Err(AttributeError)
        case _ => Err(TypeError)
  }

  function SolverInputSpec(conv: seq<Json>, loads: Loads): Result<Option<Json>, PyError> {
    LatestOf(conv, msg => InputFromMessage(msg, loads))
  }

  /** The inner loop over one message's tool calls. */
  method ScanToolCalls(calls: seq<Json>, loads: Loads) returns (r: Result<Option<Json>, PyError>)
    ensures r == InputFromCalls(calls, loads)
  {
    for j := 0 to |calls|
      invariant InputFromCalls(calls, loads) == InputFromCalls(calls[j..], loads)
    {
      assert calls[j..][1..] == calls[j + 1..];
      var tc := calls[j];
      if !tc.JObj? {
        return Err(AttributeError);
      }
      var fn := FieldOr(tc.fields, "function", JObj(map[]));
      if !fn.JObj? {
        return Err(AttributeError);
      }
      if Field(fn.fields, "name") == JStr("create_constraint_problem") {
        var arguments := FieldOr(fn.fields, "arguments", JStr("{}"));
        if arguments.JStr? {
          var args := loads(arguments.s);
          if args.Ok? {
            if !args.value.JObj? {
              return Err(AttributeError);
            }
            var problem := FieldOr(args.value.fields, "problem_json", JStr(""));
            if problem.JStr? {
              var decoded := loads(problem.s);
              if decoded.Ok? {
                return Ok(Some(decoded.value));
              }
            }
          }
        }
      }
    }
    r := Ok(None);
  }

  /** `_extract_solver_input`. */
  method ExtractSolverInput(conversation: seq<Json>, loads: Loads) returns (r: Result<Option<Json>, PyError>)
    ensures r == SolverInputSpec(conversation, loads)
  {
    var i := |conversation|;
    assert conversation[..i] == conversation;
    while i > 0
      invariant 0 <= i <= |conversation|
      invariant SolverInputSpec(conversation, loads) == SolverInputSpec(conversation[..i], loads)
      decreases i
    {
      LatestOfStep(conversation, i, msg => InputFromMessage(msg, loads));
      var msg := conversation[i - 1];
      if !msg.JObj? {
        return Err(AttributeError);
      }
      var toolCalls := Field(msg.fields, "tool_calls");
      if Truthy(toolCalls) {
        if toolCalls.JArr? {
          var found := ScanToolCalls(toolCalls.items, loads);
          if found != Ok(None) {
            return found;
          }
        } else if toolCalls.JObj? || toolCalls.JStr? {
          return Err(AttributeError);
        } else {
          return Err(TypeError);
        }
      }
      i := i - 1;
    }
    assert conversation[..0] == [];
    r := Ok(None);
  }

  /** Within a message the calls are tried in order: the first call that
      yields something decides, and calls that yield nothing are passed over. */
  lemma {:induction false} InputFromCallsFirst(calls: seq<Json>, loads: Loads, k: nat)
    requires k < |calls| && InputFromCall(calls[k], loads) != Ok(None)
    requires forall j :: 0 <= j < k ==> InputFromCall(calls[j], loads) == Ok(None)
    ensures InputFromCalls(calls, loads) == InputFromCall(calls[k], loads)
  {
    if k > 0 {
      assert forall j :: 0 <= j < k - 1 ==> calls[1..][j] == calls[j + 1];
      InputFromCallsFirst(calls[1..], loads, k - 1);
    }
  }

  /** Across messages the newest message that yields something decides. */
  lemma SolverInputIsNewest(conv: seq<Json>, loads: Loads, i: nat)
    requires i < |conv| && InputFromMessage(conv[i], loads) != Ok(None)
    requires forall j :: i < j < |conv| ==> InputFromMessage(conv[j], loads) == Ok(None)
    ensures SolverInputSpec(conv, loads) == InputFromMessage(conv[i], loads)
  {
    LatestOfIsLatest(conv, msg => InputFromMessage(msg, loads), i);
  }

  // ---------------------------------------------------------------------------
  // `_extract_new_constraints`

  /** One iteration of `_extract_new_constraints`'s loop. Here a content
      that is neither a dict nor a string is skipped (its `TypeError` is
      caught), but decoded data that is not a dict has no `.get`. */
  function ConstraintFromMessage(msg: Json, loads: Loads): (r: Result<Option<Json>, PyError>)
    ensures r.Ok? && r.value.Some? ==> IsTool(msg)
    ensures msg.JObj? && !IsTool(msg) ==> r == Ok(None)
    ensures !msg.JObj? ==> r == Err(AttributeError)
    ensures IsTool(msg) ==>
      match DecodeContent(Field(msg.fields, "content"), loads)
      case Data(d) =>
        (!d.JObj? ==> r == Err(AttributeError))
        && (d.JObj? && Field(d.fields, "status") == JStr("added") && "constraint" in d.fields ==>
          r == Ok(Some(d.fields["constraint"])))
        && (d.JObj? && !(Field(d.fields, "status") == JStr("added") && "constraint" in d.fields) ==> r == Ok(None))
      case _ => r == Ok(None)
  {
    if !msg.JObj? then Err(AttributeError)
    else if Field(msg.fields, "role") != JStr("tool") then Ok(None)
    else
      match DecodeContent(Field(msg.fields, "content"), loads)
      case Undecodable => Ok(None)
      case Raises(_) => Ok(None)
      case Data(data) =>
        if !data.JObj? then Err(AttributeError)
        else if Field(data.fields, "status") == JStr("added") && "constraint" in data.fields then
          Ok(Some(data.fields["constraint"]))
        else Ok(None)
  }

  function ToolCount(conv: seq<Json>): nat {
    if conv == [] then 0
    else ToolCount(conv[..|conv| - 1]) + (if IsTool(conv[|conv| - 1]) then 1 else 0)
  }

  /** The constraints found, oldest first; the first message that raises
      decides the error. */
  function NewConstraintsSpec(conv: seq<Json>, loads: Loads): (r: Result<seq<Json>, PyError>)
    ensures r.Ok? ==> |r.value| <= ToolCount(conv)
  {
    if conv == [] then Ok([])
    else
      var earlier := NewConstraintsSpec(conv[..|conv| - 1], loads);
      if earlier.Err? then earlier
      else
        match ConstraintFromMessage(conv[|conv| - 1], loads)
        case Err(e) => Err(e)
        case Ok(None) => earlier
        case Ok(Some(c)) => Ok(earlier.value + [c])
  }

  /** `_extract_new_constraints`. */
  method ExtractNewConstraints(conversation: seq<Json>, loads: Loads) returns (r: Result<seq<Json>, PyError>)
    ensures r == NewConstraintsSpec(conversation, loads)
  {
    var constraints: seq<Json> := [];
    for i := 0 to |conversation|
      invariant NewConstraintsSpec(conversation[..i], loads) == Ok(constraints)
    {
      var msg := conversation[i];
      assert conversation[..i + 1][..i] == conversation[..i];
      if !msg.JObj? {
        NewConstraintsErrorStays(conversation[..i + 1], conversation[i + 1..], loads);
        assert conversation[..i + 1] + conversation[i + 1..] == conversation;
        return Err(AttributeError);
      }
      if Field(msg.fields, "role") == JStr("tool") {
        var content := Field(msg.fields, "content");
        var data: Json := JNull;
        var decoded := false;
        if content.JObj? {
          data, decoded := content, true;
        } else if content.JStr? {
          var parsed := loads(content.s);
          if parsed.Ok? {
            data, decoded := parsed.value, true;
          }
        }
        if decoded {
          if !data.JObj? {
            NewConstraintsErrorStays(conversation[..i + 1], conversation[i + 1..], loads);
            assert conversation[..i + 1] + conversation[i + 1..] == conversation;
            return Err(AttributeError);
          }
          if Field(data.fields, "status") == JStr("added") && "constraint" in data.fields {
            constraints := constraints + [data.fields["constraint"]];
          }
        }
      }
    }
    assert conversation[..|conversation|] == conversation;
    r := Ok(constraints);
  }

  /** Once a prefix raises, the whole scan raises the same error. */
  lemma {:induction false} NewConstraintsErrorStays(a: seq<Json>, b: seq<Json>, loads: Loads)
    requires NewConstraintsSpec(a, loads).Err?
    ensures NewConstraintsSpec(a + b, loads) == NewConstraintsSpec(a, loads)
  {
    if b == [] {
      assert a + b == a;
    } else {
      var init := b[..|b| - 1];
      assert (a + b)[..|a + b| - 1] == a + init;
      NewConstraintsErrorStays(a, init, loads);
    }
  }

  /** The scan of a conversation is the scan of its parts, one after the
      other. */
  lemma {:induction false} NewConstraintsConcat(a: seq<Json>, b: seq<Json>, loads: Loads)
    ensures NewConstraintsSpec(a + b, loads) ==
      if NewConstraintsSpec(a, loads).Err? then NewConstraintsSpec(a, loads)
      else if NewConstraintsSpec(b, loads).Err? then NewConstraintsSpec(b, loads)
      else Ok(NewConstraintsSpec(a, loads).value + NewConstraintsSpec(b, loads).value)
  {
    if b == [] {
      assert a + b == a;
      assert NewConstraintsSpec(a, loads).Ok? ==> NewConstraintsSpec(a, loads).value + [] == NewConstraintsSpec(a, loads).value;
    } else {
      var init := b[..|b| - 1];
      assert (a + b)[..|a + b| - 1] == a + init;
      NewConstraintsConcat(a, init, loads);
      if NewConstraintsSpec(a, loads).Ok? && NewConstraintsSpec(init, loads).Ok? {
        var x, y := NewConstraintsSpec(a, loads).value, NewConstraintsSpec(init, loads).value;
        match ConstraintFromMessage(b[|b| - 1], loads)
        case Err(_) =>
        case Ok(None) =>
        case Ok(Some(c)) => assert x + y + [c] == x + (y + [c]);
      }
    }
  }

  /** The scan succeeds exactly when no message raises; when one does, the
      error is that of the oldest message that raises. */
  lemma {:induction false} NewConstraintsOkIff(conv: seq<Json>, loads: Loads)
    ensures NewConstraintsSpec(conv, loads).Ok? <==>
      forall i :: 0 <= i < |conv| ==> ConstraintFromMessage(conv[i], loads).Ok?
    ensures NewConstraintsSpec(conv, loads).Err? ==>
      exists i :: 0 <= i < |conv| && ConstraintFromMessage(conv[i], loads) == Err(NewConstraintsSpec(conv, loads).error)
        && forall j :: 0 <= j < i ==> ConstraintFromMessage(conv[j], loads).Ok?
  {
    if conv != [] {
      var init := conv[..|conv| - 1];
      NewConstraintsOkIff(init, loads);
      assert forall i :: 0 <= i < |init| ==> init[i] == conv[i];
      if NewConstraintsSpec(init, loads).Err? {
        var i :| 0 <= i < |init| && ConstraintFromMessage(init[i], loads) == Err(NewConstraintsSpec(init, loads).error)
          && forall j :: 0 <= j < i ==> ConstraintFromMessage(init[j], loads).Ok?;
        assert ConstraintFromMessage(conv[i], loads) == Err(NewConstraintsSpec(conv, loads).error);
      } else if ConstraintFromMessage(conv[|conv| - 1], loads).Err? {
        assert ConstraintFromMessage(conv[|init|], loads) == Err(NewConstraintsSpec(conv, loads).error);
      }
    }
  }

  /** Every message that yields a constraint contributes it, oldest first:
      a message's constraint sits in the result right after the constraints
      of the messages before it. */
  lemma {:induction false} NewConstraintsPositions(conv: seq<Json>, loads: Loads, i: nat)
    requires NewConstraintsSpec(conv, loads).Ok? && i < |conv|
    ensures NewConstraintsSpec(conv[..i], loads).Ok? && ConstraintFromMessage(conv[i], loads).Ok?
    ensures var r := NewConstraintsSpec(conv, loads).value;
      var before := NewConstraintsSpec(conv[..i], loads).value;
      |before| <= |r| && r[..|before|] == before
      && (ConstraintFromMessage(conv[i], loads).value.Some? ==>
        |before| < |r| && r[|before|] == ConstraintFromMessage(conv[i], loads).value.value)
  {
    var n := |conv| - 1;
    var init := conv[..n];
    var r0 := NewConstraintsSpec(init, loads).value;
    var r := NewConstraintsSpec(conv, loads).value;
    assert |r0| <= |r| && r[..|r0|] == r0;
    if i < n {
      NewConstraintsPositions(init, loads, i);
      assert conv[..i] == init[..i] && conv[i] == init[i];
      var before := NewConstraintsSpec(init[..i], loads).value;
      assert r[..|before|] == r[..|r0|][..|before|];
    }
  }

  /** Conversely, every entry of the result comes from the message at its
      position: the one whose predecessors contributed exactly the entries
      before it. */
  lemma {:induction false} NewConstraintsSources(conv: seq<Json>, loads: Loads, k: nat)
    requires NewConstraintsSpec(conv, loads).Ok? && k < |NewConstraintsSpec(conv, loads).value|
    ensures exists i ::
      0 <= i < |conv| && NewConstraintsSpec(conv[..i], loads).Ok?
      && |NewConstraintsSpec(conv[..i], loads).value| == k
      && ConstraintFromMessage(conv[i], loads) == Ok(Some(NewConstraintsSpec(conv, loads).value[k]))
  {
    var n := |conv| - 1;
    var init := conv[..n];
    var r0 := NewConstraintsSpec(init, loads).value;
    var r := NewConstraintsSpec(conv, loads).value;
    if k < |r0| {
      NewConstraintsSources(init, loads, k);
      var i :| 0 <= i < |init| && NewConstraintsSpec(init[..i], loads).Ok?
        && |NewConstraintsSpec(init[..i], loads).value| == k
        && ConstraintFromMessage(init[i], loads) == Ok(Some(r0[k]));
      assert r[k] == r0[k];
      assert conv[..i] == init[..i] && conv[i] == init[i];
    } else {
      assert ConstraintFromMessage(conv[n], loads) == Ok(Some(r[k]));
      assert conv[..n] == init;
    }
  }

  // ---------------------------------------------------------------------------
  // `add_user_constraint` and the per-request state

  /** The constraint tagged with its `ai-` id and source "ai"; every other
      field is kept. */
  function Tagged(constraint: map<string, Json>, token: string): (r: map<string, Json>)
    ensures r.Keys == constraint.Keys + {"id", "source"}
    ensures r["id"] == JStr("ai-" + token) && r["source"] == JStr("ai")
    ensures forall k :: k in constraint && k != "id" && k != "source" ==> r[k] == constraint[k]
  {
    constraint["id" := JStr("ai-" + token)]["source" := JStr("ai")]
  }

  /** The reply of `add_user_constraint`, before `json.dumps`; `token` stands
      for the eight hexadecimal digits of a fresh UUID. A decoded value that
      is not a dict cannot take the `id` item and raises `TypeError`. */
  function AddUserConstraintReply(constraintJson: string, loads: Loads, token: string): (r: Result<Json, PyError>)
    ensures r.Err? <==> loads(constraintJson).Ok? && !loads(constraintJson).value.JObj?
    ensures loads(constraintJson).Err? ==>
      r == Ok(JObj(map["status" := JStr("error"), "message" := JStr("malformed constraint JSON"),
                       "details" := JStr(loads(constraintJson).error)]))
    ensures loads(constraintJson).Ok? && loads(constraintJson).value.JObj? ==>
      r == Ok(JObj(map["status" := JStr("added"),
                       "constraint" := JObj(Tagged(loads(constraintJson).value.fields, token))]))
  {
    match loads(constraintJson)
    case Err(message) =>
      Ok(JObj(map["status" := JStr("error"), "message" := JStr("malformed constraint JSON"), "details" := JStr(message)]))
    case Ok(c) =>
      if !c.JObj? then Err(TypeError)
      else Ok(JObj(map["status" := JStr("added"), "constraint" := JObj(Tagged(c.fields, token))]))
  }

  /** A reply, put back into the conversation as a tool message, is picked
      up by the constraint scan exactly when the constraint was added, and
      what is picked up is the tagged constraint. */
  lemma AddedConstraintIsExtracted(constraintJson: string, loads: Loads, token: string)
    requires AddUserConstraintReply(constraintJson, loads, token).Ok?
    ensures var reply := AddUserConstraintReply(constraintJson, loads, token).value;
      NewConstraintsSpec([Message("tool", reply)], loads) ==
        if loads(constraintJson).Ok? then Ok([JObj(Tagged(loads(constraintJson).value.fields, token))]) else Ok([])
  {
    var reply := AddUserConstraintReply(constraintJson, loads, token).value;
    var conv := [Message("tool", reply)];
    assert conv[..0] == [];
    assert Field(conv[0].fields, "role") == JStr("tool");
    assert Field(conv[0].fields, "content") == reply;
    assert DecodeContent(reply, loads) == Data(reply);
    if loads(constraintJson).Ok? {
      var tagged := JObj(Tagged(loads(constraintJson).value.fields, token));
      assert reply == JObj(map["status" := JStr("added"), "constraint" := tagged]);
      assert Field(reply.fields, "status") == JStr("added") && "constraint" in reply.fields;
      assert NewConstraintsSpec(conv[..0], loads) == Ok([]);
      assert [] + [tagged] == [tagged];
      assert ConstraintFromMessage(conv[0], loads) == Ok(Some(JObj(Tagged(loads(constraintJson).value.fields, token))));
    } else {
      assert Field(reply.fields, "status") == JStr("error");
      assert ConstraintFromMessage(conv[0], loads) == Ok(None);
    }
  }

  function OrEmpty(xs: Option<seq<Json>>): seq<Json> {
    if xs.Some? then xs.value else []
  }

  /** The two per-request context variables. */
  class RequestState {
    var lastSolverResult: Option<Json>
    var newConstraints: Option<seq<Json>>

    constructor ()
      ensures lastSolverResult == None && newConstraints == None
    {
      lastSolverResult := None;
      newConstraints := None;
    }

    /** The reset at the start of `BudgetAgent.run`. */
    method Reset()
      modifies this
      ensures lastSolverResult == None && newConstraints == None
    {
      lastSolverResult := None;
      newConstraints := None;
    }

    /** `add_user_constraint`: a decoded dict is tagged and appended to the
        accumulated constraints; malformed JSON and a value that is not a
        dict leave the state as it was. */
    method AddUserConstraint(constraintJson: string, loads: Loads, token: string) returns (r: Result<Json, PyError>)
      modifies this
      ensures r == AddUserConstraintReply(constraintJson, loads, token)
      ensures lastSolverResult == old(lastSolverResult)
      ensures loads(constraintJson).Ok? && loads(constraintJson).value.JObj? ==>
        newConstraints == Some(OrEmpty(old(newConstraints)) + [JObj(Tagged(loads(constraintJson).value.fields, token))])
      ensures !(loads(constraintJson).Ok? && loads(constraintJson).value.JObj?) ==>
        newConstraints == old(newConstraints)
    {
      var parsed := loads(constraintJson);
      if parsed.Err? {
        return Ok(JObj(map["status" := JStr("error"), "message" := JStr("malformed constraint JSON"),
                           "details" := JStr(parsed.error)]));
      }
      var constraint := parsed.value;
      if !constraint.JObj? {
        return Err(TypeError);
      }
      var fields := constraint.fields["id" := JStr("ai-" + token)];
      fields := fields["source" := JStr("ai")];
      var current := newConstraints;
      if current == None {
        current := Some([]);
      }
      current := Some(current.value + [JObj(fields)]);
      newConstraints := current;
      r := Ok(JObj(map["status" := JStr("added"), "constraint" := JObj(fields)]));
    }
  }

  // ---------------------------------------------------------------------------
  // The message list of `BudgetAgent.run`

  function SystemMessage(prompt: string): Json {
    Message("system", JStr(prompt))
  }

  predicate IsSystem(msg: Json) {
    msg.JObj? && Field(msg.fields, "role") == JStr("system")
  }

  /** The messages handed to the runner: the history, with the system prompt
      put in front unless it already starts with a system message, then the
      new user message. A first message that is not a dict has no `.get`. */
  function PreparedMessages(history: Option<seq<Json>>, userMessage: string, prompt: string): (r: Result<seq<Json>, PyError>)
    ensures r.Err? <==> history.Some? && history.value != [] && !history.value[0].JObj?
    ensures r.Ok? ==> |r.value| >= 2 && IsSystem(r.value[0])
    ensures r.Ok? ==> r.value[|r.value| - 1] == Message("user", JStr(userMessage))
    ensures r.Ok? ==> |OrEmpty(history)| + 1 <= |r.value| <= |OrEmpty(history)| + 2
    ensures r.Ok? ==> r.value[|r.value| - 1 - |OrEmpty(history)|..|r.value| - 1] == OrEmpty(history)
    ensures r.Ok? && history.Some? && history.value != [] && IsSystem(history.value[0]) ==>
      r.value == history.value + [Message("user", JStr(userMessage))]
    ensures r.Ok? && !(history.Some? && history.value != [] && IsSystem(history.value[0])) ==>
      r.value == [SystemMessage(prompt)] + OrEmpty(history) + [Message("user", JStr(userMessage))]
  {
    var messages := OrEmpty(history);
    if messages != [] && !messages[0].JObj? then Err(AttributeError)
    else if messages == [] || Field(messages[0].fields, "role") != JStr("system") then
      Ok([SystemMessage(prompt)] + messages + [Message("user", JStr(userMessage))])
    else Ok(messages + [Message("user", JStr(userMessage))])
  }

  /** The message-list preparation of `BudgetAgent.run`. */
  method PrepareMessages(history: Option<seq<Json>>, userMessage: string, prompt: string) returns (r: Result<seq<Json>, PyError>)
    ensures r == PreparedMessages(history, userMessage, prompt)
  {
    var messages: seq<Json> := if history.Some? then history.value else [];
    if messages != [] && !messages[0].JObj? {
      return Err(AttributeError);
    }
    if messages == [] || Field(messages[0].fields, "role") != JStr("system") {
      messages := [SystemMessage(prompt)] + messages;
    }
    messages := messages + [Message("user", JStr(userMessage))];
    r := Ok(messages);
  }

  /** Feeding a prepared list back as the next turn's history adds only the
      new user message: the system prompt is put in at most once. */
  lemma PrepareAgain(history: Option<seq<Json>>, u1: string, u2: string, prompt: string)
    requires PreparedMessages(history, u1, prompt).Ok?
    ensures var first := PreparedMessages(history, u1, prompt).value;
      PreparedMessages(Some(first), u2, prompt) == Ok(first + [Message("user", JStr(u2))])
  {
  }
}
