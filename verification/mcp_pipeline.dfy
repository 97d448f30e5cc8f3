/** `executeMcpToolWithValidation` and `executeMcpTool` (tools-mcp.js): the
    staged gate every MCP tool call passes through, in code order
    lookup, argument parse, permission, validation, approval, dispatch.
    The first failing stage decides the outcome; later stages do not run. */
module McpPipeline {
  import opened Wrappers
  import opened Text
  import opened Json
  import opened Declarations
  import opened Validator
  import opened Approval
  import opened Permission
  import opened McpRegistry
  import opened Conversation

  /** What the pipeline consults: the registry it looks tools up in (the
      program's is `MCP_TOOLS`, `McpRegistry.McpTools`; `Standard` says so),
      and what it cannot compute itself: `JSON.parse`, the regular expression
      engine, and the mock handler bodies (`mcp`, `mcpListTools`, ...), keyed
      by tool name. Lemmas that do not depend on the registry's contents are
      stated for any registry. */
  datatype McpEnv = McpEnv(
    registry: seq<Tool>,
    parse: string -> Result<Json, string>,
    matches: Matcher,
    handler: (string, Json) -> Result<Json, string>)

  /** The object the pipeline resolves to; `Executed` carries the handler's
      own result. Timestamps are not modelled. */
  datatype Outcome =
    | NotFound(error: string)
    | InvalidJson(details: string)
    | NotPermitted(details: string)
    | ValidationFailed(errors: seq<string>, warnings: seq<string>)
    | PendingApproval(decision: Decision)
    | Executed(result: Json)

  /** `executeMcpTool`: re-parses the arguments and dispatches on the name. */
  function ExecuteMcpTool(call: ToolCall, env: McpEnv): (r: Result<Json, string>)
    ensures env.parse(call.arguments).Err? ==>
      r == Err("Invalid arguments for MCP tool " + call.name + ": " + env.parse(call.arguments).error)
    ensures env.parse(call.arguments).Ok? && call.name !in DispatchNames ==>
      r == Err("Unknown MCP tool: " + call.name)
    ensures env.parse(call.arguments).Ok? && call.name in DispatchNames ==>
      r == env.handler(call.name, env.parse(call.arguments).value)
  {
    match env.parse(call.arguments)
    case Err(m) => Err("Invalid arguments for MCP tool " + call.name + ": " + m)
    case Ok(args) =>
      if call.name == "mcp" || call.name == "mcp_list_tools" || call.name == "mcp_call"
         || call.name == "mcp_approval_request" || call.name == "mcp_approval_response"
         || call.name == "web_search" || call.name == "udf"
      then env.handler(call.name, args)
      else Err("Unknown MCP tool: " + call.name)
  }

  /** The registry is the program's own. */
  predicate Standard(env: McpEnv)
  {
    env.registry == McpTools
  }

  /** The permission stage: runs only when `requesting` is a non-empty name
      of a tool in `registry`; yields the denial reason, if any. */
  function PermissionDenial(registry: seq<Tool>, requesting: Option<string>, target: string): (r: Option<string>)
    ensures requesting.None? || requesting.value == "" || FindTool(registry, requesting.value).None? ==> r.None?
    ensures requesting.Some? && requesting.value != "" && FindTool(registry, requesting.value).Some? ==>
      var p := CheckToolCallPermission(FindTool(registry, requesting.value).value, target);
      && (r.Some? <==> !p.allowed)
      && (r.Some? ==> r.value == p.reason)
  {
    if requesting.None? || requesting.value == "" then None
    else match FindTool(registry, requesting.value)
      case None => None
      case Some(def) =>
        var p := CheckToolCallPermission(def, target);
        if p.allowed then None else Some(p.reason)
  }

  /** The stages after the permission check, for the declared `tool` and
      the parsed `args`: validation, approval, dispatch. None of them reports
      a missing tool, bad JSON or a refused permission. */
  function Gate(tool: Tool, call: ToolCall, args: Json, env: McpEnv): (r: Result<Outcome, string>)
    ensures r.Ok? ==> r.value.ValidationFailed? || r.value.PendingApproval? || r.value.Executed?
  {
    match Validate(tool, args, env.matches)
    case Err(e) => Err(e)
    case Ok(v) =>
      if !v.valid then Ok(ValidationFailed(v.errors, v.warnings))
      else
        var d := CheckApprovalRequirement(tool, args);
        if d.Required? then Ok(PendingApproval(d))
        else match ExecuteMcpTool(call, env)
          case Ok(x) => Ok(Executed(x))
          case Err(e) => Err(e)
  }

  /** `executeMcpToolWithValidation(toolCall, requestingTool)`; `Err` is an
      exception that escapes it (from validation or the handler). The first
      three stages each report exactly their own failure: an undeclared name,
      then arguments that do not parse, then a refused permission. */
  function ExecuteWithValidation(call: ToolCall, requesting: Option<string>, env: McpEnv): (r: Result<Outcome, string>)
    ensures (r.Ok? && r.value.NotFound?) <==> FindTool(env.registry, call.name).None?
    ensures (r.Ok? && r.value.InvalidJson?) <==>
      FindTool(env.registry, call.name).Some? && env.parse(call.arguments).Err?
    ensures r.Ok? && r.value.InvalidJson? ==> r.value.details == env.parse(call.arguments).error
    ensures (r.Ok? && r.value.NotPermitted?) <==>
      && FindTool(env.registry, call.name).Some? && env.parse(call.arguments).Ok?
      && PermissionDenial(env.registry, requesting, call.name).Some?
    ensures r.Ok? && r.value.NotPermitted? ==>
      r.value.details == PermissionDenial(env.registry, requesting, call.name).value
  {
    match FindTool(env.registry, call.name)
    case None => Ok(NotFound("Tool '" + call.name + "' not found in MCP_TOOLS"))
    case Some(tool) =>
      match env.parse(call.arguments)
      case Err(m) => Ok(InvalidJson(m))
      case Ok(args) =>
        match PermissionDenial(env.registry, requesting, call.name)
        case Some(reason) => Ok(NotPermitted(reason))
        case None => Gate(tool, call, args, env)
  }

  // ================================================================ lemmas

  /** Lookup, argument parse and permission pass for `call`. */
  predicate EarlyStagesPass(call: ToolCall, requesting: Option<string>, env: McpEnv)
  {
    && FindTool(env.registry, call.name).Some?
    && env.parse(call.arguments).Ok?
    && PermissionDenial(env.registry, requesting, call.name).None?
  }

  /** Every stage before dispatch passes for `call`. */
  predicate AllStagesPass(call: ToolCall, requesting: Option<string>, env: McpEnv)
  {
    && EarlyStagesPass(call, requesting, env)
    && var args := env.parse(call.arguments).value;
       var tool := FindTool(env.registry, call.name).value;
       && Validate(tool, args, env.matches).Ok?
       && Validate(tool, args, env.matches).value.valid
       && !CheckApprovalRequirement(tool, args).Required?
  }

  /** A call is dispatched, and the dispatch result comes back, exactly when
      every earlier stage passes: a call that fails validation or awaits
      approval is never dispatched. */
  lemma ExecutedIff(call: ToolCall, requesting: Option<string>, env: McpEnv, x: Json)
    ensures ExecuteWithValidation(call, requesting, env) == Ok(Executed(x)) <==>
      AllStagesPass(call, requesting, env) && ExecuteMcpTool(call, env) == Ok(x)
  {
    if FindTool(env.registry, call.name).Some? && env.parse(call.arguments).Ok?
       && PermissionDenial(env.registry, requesting, call.name).None? {
      var tool := FindTool(env.registry, call.name).value;
      assert ExecuteWithValidation(call, requesting, env) == Gate(tool, call, env.parse(call.arguments).value, env);
    }
  }

  /** A call is refused at the validation stage, with the validator's
      errors and warnings, exactly when lookup, parse and permission pass and
      validation returns an invalid result. */
  lemma ValidationFailedIff(call: ToolCall, requesting: Option<string>, env: McpEnv,
                            errors: seq<string>, warnings: seq<string>)
    ensures ExecuteWithValidation(call, requesting, env) == Ok(ValidationFailed(errors, warnings)) <==>
      && EarlyStagesPass(call, requesting, env)
      && var v := Validate(FindTool(env.registry, call.name).value, env.parse(call.arguments).value, env.matches);
         v.Ok? && !v.value.valid && v.value.errors == errors && v.value.warnings == warnings
  {
    if EarlyStagesPass(call, requesting, env) {
      var tool := FindTool(env.registry, call.name).value;
      assert ExecuteWithValidation(call, requesting, env) == Gate(tool, call, env.parse(call.arguments).value, env);
    }
  }

  /** A call waits for approval, with decision `d`, exactly when lookup,
      parse, permission and validation pass and `checkApprovalRequirement`
      returns a required decision `d`. */
  lemma PendingApprovalIff(call: ToolCall, requesting: Option<string>, env: McpEnv, d: Decision)
    ensures ExecuteWithValidation(call, requesting, env) == Ok(PendingApproval(d)) <==>
      && EarlyStagesPass(call, requesting, env)
      && var tool := FindTool(env.registry, call.name).value;
         var args := env.parse(call.arguments).value;
         && Validate(tool, args, env.matches).Ok? && Validate(tool, args, env.matches).value.valid
         && d == CheckApprovalRequirement(tool, args) && d.Required?
  {
    if EarlyStagesPass(call, requesting, env) {
      var tool := FindTool(env.registry, call.name).value;
      assert ExecuteWithValidation(call, requesting, env) == Gate(tool, call, env.parse(call.arguments).value, env);
    }
  }

  /** In the program's registry every declared tool has a handler: a
      declared call that gets through reaches its own handler. */
  lemma StandardDispatch(call: ToolCall, env: McpEnv)
    requires Standard(env) && FindTool(env.registry, call.name).Some? && env.parse(call.arguments).Ok?
    ensures ExecuteMcpTool(call, env) == env.handler(call.name, env.parse(call.arguments).value)
  {
    DeclaredIffDispatched(call.name);
  }

  /** An unknown name is reported before the arguments are even parsed. */
  lemma UnknownToolFirst(call: ToolCall, requesting: Option<string>, env: McpEnv)
    requires forall i :: 0 <= i < |env.registry| ==> env.registry[i].name != call.name
    ensures ExecuteWithValidation(call, requesting, env) == Ok(NotFound("Tool '" + call.name + "' not found in MCP_TOOLS"))
  {
  }

  /** With the program's registry, the unknown names are exactly those the
      dispatcher does not handle. */
  lemma StandardUnknown(call: ToolCall, requesting: Option<string>, env: McpEnv)
    requires Standard(env)
    ensures var r := ExecuteWithValidation(call, requesting, env);
      (r.Ok? && r.value.NotFound?) <==> call.name !in DispatchNames
  {
    DeclaredIffDispatched(call.name);
  }

  /** Permission is checked before validation: a call the requesting tool may
      not make is refused whatever its arguments, even arguments that would
      make validation throw. */
  lemma PermissionBeforeValidation(call: ToolCall, requesting: string, env: McpEnv)
    requires FindTool(env.registry, call.name).Some? && env.parse(call.arguments).Ok?
    requires requesting != "" && FindTool(env.registry, requesting).Some?
    requires !CheckToolCallPermission(FindTool(env.registry, requesting).value, call.name).allowed
    ensures ExecuteWithValidation(call, Some(requesting), env) ==
      Ok(NotPermitted(CheckToolCallPermission(FindTool(env.registry, requesting).value, call.name).reason))
  {
  }

  /** Validation comes before approval: invalid arguments are reported as
      such even for a tool whose policy always requires approval. */
  lemma ValidationBeforeApproval(call: ToolCall, requesting: Option<string>, env: McpEnv)
    requires FindTool(env.registry, call.name).Some? && env.parse(call.arguments).Ok?
    requires PermissionDenial(env.registry, requesting, call.name).None?
    requires var v := Validate(FindTool(env.registry, call.name).value, env.parse(call.arguments).value, env.matches);
      v.Ok? && !v.value.valid
    ensures var v := Validate(FindTool(env.registry, call.name).value, env.parse(call.arguments).value, env.matches);
      ExecuteWithValidation(call, requesting, env) == Ok(ValidationFailed(v.value.errors, []))
  {
  }

  /** A top-level call (no requesting tool) skips the permission stage. */
  lemma TopLevelSkipsPermission(call: ToolCall, env: McpEnv)
    ensures var r := ExecuteWithValidation(call, None, env);
      !(r.Ok? && r.value.NotPermitted?)
  {
  }

  /** A declared tool whose policy is the string `always` or `conditional`
      never reaches its handler through the pipeline: approval never passes,
      so nothing is dispatched, and an escaping exception is validation's. */
  lemma StringGatedNeverRuns(call: ToolCall, requesting: Option<string>, env: McpEnv, tool: Tool)
    requires FindTool(env.registry, call.name) == Some(tool)
    requires tool.requireApproval == Some(JStr("always")) || tool.requireApproval == Some(JStr("conditional"))
    ensures !AllStagesPass(call, requesting, env)
    ensures var r := ExecuteWithValidation(call, requesting, env);
      && !(r.Ok? && r.value.Executed?)
      && (r.Err? ==> Validate(tool, env.parse(call.arguments).value, env.matches) == Err(r.error))
  {
    if env.parse(call.arguments).Ok? {
      StringPolicy(tool, tool.requireApproval.value.s, env.parse(call.arguments).value, JNull);
    }
  }

  lemma McpCallFound(name: string)
    requires name == "mcp_call"
    ensures FindTool(McpTools, name) == Some(McpCall)
  {
    RegistryMatchesDispatch();
    FindToolDistinct(McpTools, 2);
  }

  lemma McpApprovalResponseFound(name: string)
    requires name == "mcp_approval_response"
    ensures FindTool(McpTools, name) == Some(McpApprovalResponse)
  {
    RegistryMatchesDispatch();
    FindToolDistinct(McpTools, 4);
  }

  /** `mcp_call` (policy `always`) and `mcp_approval_response` (bare
      `conditional`) can never reach their handlers through the pipeline. */
  lemma ApprovalGatedToolsNeverRun(call: ToolCall, requesting: Option<string>, env: McpEnv)
    requires Standard(env)
    requires call.name == "mcp_call" || call.name == "mcp_approval_response"
    ensures !AllStagesPass(call, requesting, env)
    ensures var r := ExecuteWithValidation(call, requesting, env);
      && !(r.Ok? && r.value.Executed?)
      && (r.Err? ==> Validate(FindTool(env.registry, call.name).value, env.parse(call.arguments).value, env.matches) == Err(r.error))
  {
    if call.name == "mcp_call" {
      McpCallFound(call.name);
      StringGatedNeverRuns(call, requesting, env, McpCall);
    } else {
      McpApprovalResponseFound(call.name);
      StringGatedNeverRuns(call, requesting, env, McpApprovalResponse);
    }
  }

  /** Exceptions escape only after lookup, parse and permission pass: from
      validation (a non-object argument value), or from dispatch once every
      stage has passed. */
  lemma ErrorsComeFromValidationOrDispatch(call: ToolCall, requesting: Option<string>, env: McpEnv, e: string)
    requires ExecuteWithValidation(call, requesting, env) == Err(e)
    ensures EarlyStagesPass(call, requesting, env)
    ensures var args := env.parse(call.arguments).value;
      Validate(FindTool(env.registry, call.name).value, args, env.matches) == Err(e)
      || (AllStagesPass(call, requesting, env) && ExecuteMcpTool(call, env) == Err(e))
  {
  }

  /** With the program's registry, dispatch itself never fails: an escaping
      exception comes from validation or, once every stage has passed, from
      the handler. */
  lemma StandardErrors(call: ToolCall, requesting: Option<string>, env: McpEnv, e: string)
    requires Standard(env) && ExecuteWithValidation(call, requesting, env) == Err(e)
    ensures EarlyStagesPass(call, requesting, env)
    ensures var args := env.parse(call.arguments).value;
      Validate(FindTool(env.registry, call.name).value, args, env.matches) == Err(e)
      || (AllStagesPass(call, requesting, env) && env.handler(call.name, args) == Err(e))
  {
    ErrorsComeFromValidationOrDispatch(call, requesting, env, e);
    StandardDispatch(call, env);
  }

  lemma LimitValueErrors(def: ParamDef, matches: Matcher)
    requires def == Bounded("number", 1, 100)
    ensures ValueErrors("limit", def, JNum(150), matches) == [MaxMessage("limit", 100)]
  {
  }

  /** The shape of `web_search`'s schema that the scenario below relies on. */
  predicate QueryThenLimit(p: ParamDef)
  {
    && p.required == ["query"]
    && |p.properties| >= 2
    && p.properties[0] == Property("query", Str())
    && p.properties[1] == Property("limit", Bounded("number", 1, 100))
    && forall i :: 2 <= i < |p.properties| ==> p.properties[i].name != "query" && p.properties[i].name != "limit"
  }

  lemma WebSearchShape()
    ensures QueryThenLimit(WebSearch.parameters)
  {
  }

  /** What the scenario below needs of its arguments: `query` is `"x"`,
      `limit` is 150 and no other key is present. */
  ghost predicate QueryXLimit150(args: Json)
  {
    && args.JObj?
    && Get(args, "query") == Some(JStr("x"))
    && Get(args, "limit") == Some(JNum(150))
    && forall key :: key != "query" && key != "limit" ==> !HasKey(args, key)
  }

  lemma LimitArgsKeys(args: Json)
    requires args == JObj([Field("query", JStr("x")), Field("limit", JNum(150))])
    ensures QueryXLimit150(args)
  {
  }

  /** The declared properties from `limit` on contribute exactly the
      exceeded-maximum error. */
  lemma LimitTailErrors(props: seq<Property>, args: Json, matches: Matcher)
    requires |props| >= 1 && props[0] == Property("limit", Bounded("number", 1, 100))
    requires forall i :: 1 <= i < |props| ==> props[i].name != "query" && props[i].name != "limit"
    requires QueryXLimit150(args)
    ensures PropertyErrors(props, args, matches) == [MaxMessage("limit", 100)]
  {
    LimitValueErrors(props[0].def, matches);
    var rest := props[1..];
    assert forall i :: 0 <= i < |rest| ==> !HasKey(args, rest[i].name) by {
      forall i | 0 <= i < |rest| ensures !HasKey(args, rest[i].name) {
        assert rest[i] == props[i + 1];
      }
    }
    PropertyErrorsAbsent(rest, args, matches);
  }

  /** Both declared properties together: `query` conforms, `limit` does not. */
  lemma QueryLimitPropertyErrors(p: ParamDef, args: Json, matches: Matcher)
    requires QueryThenLimit(p) && QueryXLimit150(args)
    ensures PropertyErrors(p.properties, args, matches) == [MaxMessage("limit", 100)]
  {
    var props := p.properties;
    PlainStringAccepted("query", props[0].def, "x", matches);
    assert forall i :: 1 <= i < |props[1..]| ==> props[1..][i].name != "query" && props[1..][i].name != "limit" by {
      forall i | 1 <= i < |props[1..]| ensures props[1..][i].name != "query" && props[1..][i].name != "limit" {
        assert props[1..][i] == props[i + 1];
      }
    }
    LimitTailErrors(props[1..], args, matches);
  }

  /** For a schema shaped like `web_search`'s, validation of such arguments
      reports the exceeded maximum of `limit` and nothing else. */
  lemma QueryLimitErrors(tool: Tool, args: Json, matches: Matcher)
    requires QueryThenLimit(tool.parameters) && QueryXLimit150(args)
    ensures Validate(tool, args, matches) == Ok(Validation(false, [MaxMessage("limit", 100)], []))
  {
    var p := tool.parameters;
    QueryLimitPropertyErrors(p, args, matches);
    assert HasKey(args, p.required[0]);
    assert MissingErrors(p.required[1..], args) == [];
    var errors := MissingErrors(p.required, args) + PropertyErrors(p.properties, args, matches);
    assert errors == [MaxMessage("limit", 100)];
  }

  /** Validation of `web_search` arguments `{query: "x", limit: 150}`: the
      one error is the exceeded maximum of `limit`. */
  lemma WebSearchLimitErrors(tool: Tool, args: Json, matches: Matcher)
    requires QueryThenLimit(tool.parameters)
    requires args == JObj([Field("query", JStr("x")), Field("limit", JNum(150))])
    ensures Validate(tool, args, matches) == Ok(Validation(false, [MaxMessage("limit", 100)], []))
  {
    LimitArgsKeys(args);
    QueryLimitErrors(tool, args, matches);
  }

  /** The same arguments through the pipeline at top level, for any tool
      with that schema, are refused at the validation stage. */
  lemma LimitRefused(call: ToolCall, env: McpEnv, args: Json, tool: Tool)
    requires FindTool(env.registry, call.name) == Some(tool) && QueryThenLimit(tool.parameters)
    requires env.parse(call.arguments) == Ok(args)
    requires args == JObj([Field("query", JStr("x")), Field("limit", JNum(150))])
    ensures ExecuteWithValidation(call, None, env) == Ok(ValidationFailed([MaxMessage("limit", 100)], []))
  {
    WebSearchLimitErrors(tool, args, env.matches);
    ValidationBeforeApproval(call, None, env);
  }

  /** So a top-level `web_search` call with `{query: "x", limit: 150}` is
      refused with "Parameter 'limit' must be <= 100". */
  lemma WebSearchLimitScenario(call: ToolCall, env: McpEnv, args: Json)
    requires Standard(env) && call.name == "web_search"
    requires env.parse(call.arguments) == Ok(args)
    requires args == JObj([Field("query", JStr("x")), Field("limit", JNum(150))])
    ensures ExecuteWithValidation(call, None, env) == Ok(ValidationFailed([MaxMessage("limit", 100)], []))
    ensures MaxMessage("limit", 100) == "Parameter '" + "limit" + "' must be <= " + "100"
  {
    WebSearchFound(call.name);
    WebSearchShape();
    LimitRefused(call, env, args, WebSearch);
    LimitMessageText();
  }

  lemma LimitMessageText()
    ensures MaxMessage("limit", 100) == "Parameter '" + "limit" + "' must be <= " + "100"
  {
    assert NatToString(1) == "1";
    assert NatToString(10) == NatToString(1) + [DigitChar(0)];
  }

  lemma WebSearchFound(name: string)
    requires name == "web_search"
    ensures FindTool(McpTools, name) == Some(WebSearch)
  {
    RegistryMatchesDispatch();
    FindToolDistinct(McpTools, 5);
  }
}
