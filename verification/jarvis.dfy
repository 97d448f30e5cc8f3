/** tools/jarvis-agent.js: the Jarvis agent. It offers every tool to the
    model, routes each proposed call to the MCP pipeline or to the plain-tool
    dispatcher, never lets a tool exception escape, and keeps an append-only
    message log: user message, assistant message, one tool message per
    proposed call in proposal order, and a single follow-up reply. */
module Jarvis {
  import opened Wrappers
  import opened Json
  import opened Declarations
  import opened Approval
  import opened McpRegistry
  import opened McpPipeline
  import opened PlainTools
  import opened Conversation

  /** `ALL_TOOLS`: the plain tools, then the MCP tools. */
  const AllTools: seq<Tool> := AvailableTools + McpTools

  const SystemPrompt: string :=
    "You are Jarvis, an advanced AI assistant with access to a comprehensive set of tools. You can:\n\n"
    + "1. Get current time and weather information\n2. Search through knowledge base files\n"
    + "3. Perform web searches\n4. Execute MCP (Model Context Protocol) operations\n"
    + "5. Handle file operations, database queries, and system commands\n"
    + "6. Request approvals for sensitive operations\n7. Execute user-defined functions\n\n"
    + "You are helpful, efficient, and always try to use the most appropriate tool for the task at hand. "
    + "When multiple tools could be useful, choose the one that best fits the user's needs.\n\n"
    + "Always explain what you're doing and why you're using specific tools. Be conversational but professional."

  /** What tool execution cannot compute itself: the MCP pipeline's oracles,
      the clock, and the random draws of each call. */
  datatype ToolEnv = ToolEnv(mcp: McpEnv, clock: Clock, draws: ToolCall -> Draws)

  /** `{error: message, tool: name}`, the object a caught exception becomes
      (its timestamp is not modelled). */
  function ErrorJson(message: string, tool: string): (r: Json)
    ensures Get(r, "error") == Some(JStr(message)) && Get(r, "tool") == Some(JStr(tool))
  {
    var fields := [Field("error", JStr(message)), Field("tool", JStr(tool))];
    LastValueUnique(fields, 0);
    LastValueUnique(fields, 1);
    JObj(fields)
  }

  function DecisionJson(d: Decision): Json
  {
    match d
    case NotRequired => JObj([Field("required", JBool(false))])
    case Required(reason, level, names) =>
      JObj([Field("required", JBool(true)), Field("reason", reason), Field("level", JStr(level))]
           + (if names.Some? then [Field("tool_names", JArr(names.value))] else []))
  }

  /** The object `executeMcpToolWithValidation` resolves to (timestamps are
      not modelled): a refusal is `{success: false, error, ...}` with the
      stage's own details; an executed call resolves to the handler's own
      result. */
  function OutcomeJson(o: Outcome): (r: Json)
    ensures o.Executed? ==> r == o.result
    ensures !o.Executed? ==> Get(r, "success") == Some(JBool(false))
    ensures o.NotFound? ==> Get(r, "error") == Some(JStr(o.error))
    ensures o.InvalidJson? ==>
      Get(r, "error") == Some(JStr("Invalid JSON in tool arguments")) && Get(r, "details") == Some(JStr(o.details))
    ensures o.NotPermitted? ==>
      Get(r, "error") == Some(JStr("Tool call not permitted")) && Get(r, "details") == Some(JStr(o.details))
    ensures o.ValidationFailed? ==>
      && Get(r, "error") == Some(JStr("Parameter validation failed"))
      && Get(r, "validation_errors") == Some(JArr(Strings(o.errors)))
      && Get(r, "validation_warnings") == Some(JArr(Strings(o.warnings)))
    ensures o.PendingApproval? ==>
      && Get(r, "error") == Some(JStr("Approval required"))
      && Get(r, "approval_details") == Some(DecisionJson(o.decision))
      && Get(r, "pending_approval") == Some(JBool(true))
  {
    match o
    case NotFound(e) => NotFoundJson(e)
    case InvalidJson(details) => RefusalJson("Invalid JSON in tool arguments", details)
    case NotPermitted(details) => RefusalJson("Tool call not permitted", details)
    case ValidationFailed(errors, warnings) => InvalidArgumentsJson(errors, warnings)
    case PendingApproval(d) => PendingJson(d)
    case Executed(x) => x
  }

  /** `{success: false, error}`. */
  function NotFoundJson(e: string): (r: Json)
    ensures Get(r, "success") == Some(JBool(false)) && Get(r, "error") == Some(JStr(e))
  {
    var fields := [Field("success", JBool(false)), Field("error", JStr(e))];
    LastValueUnique(fields, 0);
    LastValueUnique(fields, 1);
    JObj(fields)
  }

  /** `{success: false, error, details}`. */
  function RefusalJson(error: string, details: string): (r: Json)
    ensures Get(r, "success") == Some(JBool(false)) && Get(r, "error") == Some(JStr(error))
    ensures Get(r, "details") == Some(JStr(details))
  {
    var fields := [Field("success", JBool(false)), Field("error", JStr(error)), Field("details", JStr(details))];
    LastValueUnique(fields, 0);
    LastValueUnique(fields, 1);
    LastValueUnique(fields, 2);
    JObj(fields)
  }

  /** `{success: false, error, validation_errors, validation_warnings}`. */
  function InvalidArgumentsJson(errors: seq<string>, warnings: seq<string>): (r: Json)
    ensures Get(r, "success") == Some(JBool(false)) && Get(r, "error") == Some(JStr("Parameter validation failed"))
    ensures Get(r, "validation_errors") == Some(JArr(Strings(errors)))
    ensures Get(r, "validation_warnings") == Some(JArr(Strings(warnings)))
  {
    var fields := [Field("success", JBool(false)), Field("error", JStr("Parameter validation failed")),
                   Field("validation_errors", JArr(Strings(errors))),
                   Field("validation_warnings", JArr(Strings(warnings)))];
    LastValueUnique(fields, 0);
    LastValueUnique(fields, 1);
    LastValueUnique(fields, 2);
    LastValueUnique(fields, 3);
    JObj(fields)
  }

  /** `{success: false, error, approval_details, pending_approval: true}`. */
  function PendingJson(d: Decision): (r: Json)
    ensures Get(r, "success") == Some(JBool(false)) && Get(r, "error") == Some(JStr("Approval required"))
    ensures Get(r, "approval_details") == Some(DecisionJson(d)) && Get(r, "pending_approval") == Some(JBool(true))
  {
    var fields := [Field("success", JBool(false)), Field("error", JStr("Approval required")),
                   Field("approval_details", DecisionJson(d)), Field("pending_approval", JBool(true))];
    LastValueUnique(fields, 0);
    LastValueUnique(fields, 1);
    LastValueUnique(fields, 2);
    LastValueUnique(fields, 3);
    JObj(fields)
  }

  /** `executeAllTools` as written: a plain tool receives the unparsed
      argument text, so `args.location` and `args.timezone` read properties of
      a string and are undefined. */
  function ExecuteAllToolsAsWritten(call: ToolCall, env: ToolEnv): (r: Json)
    ensures call.name in Names(env.mcp.registry) ==>
      r == match ExecuteWithValidation(call, None, env.mcp)
           case Ok(o) => OutcomeJson(o)
           case Err(e) => ErrorJson(e, call.name)
  {
    if call.name in Names(env.mcp.registry) then
      match ExecuteWithValidation(call, None, env.mcp)
      case Ok(o) => OutcomeJson(o)
      case Err(e) => ErrorJson(e, call.name)
    else
      match ExecuteToolFunction(call.name, JStr(call.arguments), env.clock, env.draws(call))
      case Ok(x) => x
      case Err(e) => ErrorJson(e, call.name)
  }

  /** `executeAllTools` with the argument text parsed before a plain tool
      runs, as the MCP pipeline and app.js both do; a parse failure is caught
      like any other exception. */
  function ExecuteAllTools(call: ToolCall, env: ToolEnv): (r: Json)
    ensures call.name in Names(env.mcp.registry) ==> r == ExecuteAllToolsAsWritten(call, env)
    ensures call.name !in Names(env.mcp.registry) && env.mcp.parse(call.arguments).Err? ==>
      r == ErrorJson(env.mcp.parse(call.arguments).error, call.name)
    ensures call.name !in Names(env.mcp.registry) && env.mcp.parse(call.arguments).Ok? ==>
      r == match ExecuteToolFunction(call.name, env.mcp.parse(call.arguments).value, env.clock, env.draws(call))
           case Ok(x) => x
           case Err(e) => ErrorJson(e, call.name)
  {
    if call.name in Names(env.mcp.registry) then ExecuteAllToolsAsWritten(call, env)
    else
      match env.mcp.parse(call.arguments)
      case Err(e) => ErrorJson(e, call.name)
      case Ok(args) =>
        match ExecuteToolFunction(call.name, args, env.clock, env.draws(call))
        case Ok(x) => x
        case Err(e) => ErrorJson(e, call.name)
  }

  /** The agent's state: its model name and its message log. */
  datatype Agent = Agent(model: string, systemPrompt: string, tools: seq<Tool>, messages: seq<Message>)

  /** The log holds the agent's system prompt first. */
  predicate Wf(a: Agent)
  {
    |a.messages| >= 1 && a.messages[0] == SystemMsg(a.systemPrompt)
  }

  /** `new JarvisAgent()`; `modelSetting` is `process.env.OPENAI_MODEL`. */
  function NewAgent(modelSetting: Option<string>): (a: Agent)
    ensures Wf(a) && |a.messages| == 1
    ensures a.systemPrompt == SystemPrompt && a.tools == AllTools
    ensures a.model == (if modelSetting.Some? && modelSetting.value != "" then modelSetting.value else "gpt-4o-mini")
  {
    Agent(if modelSetting.Some? && modelSetting.value != "" then modelSetting.value else "gpt-4o-mini",
          SystemPrompt, AllTools, [SystemMsg(SystemPrompt)])
  }

  /** `reset()`: the log is the system message alone again. */
  function Reset(a: Agent): (r: Agent)
    ensures Wf(r) && |r.messages| == 1
    ensures r.model == a.model && r.systemPrompt == a.systemPrompt && r.tools == a.tools
  {
    a.(messages := [SystemMsg(a.systemPrompt)])
  }

  /** What a proposed call's tool message carries. `run` is stated for any
      executor: the program's is `JarvisExecutorAsWritten`, the corrected
      one `JarvisExecutor`. */
  type Executor = ToolCall -> Json

  /** `executeAllTools` as written, with the oracles of `env`. */
  function JarvisExecutorAsWritten(env: ToolEnv): (exec: Executor)
    ensures forall call :: exec(call) == ExecuteAllToolsAsWritten(call, env)
  {
    call => ExecuteAllToolsAsWritten(call, env)
  }

  /** The corrected `executeAllTools`, with the oracles of `env`. */
  function JarvisExecutor(env: ToolEnv): (exec: Executor)
    ensures forall call :: exec(call) == ExecuteAllTools(call, env)
  {
    call => ExecuteAllTools(call, env)
  }

  /** The tool messages for `calls`, run one after another. */
  function ToolMessages(calls: seq<ToolCall>, exec: Executor): (ms: seq<Message>)
    ensures |ms| == |calls|
    ensures forall i :: 0 <= i < |calls| ==> ms[i] == ToolMsg(calls[i].id, Stringify(exec(calls[i])))
  {
    if |calls| == 0 then []
    else [ToolMsg(calls[0].id, Stringify(exec(calls[0])))] + ToolMessages(calls[1..], exec)
  }

  /** What `run` resolves to. */
  datatype RunResult = RunResult(content: Option<string>, toolCalls: seq<ToolCall>, usage: Json)

  /** One `run`: the agent afterwards (its log is mutated even when the call
      throws), the completion requests made in order, and the result or the
      rethrown error. */
  datatype RunOutcome = RunOutcome(agent: Agent, requests: seq<Request>, result: Result<RunResult, string>)

  /** The first request of a run offers the agent's tools. */
  function FirstRequest(a: Agent, log: seq<Message>): Request
  {
    Request(a.model, log, 4000, 0.7, Some(a.tools), Some("auto"))
  }

  /** The follow-up request offers no tools. */
  function FollowUpRequest(a: Agent, log: seq<Message>): Request
  {
    Request(a.model, log, 4000, 0.7, None, None)
  }

  /** `run(message)`. */
  function Run(a: Agent, message: string, exec: Executor, complete: Complete): (o: RunOutcome)
    ensures o.agent.model == a.model && o.agent.systemPrompt == a.systemPrompt && o.agent.tools == a.tools
    ensures |o.agent.messages| > |a.messages| && o.agent.messages[..|a.messages|] == a.messages
    ensures o.agent.messages[|a.messages|] == UserMsg(message)
    ensures 1 <= |o.requests| <= 2
    ensures o.requests[0] == FirstRequest(a, a.messages + [UserMsg(message)])
  {
    var log1 := a.messages + [UserMsg(message)];
    var first := FirstRequest(a, log1);
    match complete(first)
    case Err(e) => RunOutcome(a.(messages := log1), [first], Err(e))
    case Ok(reply) =>
      var log2 := log1 + [AssistantOf(reply)];
      if |reply.toolCalls| > 0 then
        var log3 := log2 + ToolMessages(reply.toolCalls, exec);
        var second := FollowUpRequest(a, log3);
        match complete(second)
        case Err(e) => RunOutcome(a.(messages := log3), [first, second], Err(e))
        case Ok(final) =>
          RunOutcome(a.(messages := log3 + [AssistantOf(final)]), [first, second],
                     Ok(RunResult(final.content, reply.toolCalls, final.usage)))
      else RunOutcome(a.(messages := log2), [first], Ok(RunResult(reply.content, [], reply.usage)))
  }

  /** What `chatWithJarvis` resolves to (timestamps are not modelled). */
  datatype ChatReply =
    | ChatOk(response: Option<string>, toolCalls: seq<ToolCall>, usage: Json)
    | ChatErr(error: string)

  /** `chatWithJarvis(message)`: never throws. The program calls it with
      `JarvisExecutorAsWritten`. */
  function ChatWithJarvis(a: Agent, message: string, exec: Executor, complete: Complete): (r: (Agent, ChatReply))
    ensures r.1.ChatErr? <==> Run(a, message, exec, complete).result.Err?
    ensures r.1.ChatErr? ==> r.1.error == Run(a, message, exec, complete).result.error
    ensures r.1.ChatOk? ==>
      var res := Run(a, message, exec, complete).result.value;
      r.1 == ChatOk(res.content, res.toolCalls, res.usage)
    ensures r.0 == Run(a, message, exec, complete).agent
  {
    var o := Run(a, message, exec, complete);
    match o.result
    case Err(e) => (o.agent, ChatErr(e))
    case Ok(res) => (o.agent, ChatOk(res.content, res.toolCalls, res.usage))
  }

  // ================================================================ lemmas

  /** The two registries do not share a name, so routing by name is
      unambiguous: every MCP name goes to the pipeline and every plain name
      to the plain dispatcher. */
  lemma AllToolsDistinct()
    ensures DistinctNames(AllTools)
    ensures |AllTools| == 9 && AllTools[..2] == AvailableTools && AllTools[2..] == McpTools
    ensures forall i :: 0 <= i < |AvailableTools| ==> AvailableTools[i].name !in Names(McpTools)
  {
    RegistryMatchesDispatch();
    assert AllTools[..2] == AvailableTools && AllTools[2..] == McpTools;
    forall i | 0 <= i < |AvailableTools| ensures AvailableTools[i].name !in Names(McpTools) {
      PlainNotMcp(AvailableTools[i].name);
    }
    forall i, j | 0 <= i < j < |AllTools| ensures AllTools[i].name != AllTools[j].name {
      if 2 <= i {
        assert AllTools[i] == McpTools[i - 2] && AllTools[j] == McpTools[j - 2];
      } else if 2 <= j {
        assert AllTools[j].name == Names(McpTools)[j - 2];
      }
    }
  }

  /** The plain tools are not MCP tools, so the lemmas below, stated for any
      registry that does not declare them, apply to the program's. */
  lemma PlainNotMcp(name: string)
    requires name == "get_weather" || name == "get_current_time"
    ensures name !in Names(McpTools)
  {
    RegistryMatchesDispatch();
  }

  /** The reply to the first request of a run. */
  function FirstReply(a: Agent, message: string, complete: Complete): Result<Reply, string>
  {
    complete(FirstRequest(a, a.messages + [UserMsg(message)]))
  }

  /** The follow-up request of a run whose first reply proposed calls: the
      log with the user, assistant and tool messages appended. */
  function SecondRequest(a: Agent, message: string, exec: Executor, complete: Complete): Request
    requires FirstReply(a, message, complete).Ok?
  {
    var reply := FirstReply(a, message, complete).value;
    FollowUpRequest(a, a.messages + [UserMsg(message)] + [AssistantOf(reply)] + ToolMessages(reply.toolCalls, exec))
  }

  /** `run` throws exactly when a completion request fails, rethrowing that
      error's message: the first request (the log then ends with the user
      message), or the follow-up after tool calls (the log then ends with the
      tool messages). */
  lemma RunFails(a: Agent, message: string, exec: Executor, complete: Complete)
    ensures var o := Run(a, message, exec, complete);
      var first := FirstReply(a, message, complete);
      && (first.Err? ==>
            o.result == Err(first.error) && o.agent.messages == a.messages + [UserMsg(message)] && |o.requests| == 1)
      && (first.Ok? && |first.value.toolCalls| > 0 && complete(SecondRequest(a, message, exec, complete)).Err? ==>
            && o.result == Err(complete(SecondRequest(a, message, exec, complete)).error)
            && o.agent.messages == SecondRequest(a, message, exec, complete).messages)
      && (o.result.Err? <==>
            first.Err? ||
            (first.Ok? && |first.value.toolCalls| > 0 && complete(SecondRequest(a, message, exec, complete)).Err?))
  {
  }

  /** With no proposed calls, a run makes one request, appends the user and
      assistant messages, and returns the assistant's content with no calls. */
  lemma RunWithoutCalls(a: Agent, message: string, exec: Executor, complete: Complete)
    requires FirstReply(a, message, complete).Ok? && |FirstReply(a, message, complete).value.toolCalls| == 0
    ensures var o := Run(a, message, exec, complete);
      var reply := FirstReply(a, message, complete).value;
      && o.agent.messages == a.messages + [UserMsg(message), AssistantOf(reply)]
      && |o.requests| == 1
      && o.result == Ok(RunResult(reply.content, [], reply.usage))
  {
  }

  /** With k > 0 proposed calls, a run appends the user message, the
      assistant message, k tool messages (one per call, carrying its id, in
      proposal order), and makes exactly one follow-up request over that log. */
  lemma RunWithCalls(a: Agent, message: string, exec: Executor, complete: Complete)
    requires FirstReply(a, message, complete).Ok? && |FirstReply(a, message, complete).value.toolCalls| > 0
    ensures var o := Run(a, message, exec, complete);
      var reply := FirstReply(a, message, complete).value;
      var calls := reply.toolCalls;
      var n := |a.messages|;
      && |o.requests| == 2
      && |o.agent.messages| >= n + 2 + |calls|
      && o.agent.messages[..n + 2] == a.messages + [UserMsg(message), AssistantOf(reply)]
      && (forall i :: 0 <= i < |calls| ==>
            o.agent.messages[n + 2 + i] == ToolMsg(calls[i].id, Stringify(exec(calls[i]))))
      && o.requests[1] == FollowUpRequest(a, o.agent.messages[..n + 2 + |calls|])
  {
    var o := Run(a, message, exec, complete);
    var log1 := a.messages + [UserMsg(message)];
    var reply := FirstReply(a, message, complete).value;
    var log2 := log1 + [AssistantOf(reply)];
    var tms := ToolMessages(reply.toolCalls, exec);
    var log3 := log2 + tms;
    assert o.agent.messages[..|log3|] == log3;
    forall i | 0 <= i < |reply.toolCalls|
      ensures o.agent.messages[|a.messages| + 2 + i] == tms[i]
    {
      assert o.agent.messages[|a.messages| + 2 + i] == log3[|log2| + i];
    }
    assert o.agent.messages[..|a.messages| + 2] == log3[..|log2|];
  }

  /** A run that completes after tool calls ends the log with the follow-up
      reply and returns its content with the first reply's calls. */
  lemma RunWithCallsResult(a: Agent, message: string, exec: Executor, complete: Complete)
    requires FirstReply(a, message, complete).Ok? && |FirstReply(a, message, complete).value.toolCalls| > 0
    requires Run(a, message, exec, complete).result.Ok?
    ensures var o := Run(a, message, exec, complete);
      var final := complete(o.requests[1]).value;
      && |o.agent.messages| == |a.messages| + 3 + |FirstReply(a, message, complete).value.toolCalls|
      && o.agent.messages[|o.agent.messages| - 1] == AssistantOf(final)
      && o.result.value == RunResult(final.content, FirstReply(a, message, complete).value.toolCalls, final.usage)
  {
  }

  /** A run keeps the log well formed, whatever the model does. */
  lemma RunPreservesWf(a: Agent, message: string, exec: Executor, complete: Complete)
    requires Wf(a)
    ensures Wf(Run(a, message, exec, complete).agent)
  {
    var o := Run(a, message, exec, complete);
    assert o.agent.messages[0] == o.agent.messages[..|a.messages|][0];
  }

  /** Two executors that agree on every proposed call give the same tool
      messages. */
  lemma ToolMessagesAgree(calls: seq<ToolCall>, e1: Executor, e2: Executor)
    requires forall i :: 0 <= i < |calls| ==> e1(calls[i]) == e2(calls[i])
    ensures ToolMessages(calls, e1) == ToolMessages(calls, e2)
  {
  }

  /** The executors as written and corrected differ only on plain tools: a
      conversation turn whose proposed calls are all MCP tools is the same
      under both. */
  lemma McpOnlyTurnAgrees(a: Agent, message: string, env: ToolEnv, complete: Complete)
    requires FirstReply(a, message, complete).Ok?
    requires var calls := FirstReply(a, message, complete).value.toolCalls;
      forall i :: 0 <= i < |calls| ==> calls[i].name in Names(env.mcp.registry)
    ensures ChatWithJarvis(a, message, JarvisExecutorAsWritten(env), complete)
         == ChatWithJarvis(a, message, JarvisExecutor(env), complete)
  {
    var calls := FirstReply(a, message, complete).value.toolCalls;
    ToolMessagesAgree(calls, JarvisExecutorAsWritten(env), JarvisExecutor(env));
  }

  /** The Finding, as written: through Jarvis, `get_weather` always fails
      with the TypeError of reading `toLowerCase` of undefined, whatever
      arguments the model sends. */
  lemma AsWrittenWeatherAlwaysFails(call: ToolCall, env: ToolEnv)
    requires call.name !in Names(env.mcp.registry) && call.name == "get_weather"
    ensures ExecuteAllToolsAsWritten(call, env)
         == ErrorJson("Cannot read properties of undefined (reading 'toLowerCase')", "get_weather")
  {
  }

  /** ...and `get_current_time` ignores the requested time zone. */
  lemma AsWrittenTimeIgnoresTimezone(call: ToolCall, env: ToolEnv)
    requires call.name !in Names(env.mcp.registry) && call.name == "get_current_time"
    requires env.clock.localTime(JStr("UTC")).Ok?
    ensures Get(ExecuteAllToolsAsWritten(call, env), "timezone") == Some(JStr("UTC"))
  {
  }

  /** Corrected: a `get_weather` call whose arguments parse to an object
      with a string location returns the weather for that location. */
  lemma CorrectedWeatherSucceeds(call: ToolCall, env: ToolEnv, args: Json)
    requires call.name !in Names(env.mcp.registry) && call.name == "get_weather"
    requires env.mcp.parse(call.arguments) == Ok(args)
    requires IsObject(args) && Get(args, "location").Some? && Get(args, "location").value.JStr?
    ensures Get(ExecuteAllTools(call, env), "location") == Some(Get(args, "location").value)
  {
  }

  /** Corrected: the requested time zone reaches the clock. */
  lemma CorrectedTimeUsesTimezone(call: ToolCall, env: ToolEnv, args: Json, tz: Json)
    requires call.name !in Names(env.mcp.registry) && call.name == "get_current_time"
    requires env.mcp.parse(call.arguments) == Ok(args)
    requires IsObject(args) && Get(args, "timezone") == Some(tz) && Truthy(tz)
    requires env.clock.localTime(tz).Ok?
    ensures Get(ExecuteAllTools(call, env), "timezone") == Some(tz)
  {
  }

  /** `reset` discards everything but the system prompt, and a fresh agent
      and a reset one are alike. */
  lemma ResetIsFresh(a: Agent, modelSetting: Option<string>)
    requires a.model == NewAgent(modelSetting).model
    requires a.systemPrompt == SystemPrompt && a.tools == AllTools
    ensures Reset(a) == NewAgent(modelSetting)
    ensures Reset(Reset(a)) == Reset(a)
  {
  }
}
