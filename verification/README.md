# Tool-call gatekeeping of the Jarvis chat assistant, in Dafny

This project models the deterministic core of a Node.js chat assistant that
lets an OpenAI model call tools. The model covers:

- **The MCP tool gate of `tools-mcp.js`:**
  - the parameter validator `validateToolParameters`;
  - the approval policy `checkApprovalRequirement`;
  - the tool-to-tool allow-list `checkToolCallPermission`;
  - the staged pipeline `executeMcpToolWithValidation`, in its code order: lookup, argument parse, permission, validation, approval, dispatch;
  - the dispatcher `executeMcpTool`;
  - the seven declarations of `MCP_TOOLS`.
- **The plain tools of `tools.js`:** `getWeather`'s location-dependent ranges, the `executeToolFunction` dispatcher with its argument defaults, and `AVAILABLE_TOOLS`.
- **The Jarvis agent of `tools/jarvis-agent.js`:**
  - `ALL_TOOLS`;
  - the router `executeAllTools`, which never throws;
  - the message log kept by `run` and `reset`;
  - `chatWithJarvis`.
- **The command-line client of `app.js`:**
  - the `.env` loader `loadEnv`;
  - `parseInt` as `makeOpenAIRequest` uses it;
  - the request options;
  - the result object of `getCompletion`.

## Modelling choices

- **JSON values.** JSON values are the `Json.Json` datatype.
  - Numbers are integers.
  - An object is the list of fields its JSON text spells, in text order, repeated keys included.
  - A read returns the last field with the key, as `JSON.parse` keeps the last duplicate.
  - `JSON.stringify` writes each own property once, with its last value: the array-index keys first in ascending numeric order, then the other keys in the order of their first appearance.
  - `typeof`, truthiness, `includes`, `in`, `join` and `JSON.stringify` are defined over it.
- **What the code cannot see is a parameter** (a function-typed field or argument):
  - `JSON.parse` (`McpEnv.parse`);
  - the regular-expression engine (`Validator.Matcher`);
  - the mock MCP handler bodies (`McpEnv.handler`);
  - the clock and `toLocaleString` (`PlainTools.Clock`);
  - the `Math.random()` draws (`PlainTools.Draws`), where `Math.floor(Math.random() * n)` is an arbitrary natural number modulo `n`;
  - the chat-completion call (`Conversation.Complete`);
  - `parseFloat` (`App.FloatParser`);
  - the `.env` file (`App.EnvFile`).
- **The registry is a field of `McpEnv`.** `McpPipeline.Standard` states that it is the program's `MCP_TOOLS`. Lemmas that do not depend on the registry's contents hold for any registry; the others require `Standard`.
- **Thrown exceptions are `Result.Err`.** A function that never throws, such as `executeAllTools`, `chatWithJarvis` or `getCompletion`, returns the object the program builds from the error instead.
- **The Jarvis agent is an immutable `Jarvis.Agent` value.**
  - `Run` returns the agent afterwards, the completion requests made in order, and the result.
  - The log grows even when the call then throws.

## Model

| member | source | states |
|---|---|---|
| Validator.Validate | tools-mcp.js:660-736 | a non-object `args` makes the first `in` test throw, exactly when some key is required or declared; otherwise `warnings` is empty and `valid` holds exactly when `errors` is empty |
| Validator.ValidIff | tools-mcp.js:666-729 | validation succeeds exactly when every required key is present and every declared, present property conforms to an independent statement of its declaration |
| Validator.ValueErrorsEmpty | tools-mcp.js:680-726 | a present value draws no error exactly when it conforms: type, enum, array items, numeric bounds, pattern |
| Validator.MissingErrorsEmpty | tools-mcp.js:666-672 | no missing-parameter error exactly when every required name is a key of `args` |
| Validator.PropertyErrorsEmpty | tools-mcp.js:675-729 | no per-property error exactly when every declared, present property conforms |
| Validator.MissingReported | tools-mcp.js:666-672 | a missing-parameter message is among the errors exactly when it names a required key that `args` lacks |
| Validator.MissingFirst | tools-mcp.js:665-676 | every missing-parameter error comes before every per-property error |
| Validator.MissingInOrder | tools-mcp.js:667-671 | missing-parameter errors follow the order of the `required` list |
| Validator.TypeTest | tools-mcp.js:681-684 | the `typeof` test: `array` admits only arrays; `object` admits objects, arrays and null; `number` and `string` admit their own kind; `integer` admits nothing |
| Validator.IntegerAlwaysRejected | tools-mcp.js:681-689 | a present `integer`-declared parameter (such as `retry_count`) always draws the type error, draws the enum error independently of it, and gets no bounds check |
| Validator.BoundsInclusive | tools-mcp.js:711-718 | bounds are inclusive and apply only to a `number`-declared parameter with a numeric value; a value above the maximum or below the minimum draws its message |
| Validator.ValidateIncludes | tools-mcp.js:677-727 | every error of a declared, present property appears among the errors of the call |
| Validator.ArrayItemErrors | tools-mcp.js:692-708 | the array errors are all item-type errors (one per offending index) followed by all item-enum errors (one per offending index) |
| Validator.ArrayErrorsEmpty | tools-mcp.js:692-708 | an array parameter draws no per-element error exactly when every element has the declared item type and is one of the allowed item values |
| Validator.ItemTypeErrorsEmpty | tools-mcp.js:693-699 | no item-type error exactly when every element has the declared item type |
| Validator.ItemEnumErrorsEmpty | tools-mcp.js:701-707 | no item-enum error exactly when every element is one of the allowed values |
| Validator.NestedIgnored | tools-mcp.js:675-729 | validation is unchanged when nested `properties` and item-level `required` are removed from the declaration: only top-level properties are checked |
| Validator.UndeclaredKeyIgnored | tools-mcp.js:676-677 | adding an argument key that is neither declared nor required does not change the result |
| Approval.CheckApprovalRequirement | tools-mcp.js:600-652 | a required approval has level `always` or `conditional` |
| Approval.NoPolicy | tools-mcp.js:603-605 | a missing or falsy policy never requires approval |
| Approval.StringPolicy | tools-mcp.js:608-627 | a string policy ignores the arguments and requires approval exactly for `always` and `conditional`: `always` with reason "Tool always requires approval" and level `always`, `conditional` with reason "Tool requires conditional approval" and level `conditional`, neither with tool names |
| Approval.ScalarPolicy | tools-mcp.js:630-651 | a number or boolean policy, truthy or not, never requires approval |
| Approval.ConditionalObject | tools-mcp.js:630-647 | `{type: 'conditional', tool_names}` requires approval exactly when the tool's own name is listed or, for truthy arguments, a listed name occurs in `JSON.stringify` of them (each own property once, last value, array-index keys first); the reason is `message` when truthy, otherwise the generated list |
| Approval.OtherObjectShape | tools-mcp.js:630-651 | any other object policy never requires approval |
| Approval.ArgumentNamesTrigger | tools-mcp.js:636-638 | an argument property that no later property of the same name overrides, whose string value is a listed name needing no escapes, triggers approval |
| Approval.ShadowedNameIgnored | tools-mcp.js:636-638 | a listed name in a property overwritten by a later one is not seen: `{"server":"system_commands","server":"s1"}` needs no approval from a policy listing `system_commands` |
| Approval.NothingListedSeen | tools-mcp.js:630-647 | when neither the tool's name nor any serialised occurrence of a listed name is found, no approval is required |
| Approval.EmptyNameTriggersAll | tools-mcp.js:636-638 | a listed empty name triggers approval for every truthy argument object |
| Permission.CheckToolCallPermission | tools-mcp.js:744-769 | no `allowed_tools` allows everything; an array allows exactly its string members and is reported back; any other value denies with "Invalid allowed_tools configuration" |
| Permission.EmptyListDeniesAll | tools-mcp.js:754-762 | an empty `allowed_tools` array denies every target |
| McpRegistry.RegistryMatchesDispatch | tools-mcp.js:213-552 | `MCP_TOOLS` declares, in order and once each, exactly the seven names `executeMcpTool` dispatches on |
| McpRegistry.DeclaredIffDispatched | tools-mcp.js:570-587 | a name is declared in `MCP_TOOLS` exactly when `executeMcpTool` has a case for it |
| McpPipeline.ExecuteMcpTool | tools-mcp.js:558-588 | unparsable arguments throw "Invalid arguments for MCP tool ..."; any name outside the seven throws "Unknown MCP tool: ..."; the seven reach their handler with the parsed arguments |
| McpPipeline.Gate | tools-mcp.js:819-846 | the stages after the permission check end only in a validation failure, a pending approval or a dispatch |
| McpPipeline.ExecutedIff | tools-mcp.js:777-847 | a call is dispatched and its result returned exactly when lookup, parse, permission, validation and approval all pass |
| McpPipeline.ExecuteWithValidation | tools-mcp.js:777-817 | the result is "not found" exactly when the registry lacks the name; "invalid JSON", with the parser's message, exactly when the name is declared and the arguments do not parse; "not permitted", with the denial reason, exactly when they parse and the permission stage refuses |
| McpPipeline.PermissionDenial | tools-mcp.js:803-816 | no requesting tool, an empty name or an undeclared requesting tool imposes nothing; a declared one refuses exactly when its allow-list check does, with that check's reason |
| McpPipeline.UnknownToolFirst | tools-mcp.js:781-788 | an unknown name is reported before anything else, with the message "Tool '...' not found in MCP_TOOLS" |
| McpPipeline.StandardUnknown | tools-mcp.js:781-788 | with the program's registry, "not found" is returned exactly for names outside the seven |
| McpPipeline.StandardDispatch | tools-mcp.js:846 | with the program's registry, a declared tool's dispatch reaches its handler |
| McpPipeline.PermissionBeforeValidation | tools-mcp.js:804-817 | a refused permission is reported, with the permission's reason, before any validation |
| McpPipeline.ValidationBeforeApproval | tools-mcp.js:820-829 | a failed validation is reported with its errors and empty warnings, before approval is consulted |
| McpPipeline.TopLevelSkipsPermission | tools-mcp.js:804 | without a requesting tool the permission stage never refuses |
| McpPipeline.ValidationFailedIff | tools-mcp.js:819-829 | the result is a validation failure, carrying the validator's errors and warnings, exactly when lookup, parse and permission pass and validation returns an invalid result |
| McpPipeline.PendingApprovalIff | tools-mcp.js:831-843 | the result is a pending approval carrying decision `d` exactly when lookup, parse, permission and validation pass and `checkApprovalRequirement` returns the required decision `d` |
| McpPipeline.StringGatedNeverRuns | tools-mcp.js:832-843 | a tool whose policy is `always` or `conditional` never passes every stage, so it is never dispatched, and an exception escaping for it is validation's |
| McpPipeline.ApprovalGatedToolsNeverRun | tools-mcp.js:279-421 | `mcp_call` and `mcp_approval_response` never pass every stage and are never dispatched through the pipeline; an exception escaping for them is validation's |
| McpPipeline.ErrorsComeFromValidationOrDispatch | tools-mcp.js:777-847 | an exception escapes only after lookup, parse and permission pass, and comes from validation, or from dispatch once validation and approval have passed too |
| McpPipeline.StandardErrors | tools-mcp.js:820-846 | with the program's registry, an escaping exception comes from validation or, once every stage has passed, from the handler |
| McpPipeline.QueryLimitErrors | tools-mcp.js:426-445 | for a schema shaped like `web_search`'s, `{query: "x", limit: 150}` draws exactly the error on `limit`'s maximum |
| McpPipeline.LimitRefused | tools-mcp.js:819-829 | such a call at top level is refused at the validation stage with that one error |
| McpPipeline.WebSearchLimitScenario | tools-mcp.js:426-439 | with the program's `web_search` declaration (`limit` at most 100), a top-level call with `{query: "x", limit: 150}` is refused with the one error "Parameter 'limit' must be <= 100" |
| PlainTools.GetWeather | tools.js:24-49 | only a string location succeeds; otherwise the `toLowerCase` TypeError; location, units and timestamp echoed; temperature within the region's range; humidity 0..99; wind 5..24; condition one of the four; London rainy, Dubai sunny |
| PlainTools.RegionPrecedence | tools.js:38-46 | case-insensitive `london` wins over `dubai`, which wins over `new york`; no match leaves the default data |
| PlainTools.TemperatureReachable | tools.js:29-45 | every temperature of the region's range is produced by some draws, so the range is exact |
| PlainTools.GetCurrentTime | tools.js:4-22 | succeeds exactly when the time zone is accepted; echoes the time zone and the formatted time |
| PlainTools.ExecuteToolFunction | tools.js:97-113 | an unknown name throws "Unknown tool: ..."; a null argument object throws; `get_current_time` uses `args.timezone`, defaulting to `UTC` |
| PlainTools.UnitsDefault | tools.js:105-108 | `get_weather` echoes the location and defaults falsy `units` to `metric` |
| PlainTools.WeatherNeedsStringLocation | tools.js:105-108 | `get_weather` with no string location throws the `toLowerCase` TypeError |
| PlainTools.ValidWeatherCallSucceeds | tools.js:74-108 | arguments that pass validation against the `get_weather` declaration always succeed |
| PlainTools.AvailableToolsDeclared | tools.js:52-94 | two distinct names; `get_weather` requires `location` and restricts `units` to `metric`/`imperial`; `get_current_time` requires nothing |
| Jarvis.AllToolsDistinct | tools/jarvis-agent.js:32-35 | `ALL_TOOLS` is `AVAILABLE_TOOLS` followed by `MCP_TOOLS`, nine distinct names, no plain name among the MCP ones |
| Jarvis.ExecuteAllTools | tools/jarvis-agent.js:38-67 | MCP names go to the pipeline with no requesting tool; other names go to the plain dispatcher with the parsed arguments; every exception becomes `{error, tool}` |
| Jarvis.OutcomeJson | tools-mcp.js:783-846 | each refusal is `{success: false, error}` with the stage's own message and details (validation errors and warnings, approval details with `pending_approval: true`); an executed call is the handler's result itself |
| Jarvis.ErrorJson | tools/jarvis-agent.js:61-65 | the caught-error object carries the message and the tool name |
| Jarvis.NewAgent | tools/jarvis-agent.js:71-95 | a new agent's log is the one system message; its tools are `ALL_TOOLS`; its model is `OPENAI_MODEL` or `gpt-4o-mini` |
| Jarvis.Run | tools/jarvis-agent.js:97-163 | the log is only appended to, starting with the user message; one or two requests; the first offers the tools with `tool_choice: 'auto'`; model, prompt and tools unchanged |
| Jarvis.RunFails | tools/jarvis-agent.js:97-162 | `run` throws exactly when the first request fails or, after tool calls, the follow-up fails, rethrowing that error's message; the log then ends with the user message or with the tool messages |
| Jarvis.RunWithoutCalls | tools/jarvis-agent.js:117-157 | with no proposed calls: user and assistant messages appended, one request, content returned with `toolCalls: []` |
| Jarvis.RunWithCalls | tools/jarvis-agent.js:121-141 | with k proposed calls: exactly k tool messages in proposal order, each with its call's id and serialised result, then one follow-up request without tools |
| Jarvis.RunWithCallsResult | tools/jarvis-agent.js:143-150 | the follow-up reply is appended last and returned with the proposed calls and its usage |
| Jarvis.RunPreservesWf | tools/jarvis-agent.js:97-118 | the system message stays first in the log |
| Jarvis.ToolMessages | tools/jarvis-agent.js:124-133 | one tool message per call, in order, carrying the call's id and the serialised result |
| Jarvis.Reset | tools/jarvis-agent.js:165-172 | the log becomes exactly the system message; nothing else changes |
| Jarvis.ResetIsFresh | tools/jarvis-agent.js:165-172 | reset gives the agent a new one would be, and is idempotent |
| Jarvis.ChatWithJarvis | tools/jarvis-agent.js:179-204 | never throws, for any tool executor: an error of `run` becomes the error reply, with the same message; a result of `run` becomes the reply with its content, calls and usage; the agent's log is the one `run` leaves |
| Jarvis.JarvisExecutorAsWritten | tools/jarvis-agent.js:38-67 | the executor the program's `run` uses: every call gets the as-written router's result |
| Jarvis.JarvisExecutor | tools/jarvis-agent.js:38-67 | the executor of the corrected router |
| Jarvis.McpOnlyTurnAgrees | tools/jarvis-agent.js:44-53 | a turn whose proposed calls are all MCP tools is the same with the as-written and the corrected router |
| App.LoadEnv | app.js:37-63 | every failure message starts with "Configuration error: "; a missing file is reported as such and changes nothing; with a file, loading succeeds exactly when the key is configured afterwards |
| App.ParseLineRoundTrip | app.js:47-51 | a well-formed `KEY=value` line parses back to its key and value, even when the value contains `=` |
| App.ParseLineSpec | app.js:47-51 | a parsed line is, trimmed, its key, `=` and its value; the key is non-empty, free of `=` and not a comment |
| App.ApplyLinesLookup | app.js:44-54 | a key defined by the file holds the value of its last definition; every other key keeps its value or stays unset |
| App.LoadEnvKeyCheck | app.js:44-58 | the key check passes exactly when the key's last definition, or else the existing environment, is non-empty and not `your_api_key_here` |
| App.ParseIntOfIntToString | app.js:69 | `parseInt` reads back the decimal text of every integer |
| App.ParseIntDecimal | app.js:69 | `parseInt` of an optional `-` and decimal digits is their value |
| App.MaxTokensSetting | app.js:69 | without `OPENAI_MAX_TOKENS` the limit is 2000; with the decimal text of n it is n, or 2000 when n is 0 |
| App.Temperature | app.js:70 | an unset setting, one that reads as NaN and one that reads as 0 all give 0.7; any other number is used as it is; so the temperature is never 0 |
| App.ModelName | app.js:68 | `OPENAI_MODEL` when it is set and non-empty, otherwise `gpt-4` |
| App.RequestOptions | app.js:68-87 | the request carries the messages and the model, token limit and temperature the settings give; `tools` and `tool_choice: 'auto'` are present exactly when the tools list is non-empty |
| App.MakeOpenAIRequest | app.js:89-94 | a failed call is rethrown as "OpenAI API error: ..."; a successful one is returned |
| App.ToolsUsed | app.js:121-126 | succeeds exactly when every proposed call's arguments parse, then one entry per call in order with its name and parsed arguments; otherwise the first parse error |
| App.GetCompletionIff | app.js:98-139 | completes exactly when loading and the call succeed and every argument text parses; then response, model and one tool-use entry per call in order; a call failure becomes "OpenAI API error: ..." |
| App.GetCompletion | app.js:98-139 | a configuration error becomes the failed result with that message; the environment is the one `loadEnv` left |
| App.CompletionJson | app.js:112-137 | a failure is `{error, response: null, usage: null, model: null, tools_used: []}`; a success has no `error` and carries the content as `response` (null when there is none), the usage, the model and `tools_used` with one entry per tool use |
| App.ToolUsesJson | app.js:122-125 | `tools_used` has one `{name, arguments}` object per tool use, in order |
| SchemaExamples.NeverExample | tests/test-mcp-schema.js:10-18 | `require_approval: 'never'` needs no approval |
| SchemaExamples.RequiredMissingExample | tests/test-mcp-schema.js:22-41 | without `repoName` the one error is "Missing required parameter: repoName" |
| SchemaExamples.RequiredPresentExample | tests/test-mcp-schema.js:43-45 | with `repoName` the arguments validate |
| SchemaExamples.AllowListAdmits | tests/test-mcp-schema.js:48-59 | `allowed_tools: ['ask_question']` admits `ask_question` with the "is in the allowed tools list" reason |
| SchemaExamples.AllowListRefuses | tests/test-mcp-schema.js:61-63 | and refuses `forbidden_tool`, listing `[ask_question]` |
| SchemaExamples.ConditionalHitExample | tests/test-mcp-schema.js:66-81 | `{tool: 'ask_question'}` requires approval with the policy's message |
| SchemaExamples.ConditionalMissExample | tests/test-mcp-schema.js:83-84 | `{tool: 'safe_tool'}` does not |
| Json.SurvivorsDistinct | tools-mcp.js:793 | the own properties `JSON.parse` keeps name distinct keys |
| Json.SurvivorsLast | tools-mcp.js:793 | each kept property is the last field with its key |
| Json.SurvivorsCover | tools-mcp.js:793 | every key of the text has a kept property |
| Json.PropertyOrderSpec | tools-mcp.js:638 | `JSON.stringify` writes exactly the kept properties, each once, array-index keys first and in ascending order |
| Json.LastFieldListed | tools-mcp.js:638 | a field no later field overrides is written |
| Json.PlainKeysInOrder | tools-mcp.js:638 | distinct keys that are not array indices are written in field order |
| Json.RepeatedKeyAsLast | tools-mcp.js:638 | two fields with one key serialise as the second alone |
| Json.RepeatedKeyWrittenOnce | tools-mcp.js:638 | `{"k":"a","k":"b"}` serialises as `{"k":"b"}` |
| Json.IndexKeyWrittenFirst | tools-mcp.js:638 | `{"b":1,"2":2}` serialises as `{"2":2,"b":1}` |
| Json.FieldValueInStringify | tools-mcp.js:638 | the text of a string property that needs no escapes and is not overridden occurs in the serialisation |
| Jarvis.ExecuteAllToolsAsWritten | tools/jarvis-agent.js:38-67 | the router as written: MCP names as in the corrected version; plain tools receive the raw argument text |
| Jarvis.AsWrittenWeatherAlwaysFails | tools/jarvis-agent.js:53 | as written, every `get_weather` call fails with the `toLowerCase` TypeError |
| Jarvis.AsWrittenTimeIgnoresTimezone | tools/jarvis-agent.js:53 | as written, `get_current_time` always reports `UTC` |
| Jarvis.CorrectedWeatherSucceeds | tools/jarvis-agent.js:53 | corrected, a `get_weather` call with a string location reports that location |
| Jarvis.CorrectedTimeUsesTimezone | tools/jarvis-agent.js:53 | corrected, `get_current_time` reports the requested time zone |

## Left out

- **Timestamps, logging and the Jarvis name.** The `timestamp` fields and console logging are left out: they are clock reads and output. The Jarvis `name` field is also left out: it is a constant with no behaviour.
- **Non-string tool-call arguments.** The non-string branch of `executeMcpToolWithValidation` (`arguments` already an object) is left out. Tool calls from the chat API always carry a string.
- **Numbers.** Fractional numbers, NaN and infinities are left out; JSON numbers are integers here. Validation only compares numbers, so its behaviour on integers is exact.
- **Serialised integers.** `JSON.stringify` and `String` are modelled as always writing an integer in full decimal digits. JavaScript switches to exponent form from 10^21 on (`1e+21`) and rounds above 2^53, so the approval substring test and the tool-message text differ from the model for such numbers.
- **The demonstration calls.** The demo at tools-mcp.js:922-936 also sends `model: 'invalid_model'` and `filters`, which would add an enum error; only the `{query: "x", limit: 150}` call is stated.
- App.ParseIntOfIntToString: exact for every integer, whereas JavaScript numbers lose precision above 2^53.
- **Reading a temperature.** How `parseFloat` reads the `OPENAI_TEMPERATURE` text is a parameter; `App.Temperature` is stated in terms of what it returns.
- **Prototype keys.** Keys inherited from `Object.prototype` are left out. The parsed argument objects do inherit them, so `"toString" in args` holds in the program. But no declared or required parameter name in the program is such a key, so the `in` tests of validation never meet one.
- **Regular expressions.** The regular expression engine and invalid patterns (a `SyntaxError` from `new RegExp`) are left out. Matching is a parameter.
- **Missing `parameters`.** A tool declaration without `parameters` is left out. Every declaration in the program has one, and the source would throw reading `parameters.required`.
- **Case conversion.** Case conversion is ASCII only; `toLowerCase` on other letters is not modelled.
- **`__proto__` and escapes in keys.** A `"__proto__"` key, which `JSON.parse` turns into an own property and object literals do not, is treated as any other key; and the escape sequences of the JSON text are taken as already decoded by the parser parameter.
- **Handler bodies.** The MCP handler bodies (`mcp`, `mcpCall`, ...) and `getCurrentTime`'s formatting are parameters: they are mock data, dates and locale formatting.
- **Empty `choices`.** An empty `choices` array in a completion reply is left out. The reply is modelled as its first choice.
- **Everything around the core:** `server.js`, `setup`, `runCLI`, `demonstrateAdvancedMcpFeatures`, `getJarvisInfo`, the other agents and tool files, and the test scripts. They are I/O, HTTP routing and console output; the schema test's four examples are stated as lemmas.
- **Quirks of the code, kept as written.**
  - The header comment of tools-mcp.js:24 lists "Nested object property validation", but `validateToolParameters` checks only top-level properties; so does the model (`Validator.NestedIgnored`).
  - Validation messages start with a capital P: "Parameter '...'".
  - `run` makes one follow-up request after tool calls; calls proposed in the follow-up reply are not executed.
  - A declared `integer` type always fails the `typeof` test, and an empty allow-list denies everything.

## Findings

| source | as written | input that shows it | evidently intended | confidence | as-written member | corrected member |
|---|---|---|---|---|---|---|
| tools/jarvis-agent.js:53 | `executeAllTools` hands the raw tool call to `executeToolFunction`, which reads `args.location` and `args.timezone` from the unparsed argument string | a `get_weather` call with arguments `{"location":"London"}`: `location` is undefined and `getWeather` throws on `toLowerCase`; a `get_current_time` call with `{"timezone":"Asia/Tokyo"}` reports UTC | the argument string is parsed before the plain tools read it, as `executeMcpTool` does for MCP tools | high; not executed | Jarvis.ExecuteAllToolsAsWritten | Jarvis.ExecuteAllTools |
