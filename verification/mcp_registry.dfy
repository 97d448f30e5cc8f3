/** `MCP_TOOLS` (tools-mcp.js): the seven MCP tool declarations, as data.
    Descriptions, defaults and `format` are omitted: nothing reads them. */
module McpRegistry {
  import opened Wrappers
  import opened Json
  import opened Declarations

  function Conditional(names: seq<string>, message: string): Json
  {
    JObj([Field("type", JStr("conditional")), Field("tool_names", JArr(Strings(names))),
          Field("message", JStr(message))])
  }

  function Allowed(names: seq<string>): Option<Json>
  {
    Some(JArr(Strings(names)))
  }

  const Mcp := Tool("mcp",
    Obj([Property("action", StrEnum(["connect", "disconnect", "status", "health_check", "reset"])),
         Property("data", Typed("object"))],
        ["action"]),
    Some(JStr("never")),
    Allowed(["mcp_list_tools", "mcp_call"]))

  const McpListTools := Tool("mcp_list_tools",
    Obj([Property("server", Str()),
         Property("category", StrEnum(["file_operations", "web_search", "database", "system", "ai_models"])),
         Property("include_schemas", Typed("boolean")),
         Property("filter_patterns", ArrayOf(Str()))],
        ["server"]),
    Some(Conditional(["system_commands", "database_operations"],
                     "Listing tools may expose sensitive system information")),
    Allowed(["mcp", "mcp_call"]))

  const McpCall := Tool("mcp_call",
    Obj([Property("tool", Str()),
         Property("method", Str()),
         Property("parameters", Typed("object")),
         Property("server", Str()),
         Property("timeout", Bounded("number", 1000, 300000)),
         Property("retry_count", Bounded("integer", 0, 5))],
        ["tool", "method", "parameters"]),
    Some(JStr("always")),
    Allowed(["mcp_approval_request", "mcp_approval_response"]))

  const McpApprovalRequest := Tool("mcp_approval_request",
    Obj([Property("operation", Str()),
         Property("description", Str()),
         Property("riskLevel", StrEnum(["low", "medium", "high", "critical"])),
         Property("requiredPermissions", ArrayOf(Str())),
         Property("affected_systems",
                  ArrayOf(StrEnum(["filesystem", "network", "database", "system_config", "user_data"]))),
         Property("estimated_duration", Str().(pattern := Some("^\\d+[smhd]$")))],
        ["operation", "description", "riskLevel"]),
    Some(JStr("never")),
    Allowed(["mcp_approval_response"]))

  const McpApprovalResponse := Tool("mcp_approval_response",
    Obj([Property("requestId", Str()),
         Property("approved", Typed("boolean")),
         Property("reason", Str()),
         Property("conditions", ArrayOf(Str())),
         Property("approval_level", StrEnum(["full", "conditional", "temporary", "denied"])),
         Property("expiry_time", Str()),
         Property("reviewer_id", Str())],
        ["requestId", "approved", "reason"]),
    Some(JStr("conditional")),
    Allowed(["mcp_call"]))

  const WebSearch := Tool("web_search",
    Obj([Property("query", Str()),
         Property("limit", Bounded("number", 1, 100)),
         Property("model", StrEnum(["default", "academic", "news", "images", "videos"])),
         Property("filters",
                  Obj([Property("date_range", StrEnum(["day", "week", "month", "year", "all"])),
                       Property("language", Str().(pattern := Some("^[a-z]{2}$"))),
                       Property("region", Str().(pattern := Some("^[A-Z]{2}$")))],
                      [])),
         Property("include_snippets", Typed("boolean"))],
        ["query"]),
    Some(Conditional(["external_api", "user_data_access"],
                     "Web search may access external services and user data")),
    Allowed(["udf"]))

  const Udf := Tool("udf",
    Obj([Property("functionName", Str()),
         Property("parameters", Typed("object")),
         Property("context",
                  Obj([Property("environment", StrEnum(["development", "staging", "production"])),
                       Property("timeout", Bounded("number", 1000, 600000)),
                       Property("memory_limit", Str().(pattern := Some("^\\d+[KMGT]B$")))],
                      [])),
         Property("validation_rules",
                  ArrayOf(Obj([Property("rule_type",
                                        StrEnum(["type_check", "range_check", "format_check", "security_check"])),
                               Property("rule_value", Str())],
                              ["rule_type", "rule_value"]))),
         Property("execution_mode", StrEnum(["sync", "async", "batch"]))],
        ["functionName", "parameters"]),
    Some(Conditional(["system_commands", "file_operations", "database_operations"],
                     "User-defined functions may execute arbitrary code and require approval")),
    Allowed(["mcp", "mcp_approval_request", "web_search"]))

  const McpTools: seq<Tool> := [Mcp, McpListTools, McpCall, McpApprovalRequest, McpApprovalResponse, WebSearch, Udf]

  /** The names `executeMcpTool` dispatches on, in `switch` order. */
  const DispatchNames: seq<string> :=
    ["mcp", "mcp_list_tools", "mcp_call", "mcp_approval_request", "mcp_approval_response", "web_search", "udf"]

  /** The registry declares exactly the names the dispatcher handles, each once. */
  lemma RegistryMatchesDispatch()
    ensures Names(McpTools) == DispatchNames
    ensures DistinctNames(McpTools)
  {
  }

  /** A name is declared in the registry exactly when the dispatcher handles it. */
  lemma DeclaredIffDispatched(name: string)
    ensures FindTool(McpTools, name).Some? <==> name in DispatchNames
  {
    RegistryMatchesDispatch();
    if FindTool(McpTools, name).Some? {
      var i :| 0 <= i < |McpTools| && McpTools[i].name == name;
      assert Names(McpTools)[i] == name;
    } else {
      forall i | 0 <= i < |DispatchNames| ensures DispatchNames[i] != name {
        assert Names(McpTools)[i] == McpTools[i].name;
      }
    }
  }
}
