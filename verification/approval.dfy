/** `checkApprovalRequirement` (tools-mcp.js): whether a call must wait for an
    operator's approval, from the tool's `require_approval` setting. The
    setting is a string (`never`, `always`, `conditional`) or an object
    `{type: 'conditional', tool_names, message}`. */
module Approval {
  import opened Wrappers
  import opened Text
  import opened Json
  import opened Declarations

  /** `{required: false}`, or `{required: true, reason, level, tool_names?}`. */
  datatype Decision =
    | NotRequired
    | Required(reason: Json, level: string, toolNames: Option<seq<Json>>)

  /** `names.some(n => text.includes(n))`; `includes` converts `n` with `String`. */
  function AnyOccurs(names: seq<Json>, text: string): (b: bool)
    ensures b <==> exists i :: 0 <= i < |names| && Contains(text, JsString(names[i]))
  {
    if |names| == 0 then false
    else if Contains(text, JsString(names[0])) then true
    else
      var b := AnyOccurs(names[1..], text);
      assert forall i :: 1 <= i < |names| ==> names[i] == names[1..][i - 1];
      b
  }

  function SensitiveReason(names: seq<Json>): Json
  {
    JStr("Tool involves sensitive operations: " + JoinJs(names, ", "))
  }

  /** The object form of the policy, whose fields are read by destructuring. */
  function ObjectDecision(toolName: string, policy: Json, args: Json): Decision
  {
    var names := Get(policy, "tool_names");
    var message := Get(policy, "message");
    if Get(policy, "type") == Some(JStr("conditional")) && names.Some? && names.value.JArr? then
      var ns := names.value.items;
      if Includes(ns, JStr(toolName)) || (Truthy(args) && AnyOccurs(ns, Stringify(args))) then
        Required(if Present(message) then message.value else SensitiveReason(ns), "conditional", Some(ns))
      else NotRequired
    else NotRequired
  }

  function CheckApprovalRequirement(tool: Tool, args: Json): (d: Decision)
    ensures d.Required? ==> d.level in {"always", "conditional"}
  {
    var policy := tool.requireApproval;
    if !Present(policy) then NotRequired
    else match policy.value
      case JStr(s) =>
        if s == "always" then Required(JStr("Tool always requires approval"), "always", None)
        else if s == "conditional" then Required(JStr("Tool requires conditional approval"), "conditional", None)
        else NotRequired
      case JObj(_) => ObjectDecision(tool.name, policy.value, args)
      case JArr(_) => ObjectDecision(tool.name, policy.value, args)
      case _ => NotRequired
  }

  // ================================================================ lemmas

  /** A missing or falsy policy never requires approval. */
  lemma NoPolicy(tool: Tool, args: Json)
    requires !Present(tool.requireApproval)
    ensures CheckApprovalRequirement(tool, args) == NotRequired
  {
  }

  /** A string policy decides without looking at the arguments: `always` and
      the bare `conditional` require approval, `never` and any other string
      do not. */
  lemma StringPolicy(tool: Tool, s: string, args: Json, other: Json)
    requires tool.requireApproval == Some(JStr(s))
    ensures CheckApprovalRequirement(tool, args) == CheckApprovalRequirement(tool, other)
    ensures CheckApprovalRequirement(tool, args).Required? <==> s == "always" || s == "conditional"
    ensures s == "always" ==>
      CheckApprovalRequirement(tool, args) == Required(JStr("Tool always requires approval"), "always", None)
    ensures s == "conditional" ==>
      CheckApprovalRequirement(tool, args) == Required(JStr("Tool requires conditional approval"), "conditional", None)
  {
  }

  /** A number or boolean policy, even a truthy one, is neither a string nor
      an object and never requires approval. */
  lemma ScalarPolicy(tool: Tool, args: Json)
    requires tool.requireApproval.Some? && (tool.requireApproval.value.JNum? || tool.requireApproval.value.JBool?)
    ensures CheckApprovalRequirement(tool, args) == NotRequired
  {
  }

  /** `tool_names.includes(name) || (args && tool_names.some(n =>
      JSON.stringify(args).includes(n)))`, stated with quantifiers. */
  predicate Triggered(toolName: string, names: seq<Json>, args: Json)
  {
    (exists i :: 0 <= i < |names| && names[i] == JStr(toolName))
    || (Truthy(args) && exists i :: 0 <= i < |names| && Contains(Stringify(args), JsString(names[i])))
  }

  /** An object policy `{type: 'conditional', tool_names: names}` requires
      approval exactly when the tool's own name is listed or some listed name
      occurs in the serialised arguments; the reason is `message` when it is
      truthy and otherwise lists the names. */
  lemma ConditionalObject(tool: Tool, fields: seq<Field>, names: seq<Json>, args: Json)
    requires tool.requireApproval == Some(JObj(fields))
    requires Get(JObj(fields), "type") == Some(JStr("conditional"))
    requires Get(JObj(fields), "tool_names") == Some(JArr(names))
    ensures var d := CheckApprovalRequirement(tool, args);
      && (d.Required? <==> Triggered(tool.name, names, args))
      && (d.Required? ==> d.toolNames == Some(names) && d.level == "conditional")
      && (d.Required? && Present(Get(JObj(fields), "message")) ==> d.reason == Get(JObj(fields), "message").value)
      && (d.Required? && !Present(Get(JObj(fields), "message")) ==> d.reason == SensitiveReason(names))
  {
  }

  /** Any other object shape (no `type: 'conditional'`, or `tool_names` that
      is not an array) never requires approval. */
  lemma OtherObjectShape(tool: Tool, args: Json)
    requires tool.requireApproval.Some? && IsObject(tool.requireApproval.value)
    requires var p := tool.requireApproval.value;
      Get(p, "type") != Some(JStr("conditional")) || Get(p, "tool_names").None? || !Get(p, "tool_names").value.JArr?
    ensures CheckApprovalRequirement(tool, args) == NotRequired
  {
  }

  /** The substring heuristic at work: an argument object one of whose
      properties is a listed name (plain text, no characters JSON escapes)
      requires approval. The property is the last field with its key: an
      earlier field of the same key is overwritten by `JSON.parse`. */
  lemma {:induction false} ArgumentNamesTrigger(tool: Tool, fields: seq<Field>, names: seq<Json>,
                                                args: seq<Field>, k: nat, s: string)
    requires tool.requireApproval == Some(JObj(fields))
    requires Get(JObj(fields), "type") == Some(JStr("conditional"))
    requires Get(JObj(fields), "tool_names") == Some(JArr(names))
    requires k < |args| && args[k].value == JStr(s) && JStr(s) in names
    requires forall j :: k < j < |args| ==> args[j].key != args[k].key
    requires forall i :: 0 <= i < |s| ==> !NeedsEscape(s[i])
    ensures CheckApprovalRequirement(tool, JObj(args)).Required?
  {
    FieldValueInStringify(args, k, s);
    var i :| 0 <= i < |names| && names[i] == JStr(s);
    assert Contains(Stringify(JObj(args)), JsString(names[i]));
  }

  /** A listed name in an overwritten field is not seen: the arguments
      `{"server":"system_commands","server":"s1"}` parse to `{server: "s1"}`,
      whose serialisation `{"server":"s1"}` does not contain `system_commands`. */
  lemma ShadowedNameIgnored(tool: Tool, fields: seq<Field>)
    requires tool.requireApproval == Some(JObj(fields))
    requires Get(JObj(fields), "type") == Some(JStr("conditional"))
    requires Get(JObj(fields), "tool_names") == Some(JArr([JStr("system_commands")]))
    requires tool.name != "system_commands"
    ensures CheckApprovalRequirement(tool, JObj([Field("server", JStr("system_commands")),
                                                  Field("server", JStr("s1"))])) == NotRequired
  {
    var args := JObj([Field("server", JStr("system_commands")), Field("server", JStr("s1"))]);
    var names := [JStr("system_commands")];
    ShadowedText();
    assert JsString(names[0]) == "system_commands";
    NothingListedSeen(tool, fields, names, args);
  }

  /** A conditional policy whose names are neither the tool's own name nor
      found in the serialised arguments requires no approval. */
  lemma NothingListedSeen(tool: Tool, fields: seq<Field>, names: seq<Json>, args: Json)
    requires tool.requireApproval == Some(JObj(fields))
    requires Get(JObj(fields), "type") == Some(JStr("conditional"))
    requires Get(JObj(fields), "tool_names") == Some(JArr(names))
    requires JStr(tool.name) !in names
    requires forall i :: 0 <= i < |names| ==> !Contains(Stringify(args), JsString(names[i]))
    ensures CheckApprovalRequirement(tool, args) == NotRequired
  {
    ConditionalObject(tool, fields, names, args);
  }

  /** `system_commands` does not occur in the serialisation of the arguments
      above, which is that of `{server: "s1"}`: its `y` does not occur there. */
  lemma ShadowedText()
    ensures !Contains(Stringify(JObj([Field("server", JStr("system_commands")),
                                      Field("server", JStr("s1"))])), "system_commands")
  {
    RepeatedKeyAsLast(Field("server", JStr("system_commands")), Field("server", JStr("s1")));
    StringFieldLacks("server", "s1", "system_commands", 1);
  }

  /** An empty string among the names occurs in every serialisation, so every
      truthy argument value then requires approval. */
  lemma EmptyNameTriggersAll(tool: Tool, fields: seq<Field>, names: seq<Json>, args: Json)
    requires tool.requireApproval == Some(JObj(fields))
    requires Get(JObj(fields), "type") == Some(JStr("conditional"))
    requires Get(JObj(fields), "tool_names") == Some(JArr(names))
    requires JStr("") in names && Truthy(args)
    ensures CheckApprovalRequirement(tool, args).Required?
  {
    var i :| 0 <= i < |names| && names[i] == JStr("");
    assert OccursAt(Stringify(args), "", 0);
    assert Contains(Stringify(args), JsString(names[i]));
  }
}
