/** `checkToolCallPermission` (tools-mcp.js): the `allowed_tools` allow-list
    that restricts which tools one tool may call. */
module Permission {
  import opened Wrappers
  import opened Json
  import opened Declarations

  datatype Permission = Permission(allowed: bool, reason: string, allowedTools: Option<seq<Json>>)

  /** A falsy `allowed_tools` admits every target; an array admits exactly its
      string entries (and is reported back), so an empty array denies
      everything; any other value denies everything as an invalid
      configuration. */
  function CheckToolCallPermission(tool: Tool, target: string): (p: Permission)
    ensures !Present(tool.allowedTools) ==> p.allowed && p.allowedTools.None?
    ensures Present(tool.allowedTools) && tool.allowedTools.value.JArr? ==>
      && (p.allowed <==> target in AllowedNames(tool.allowedTools.value.items))
      && p.allowedTools == Some(tool.allowedTools.value.items)
    ensures Present(tool.allowedTools) && !tool.allowedTools.value.JArr? ==>
      !p.allowed && p.reason == "Invalid allowed_tools configuration"
  {
    var config := tool.allowedTools;
    if !Present(config) then Permission(true, "No tool restrictions specified", None)
    else if config.value.JArr? then
      var list := config.value.items;
      var ok := Includes(list, JStr(target));
      Permission(ok,
        if ok then "Tool '" + target + "' is in the allowed tools list"
        else "Tool '" + target + "' is not in the allowed tools list: [" + JoinJs(list, ", ") + "]",
        Some(list))
    else Permission(false, "Invalid allowed_tools configuration", None)
  }

  /** The set of names an allow-list admits: its string entries. */
  function AllowedNames(list: seq<Json>): (r: set<string>)
    ensures forall s :: s in r <==> JStr(s) in list
  {
    set i | 0 <= i < |list| && list[i].JStr? :: list[i].s
  }

  lemma EmptyListDeniesAll(tool: Tool, target: string)
    requires tool.allowedTools == Some(JArr([]))
    ensures !CheckToolCallPermission(tool, target).allowed
  {
  }
}
