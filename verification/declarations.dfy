/** Tool declarations in the OpenAI function-calling shape shared by the plain
    tools and the MCP tools: a name, a JSON-schema `parameters` object, and the
    two MCP extensions `require_approval` and `allowed_tools`, kept as raw
    JSON because the code inspects them by duck typing. */
module Declarations {
  import opened Wrappers
  import opened Json

  /** One node of a parameter schema. Only the keywords the validator reads
      are kept; `description`, `default` and `format` have no effect. */
  datatype ParamDef = ParamDef(
    declaredType: Option<string>,   // `type`
    enumValues: Option<seq<Json>>,  // `enum`
    minimum: Option<int>,
    maximum: Option<int>,
    pattern: Option<string>,
    items: Option<ParamDef>,
    properties: seq<Property>,      // in declaration order
    required: seq<string>)

  datatype Property = Property(name: string, def: ParamDef)

  datatype Tool = Tool(
    name: string,
    parameters: ParamDef,
    requireApproval: Option<Json>,  // `require_approval`, absent when None
    allowedTools: Option<Json>)     // `allowed_tools`, absent when None

  /** A schema node that declares nothing. */
  const Untyped := ParamDef(None, None, None, None, None, None, [], [])

  function Typed(t: string): ParamDef
  {
    Untyped.(declaredType := Some(t))
  }

  // Builders for the schema literals of the tool registries.

  function Str(): ParamDef { Typed("string") }

  function StrEnum(values: seq<string>): ParamDef
  {
    Typed("string").(enumValues := Some(Strings(values)))
  }

  function Obj(props: seq<Property>, required: seq<string>): ParamDef
  {
    Typed("object").(properties := props, required := required)
  }

  function Bounded(t: string, lo: int, hi: int): ParamDef
  {
    Typed(t).(minimum := Some(lo), maximum := Some(hi))
  }

  function ArrayOf(item: ParamDef): ParamDef
  {
    Typed("array").(items := Some(item))
  }

  /** `def.type` is truthy and equal to `t`. */
  predicate DeclaresType(def: ParamDef, t: string)
  {
    def.declaredType == Some(t) && t != ""
  }

  /** `def.type` is truthy. */
  predicate HasDeclaredType(def: ParamDef)
  {
    def.declaredType.Some? && def.declaredType.value != ""
  }

  /** `tools.find(t => t.function.name === name)`: the first tool so named. */
  function FindTool(tools: seq<Tool>, name: string): (r: Option<Tool>)
    ensures r.Some? ==> r.value.name == name && r.value in tools
    ensures r.None? <==> forall i :: 0 <= i < |tools| ==> tools[i].name != name
  {
    if |tools| == 0 then None
    else if tools[0].name == name then Some(tools[0])
    else FindTool(tools[1..], name)
  }

  function Names(tools: seq<Tool>): (r: seq<string>)
    ensures |r| == |tools|
    ensures forall i :: 0 <= i < |tools| ==> r[i] == tools[i].name
  {
    seq(|tools|, i requires 0 <= i < |tools| => tools[i].name)
  }

  predicate DistinctNames(tools: seq<Tool>)
  {
    forall i, j :: 0 <= i < j < |tools| ==> tools[i].name != tools[j].name
  }

  /** With distinct names, lookup finds exactly the tool at each position. */
  lemma FindToolDistinct(tools: seq<Tool>, k: nat)
    requires DistinctNames(tools) && k < |tools|
    ensures FindTool(tools, tools[k].name) == Some(tools[k])
  {
    if k > 0 {
      FindToolDistinct(tools[1..], k - 1);
    }
  }
}
