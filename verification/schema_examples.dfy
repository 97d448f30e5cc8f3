/** The four schema examples of tests/test-mcp-schema.js, stated as facts
    about the model: an approval string, a required list, an allow-list and
    an object approval policy. The test tools declare only the field each
    example exercises. */
module SchemaExamples {
  import opened Wrappers
  import opened Text
  import opened Json
  import opened Declarations
  import opened Validator
  import opened Approval
  import opened Permission

  const NeverTool := Tool("test_tool", Untyped, Some(JStr("never")), None)

  const RepoTool := Tool("test_tool",
    Typed("object").(properties := [Property("repoName", Typed("string")), Property("optional", Typed("string"))],
                     required := ["repoName"]),
    None, None)

  const RestrictedTool := Tool("test_tool", Untyped, None, Some(JArr([JStr("ask_question")])))

  const SensitiveNames: seq<Json> := [JStr("ask_question"), JStr("read_wiki_structure")]

  const SensitivePolicy: seq<Field> :=
    [Field("type", JStr("conditional")), Field("tool_names", JArr(SensitiveNames)),
     Field("message", JStr("This tool accesses sensitive information"))]

  const SensitiveTool := Tool("test_tool", Untyped, Some(JObj(SensitivePolicy)), None)

  /** Example 1: `require_approval: 'never'` needs no approval. */
  lemma NeverExample()
    ensures CheckApprovalRequirement(NeverTool, JObj([])) == NotRequired
  {
  }

  /** Example 2: a missing `repoName` is the one error. */
  lemma RequiredMissingExample(matches: Matcher)
    ensures Validate(RepoTool, JObj([Field("optional", JStr("test"))]), matches)
         == Ok(Validation(false, ["Missing required parameter: repoName"], []))
  {
    var args := JObj([Field("optional", JStr("test"))]);
    var props := RepoTool.parameters.properties;
    assert !HasKey(args, "repoName");
    assert MissingErrors(["repoName"], args) == [MissingMessage("repoName")];
    assert MissingMessage("repoName") == "Missing required parameter: repoName";
    assert ValueErrors("optional", props[1].def, JStr("test"), matches) == [];
    assert PropertyErrors(props[1..], args, matches) == [];
    assert PropertyErrors(props, args, matches) == [];
    assert IsObject(args);
  }

  /** Both declared string properties are present with string values. */
  lemma RepoPropertyErrors(args: Json, matches: Matcher)
    requires args == JObj([Field("repoName", JStr("my-repo")), Field("optional", JStr("test"))])
    ensures PropertyErrors(RepoTool.parameters.properties, args, matches) == []
  {
    var props := RepoTool.parameters.properties;
    assert Get(args, "repoName") == Some(JStr("my-repo"));
    assert Get(args, "optional") == Some(JStr("test"));
    PlainStringAccepted("repoName", props[0].def, "my-repo", matches);
    PlainStringAccepted("optional", props[1].def, "test", matches);
    assert PropertyErrors(props[1..], args, matches) == [];
  }

  /** Example 2, continued: supplying `repoName` validates. */
  lemma RequiredPresentExample(matches: Matcher)
    ensures Validate(RepoTool, JObj([Field("repoName", JStr("my-repo")), Field("optional", JStr("test"))]), matches)
         == Ok(Validation(true, [], []))
  {
    var args := JObj([Field("repoName", JStr("my-repo")), Field("optional", JStr("test"))]);
    RepoPropertyErrors(args, matches);
    assert HasKey(args, "repoName");
    assert MissingErrors(["repoName"], args) == [];
  }

  /** Example 3: `allowed_tools: ['ask_question']` admits that tool... */
  lemma AllowListAdmits()
    ensures CheckToolCallPermission(RestrictedTool, "ask_question")
         == Permission(true, "Tool '" + "ask_question" + "' is in the allowed tools list", Some([JStr("ask_question")]))
  {
    assert Includes([JStr("ask_question")], JStr("ask_question"));
  }

  /** ...and refuses another, listing the allowed names. */
  lemma AllowListRefuses()
    ensures CheckToolCallPermission(RestrictedTool, "forbidden_tool")
         == Permission(false, "Tool '" + "forbidden_tool" + "' is not in the allowed tools list: [" + "ask_question" + "]",
                       Some([JStr("ask_question")]))
  {
    var list := [JStr("ask_question")];
    JoinJsSingle("ask_question", ", ");
    assert !Includes(list, JStr("forbidden_tool"));
  }

  /** The fields of the example policy object, read by destructuring. */
  lemma SensitivePolicyFields()
    ensures Get(JObj(SensitivePolicy), "type") == Some(JStr("conditional"))
    ensures Get(JObj(SensitivePolicy), "tool_names") == Some(JArr(SensitiveNames))
    ensures Get(JObj(SensitivePolicy), "message") == Some(JStr("This tool accesses sensitive information"))
  {
    var typeField := Field("type", JStr("conditional"));
    var namesField := Field("tool_names", JArr(SensitiveNames));
    var messageField := Field("message", JStr("This tool accesses sensitive information"));
    assert SensitivePolicy == [typeField] + [namesField] + [messageField];
    LastValueExtend([typeField] + [namesField], messageField, "type");
    LastValueExtend([typeField], namesField, "type");
    LastValueExtend([typeField] + [namesField], messageField, "tool_names");
  }

  lemma AskArgsContain(args: Json)
    requires args == JObj([Field("tool", JStr("ask_question"))])
    ensures Contains(Stringify(args), "ask_question")
  {
    assert forall i :: 0 <= i < |"tool"| ==> !NeedsEscape("tool"[i]);
    assert forall i :: 0 <= i < |"ask_question"| ==> !NeedsEscape("ask_question"[i]);
    StringFieldHas("tool", "ask_question");
  }

  lemma AskArgsTrigger(args: Json)
    requires args == JObj([Field("tool", JStr("ask_question"))])
    ensures Triggered("test_tool", SensitiveNames, args)
  {
    AskArgsContain(args);
    assert JsString(SensitiveNames[0]) == "ask_question";
  }

  /** Example 4: arguments naming a listed tool need approval, with the
      policy's message as the reason... */
  lemma ConditionalHitExample(args: Json)
    requires args == JObj([Field("tool", JStr("ask_question"))])
    ensures CheckApprovalRequirement(SensitiveTool, args)
         == Required(JStr("This tool accesses sensitive information"), "conditional", Some(SensitiveNames))
  {
    AskArgsTrigger(args);
    SensitivePolicyFields();
    ConditionalObject(SensitiveTool, SensitivePolicy, SensitiveNames, args);
    var d := CheckApprovalRequirement(SensitiveTool, args);
    assert d.Required?;
    assert Present(Get(JObj(SensitivePolicy), "message"));
  }

  lemma SafeToolLacksAsk(args: Json)
    requires args == JObj([Field("tool", JStr("safe_tool"))])
    ensures !Contains(Stringify(args), "ask_question")
  {
    StringFieldLacks("tool", "safe_tool", "ask_question", 2);
  }

  lemma SafeToolLacksWiki(args: Json)
    requires args == JObj([Field("tool", JStr("safe_tool"))])
    ensures !Contains(Stringify(args), "read_wiki_structure")
  {
    StringFieldLacks("tool", "safe_tool", "read_wiki_structure", 5);
  }

  lemma SafeToolNotTriggered(args: Json)
    requires args == JObj([Field("tool", JStr("safe_tool"))])
    ensures !Triggered("test_tool", SensitiveNames, args)
  {
    SafeToolLacksAsk(args);
    SafeToolLacksWiki(args);
    SensitiveNamesUnseen(Stringify(args));
  }

  /** A text containing neither listed name contains none of them, and the
      tool's own name is not listed. */
  lemma SensitiveNamesUnseen(text: string)
    requires !Contains(text, "ask_question") && !Contains(text, "read_wiki_structure")
    ensures forall i :: 0 <= i < |SensitiveNames| ==>
      SensitiveNames[i] != JStr("test_tool") && !Contains(text, JsString(SensitiveNames[i]))
  {
    assert JsString(SensitiveNames[0]) == "ask_question";
    assert JsString(SensitiveNames[1]) == "read_wiki_structure";
  }

  /** ...while arguments naming another tool do not. */
  lemma ConditionalMissExample(args: Json)
    requires args == JObj([Field("tool", JStr("safe_tool"))])
    ensures CheckApprovalRequirement(SensitiveTool, args) == NotRequired
  {
    SafeToolNotTriggered(args);
    SensitivePolicyFields();
    ConditionalObject(SensitiveTool, SensitivePolicy, SensitiveNames, args);
  }
}
