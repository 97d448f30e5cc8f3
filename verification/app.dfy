/** app.js: the command-line chat client's `.env` loader, the shaping of
    the chat-completions request, and the result object of `getCompletion`.
    `process.env` is a map passed in and returned; the file system, the
    remote model and `parseFloat` are parameters. */
module App {
  import opened Wrappers
  import opened Text
  import opened Json
  import opened Declarations
  import opened Conversation

  type Env = map<string, string>

  // ================================================================ .env

  /** The `.env` file as `loadEnv` finds it: absent, unreadable (the read
      throws), or its text. */
  datatype EnvFile = Missing | Unreadable(message: string) | Contents(text: string)

  /** One line of the file: after trimming, a blank line or a `#` comment
      is skipped; otherwise the key is the text before the first `=` and the
      value all the text after it. A line without `=` or with an empty key
      is skipped. */
  function ParseLine(line: string): Option<(string, string)>
  {
    var t := Trim(line);
    if t == "" || t[0] == '#' then None
    else
      var parts := Split(t, '=');
      if parts[0] != "" && |parts| > 1 then Some((parts[0], Join(parts[1..], "="))) else None
  }

  /** `process.env[key] = value` for one parsed line. */
  function Define(env: Env, entry: Option<(string, string)>): Env
  {
    match entry
    case Some((k, v)) => env[k := v]
    case None => env
  }

  /** Every parsed line applied, in file order. */
  function ApplyLines(env: Env, lines: seq<string>): Env
  {
    if |lines| == 0 then env
    else Define(ApplyLines(env, lines[..|lines| - 1]), ParseLine(lines[|lines| - 1]))
  }

  /** The definition of `key` a parsed line makes, or else the `earlier` one. */
  function Latest(entry: Option<(string, string)>, key: string, earlier: Option<string>): Option<string>
  {
    if entry.Some? && entry.value.0 == key then Some(entry.value.1) else earlier
  }

  /** The value the last line defining `key` gives it, if any line does. */
  function LastDefinition(lines: seq<string>, key: string): Option<string>
  {
    if |lines| == 0 then None
    else Latest(ParseLine(lines[|lines| - 1]), key, LastDefinition(lines[..|lines| - 1], key))
  }

  const KeyName := "OPENAI_API_KEY"

  /** The API-key check: set, non-empty, and not the setup placeholder. */
  predicate KeyConfigured(env: Env)
  {
    KeyName in env && env[KeyName] != "" && env[KeyName] != "your_api_key_here"
  }

  const ErrorPrefix := "Configuration error: "

  /** The environment after `loadEnv` (it is changed even when the key check
      then fails) and the message of the error it throws, if any. */
  datatype EnvLoad = EnvLoad(env: Env, error: Option<string>)

  function LoadEnv(file: EnvFile, env: Env): (r: EnvLoad)
    ensures r.error.Some? ==> |r.error.value| >= |ErrorPrefix| && r.error.value[..|ErrorPrefix|] == ErrorPrefix
    ensures !file.Contents? ==> r.env == env && r.error.Some?
    ensures file.Missing? ==> r.error == Some(ErrorPrefix + ".env file not found. Run: node app.js setup")
    ensures file.Contents? ==> (r.error.None? <==> KeyConfigured(r.env))
  {
    match file
    case Missing => EnvLoad(env, Some(ErrorPrefix + ".env file not found. Run: node app.js setup"))
    case Unreadable(m) => EnvLoad(env, Some(ErrorPrefix + m))
    case Contents(text) =>
      var updated := ApplyLines(env, Split(text, '\n'));
      if KeyConfigured(updated) then EnvLoad(updated, None)
      else EnvLoad(updated, Some(ErrorPrefix + "OPENAI_API_KEY not configured in .env file"))
  }

  // ---------------------------------------------------------------- lemmas

  lemma FirstIndexAfter(a: string, c: char, b: string)
    requires c !in a
    ensures FirstIndex(a + [c] + b, c) == |a|
  {
    var s := a + [c] + b;
    assert s[|a|] == c;
    assert forall j :: 0 <= j < |a| ==> s[j] == a[j];
  }

  /** A well-formed `KEY=value` line parses back to its key and value; the
      value may itself contain `=`. */
  lemma ParseLineRoundTrip(key: string, value: string)
    requires key != "" && '=' !in key && key[0] != '#' && !IsJsSpace(key[0])
    requires value == "" || !IsJsSpace(value[|value| - 1])
    ensures ParseLine(key + "=" + value) == Some((key, value))
  {
    var t := key + "=" + value;
    assert t[0] == key[0];
    assert t[|t| - 1] == if value == "" then '=' else value[|value| - 1];
    TrimNoop(t);
    FirstIndexAfter(key, '=', value);
    assert t == key + ['='] + value;
    assert t[..|key|] == key && t[|key| + 1..] == value;
    assert Split(t, '=') == [key] + Split(value, '=');
    SplitJoin(value, '=');
  }

  /** Conversely, a parsed line is, after trimming, its key, `=`, and its
      value, and the key is non-empty, free of `=` and not a comment. */
  lemma ParseLineSpec(line: string, key: string, value: string)
    requires ParseLine(line) == Some((key, value))
    ensures key != "" && '=' !in key && key[0] != '#'
    ensures Trim(line) == key + "=" + value
  {
    var t := Trim(line);
    var parts := Split(t, '=');
    SplitJoin(t, '=');
    assert Join(parts, "=") == parts[0] + "=" + Join(parts[1..], "=");
    assert key == parts[0];
    assert |t| > 0 && t[0] == key[0];
  }

  /** What a key holds after some lines, given its latest definition
      `d` among them and the starting environment. */
  ghost predicate Holds(r: Env, d: Option<string>, env: Env, key: string)
  {
    match d
    case Some(v) => key in r && r[key] == v
    case None => (key in r <==> key in env) && (key in env ==> r[key] == env[key])
  }

  /** One more line keeps `Holds` with the updated latest definition. */
  lemma DefineLookup(before: Env, entry: Option<(string, string)>, key: string, earlier: Option<string>, env: Env)
    requires Holds(before, earlier, env, key)
    ensures Holds(Define(before, entry), Latest(entry, key, earlier), env, key)
  {
  }

  /** After the file is applied, a key holds the value of its last
      definition in the file, and keys the file does not define keep their
      value (or stay unset). */
  lemma {:induction false} ApplyLinesLookup(env: Env, lines: seq<string>, key: string)
    ensures var r := ApplyLines(env, lines);
      match LastDefinition(lines, key)
      case Some(v) => key in r && r[key] == v
      case None => (key in r <==> key in env) && (key in env ==> r[key] == env[key])
  {
    if |lines| > 0 {
      var front := lines[..|lines| - 1];
      ApplyLinesLookup(env, front, key);
      DefineLookup(ApplyLines(env, front), ParseLine(lines[|lines| - 1]), key, LastDefinition(front, key), env);
    }
  }

  /** Whether loading succeeds depends on the key's last definition in the
      file, or, when the file does not define it, on the environment. */
  lemma LoadEnvKeyCheck(text: string, env: Env)
    ensures var r := LoadEnv(Contents(text), env);
      var d := LastDefinition(Split(text, '\n'), KeyName);
      && (d.Some? ==> (r.error.None? <==> d.value != "" && d.value != "your_api_key_here"))
      && (d.None? ==> (r.error.None? <==> KeyConfigured(env)))
  {
    ApplyLinesLookup(env, Split(text, '\n'), KeyName);
  }

  // ================================================================ numbers

  /** The value of a digit in bases up to 36; 36 for any other character. */
  function DigitValue(c: char): (d: nat)
    ensures d <= 36
  {
    if '0' <= c <= '9' then c as int - '0' as int
    else if 'a' <= c <= 'z' then c as int - 'a' as int + 10
    else if 'A' <= c <= 'Z' then c as int - 'A' as int + 10
    else 36
  }

  predicate IsRadixDigit(c: char, radix: nat)
  {
    DigitValue(c) < radix
  }

  /** The longest prefix of `s` made of digits of `radix`. */
  function DigitPrefix(s: string, radix: nat): (r: string)
    ensures |r| <= |s| && r == s[..|r|]
    ensures forall i :: 0 <= i < |r| ==> IsRadixDigit(r[i], radix)
    ensures |r| < |s| ==> !IsRadixDigit(s[|r|], radix)
  {
    if |s| == 0 || !IsRadixDigit(s[0], radix) then "" else [s[0]] + DigitPrefix(s[1..], radix)
  }

  /** The value of a run of digits in base `radix`, most significant first. */
  function RadixValue(ds: string, radix: nat): nat
  {
    if |ds| == 0 then 0
    else radix * RadixValue(ds[..|ds| - 1], radix) + DigitValue(ds[|ds| - 1])
  }

  /** `v`, negated when `negative`. */
  function Signed(negative: bool, v: nat): int
  {
    var w: int := v;
    if negative then -w else w
  }

  /** A leading `-` or `+` of `t`, removed; reports whether it was `-`. */
  function StripSign(t: string): (bool, string)
  {
    if |t| > 0 && (t[0] == '-' || t[0] == '+') then (t[0] == '-', t[1..]) else (false, t)
  }

  /** The unsigned part of `parseInt`: `0x`/`0X` selects base 16, then the
      longest run of digits is read; no digit at all is `NaN`. */
  function ParseMagnitude(u: string): Option<nat>
  {
    var hex := |u| >= 2 && u[0] == '0' && (u[1] == 'x' || u[1] == 'X');
    var radix := if hex then 16 else 10;
    var digits := DigitPrefix(if hex then u[2..] else u, radix);
    if |digits| == 0 then None else Some(RadixValue(digits, radix))
  }

  /** `parseInt(s)` with no radix; `None` is `NaN`. Leading whitespace and a
      sign are skipped; anything after the digits is ignored. */
  function ParseInt(s: string): Option<int>
  {
    var signed := StripSign(TrimStart(s));
    match ParseMagnitude(signed.1)
    case None => None
    case Some(v) => Some(Signed(signed.0, v))
  }

  lemma {:induction false} RadixTenIsDecimal(ds: string)
    requires forall i :: 0 <= i < |ds| ==> IsDigit(ds[i])
    ensures forall i :: 0 <= i < |ds| ==> IsRadixDigit(ds[i], 10)
    ensures RadixValue(ds, 10) == DigitsValue(ds)
  {
    if |ds| > 0 {
      RadixTenIsDecimal(ds[..|ds| - 1]);
    }
  }

  lemma {:induction false} DigitPrefixAll(s: string, radix: nat)
    requires forall i :: 0 <= i < |s| ==> IsRadixDigit(s[i], radix)
    ensures DigitPrefix(s, radix) == s
  {
    if |s| > 0 {
      DigitPrefixAll(s[1..], radix);
    }
  }

  /** A run of decimal digits that is not a `0x` prefix reads as its value. */
  lemma ParseMagnitudeDecimal(ds: string)
    requires |ds| > 0 && forall i :: 0 <= i < |ds| ==> IsDigit(ds[i])
    ensures ParseMagnitude(ds) == Some(DigitsValue(ds))
  {
    var hex := |ds| >= 2 && ds[0] == '0' && (ds[1] == 'x' || ds[1] == 'X');
    if |ds| >= 2 {
      assert IsDigit(ds[1]);
    }
    assert !hex;
    RadixTenIsDecimal(ds);
    DigitPrefixAll(ds, 10);
    assert DigitPrefix(ds, 10) == ds;
  }

  /** Leading whitespace and the sign of `-digits` or `digits` come off as
      the sign and the digits. */
  lemma SignedDigitsSplit(negative: bool, ds: string)
    requires |ds| > 0 && IsDigit(ds[0])
    ensures StripSign(TrimStart((if negative then "-" else "") + ds)) == (negative, ds)
  {
    var s := (if negative then "-" else "") + ds;
    if negative {
      assert s[0] == '-' && s[1..] == ds;
    } else {
      assert s == ds;
    }
    TrimStartNoop(s);
  }

  /** The same, after an optional `-`. */
  lemma ParseIntDecimal(negative: bool, ds: string)
    requires |ds| > 0 && forall i :: 0 <= i < |ds| ==> IsDigit(ds[i])
    ensures ParseInt((if negative then "-" else "") + ds) == Some(Signed(negative, DigitsValue(ds)))
  {
    SignedDigitsSplit(negative, ds);
    ParseMagnitudeDecimal(ds);
  }

  /** `parseInt` reads back the decimal text of any integer. */
  lemma ParseIntOfIntToString(n: int)
    ensures ParseInt(IntToString(n)) == Some(n)
  {
    var m: nat := if n < 0 then -n else n;
    DigitsValueOfNatToString(m);
    ParseIntDecimal(n < 0, NatToString(m));
    assert IntToString(n) == (if n < 0 then "-" else "") + NatToString(m);
  }

  // ================================================================ request

  /** `parseFloat`; `None` is `NaN`. Float parsing is not modelled. */
  type FloatParser = string -> Option<real>

  /** `parseInt(process.env.OPENAI_MAX_TOKENS) || 2000`: NaN and 0 fall back. */
  function MaxTokens(env: Env): (r: int)
    ensures r != 0
  {
    if "OPENAI_MAX_TOKENS" !in env then 2000
    else match ParseInt(env["OPENAI_MAX_TOKENS"])
      case None => 2000
      case Some(n) => if n == 0 then 2000 else n
  }

  /** `parseFloat(process.env.OPENAI_TEMPERATURE) || 0.7`: an unset setting,
      one that is not a number (NaN, `None`) and zero all fall back to 0.7;
      any other number is used as it is. */
  function Temperature(env: Env, parseFloat: FloatParser): (r: real)
    ensures r != 0.0
    ensures "OPENAI_TEMPERATURE" !in env ==> r == 0.7
    ensures "OPENAI_TEMPERATURE" in env ==>
      var x := parseFloat(env["OPENAI_TEMPERATURE"]);
      && (x.None? || x == Some(0.0) ==> r == 0.7)
      && (x.Some? && x.value != 0.0 ==> r == x.value)
  {
    if "OPENAI_TEMPERATURE" !in env then 0.7
    else match parseFloat(env["OPENAI_TEMPERATURE"])
      case None => 0.7
      case Some(x) => if x == 0.0 then 0.7 else x
  }

  /** `process.env.OPENAI_MODEL || 'gpt-4'`. */
  function ModelName(env: Env): (r: string)
    ensures "OPENAI_MODEL" in env && env["OPENAI_MODEL"] != "" ==> r == env["OPENAI_MODEL"]
    ensures "OPENAI_MODEL" !in env || env["OPENAI_MODEL"] == "" ==> r == "gpt-4"
  {
    if "OPENAI_MODEL" in env && env["OPENAI_MODEL"] != "" then env["OPENAI_MODEL"] else "gpt-4"
  }

  /** The options `makeOpenAIRequest(messages, tools)` sends. */
  function RequestOptions(env: Env, messages: seq<Message>, tools: Option<seq<Tool>>, parseFloat: FloatParser): (r: Request)
    ensures r.messages == messages
    ensures r.model == ModelName(env) && r.maxTokens == MaxTokens(env) && r.temperature == Temperature(env, parseFloat)
    ensures r.tools.Some? <==> tools.Some? && |tools.value| > 0
    ensures r.tools.Some? ==> r.tools == tools && r.toolChoice == Some("auto")
    ensures r.tools.None? ==> r.toolChoice.None?
  {
    var offered := tools.Some? && |tools.value| > 0;
    Request(ModelName(env), messages, MaxTokens(env), Temperature(env, parseFloat),
            if offered then tools else None, if offered then Some("auto") else None)
  }

  /** The token limit follows a positive or negative decimal setting and
      falls back to 2000 when it is unset, zero, or not a number. */
  lemma MaxTokensSetting(env: Env, n: int)
    ensures "OPENAI_MAX_TOKENS" !in env ==> MaxTokens(env) == 2000
    ensures "OPENAI_MAX_TOKENS" in env && env["OPENAI_MAX_TOKENS"] == IntToString(n) ==>
      MaxTokens(env) == if n == 0 then 2000 else n
  {
    ParseIntOfIntToString(n);
  }

  /** `makeOpenAIRequest`: a failing call is rethrown with a prefix. */
  function MakeOpenAIRequest(env: Env, messages: seq<Message>, tools: Option<seq<Tool>>,
                             parseFloat: FloatParser, complete: Complete): (r: Result<Reply, string>)
    ensures complete(RequestOptions(env, messages, tools, parseFloat)).Err? ==>
      r == Err("OpenAI API error: " + complete(RequestOptions(env, messages, tools, parseFloat)).error)
    ensures complete(RequestOptions(env, messages, tools, parseFloat)).Ok? ==>
      r == complete(RequestOptions(env, messages, tools, parseFloat))
  {
    match complete(RequestOptions(env, messages, tools, parseFloat))
    case Err(e) => Err("OpenAI API error: " + e)
    case Ok(reply) => Ok(reply)
  }

  // ================================================================ result

  /** An entry of `tools_used`. */
  datatype ToolUse = ToolUse(name: string, arguments: Json)

  /** `message.tool_calls.map(call => ({name, arguments: JSON.parse(...)}))`;
      the first argument text that does not parse throws. */
  function ToolsUsed(calls: seq<ToolCall>, parse: string -> Result<Json, string>): (r: Result<seq<ToolUse>, string>)
    ensures r.Ok? <==> forall i :: 0 <= i < |calls| ==> parse(calls[i].arguments).Ok?
    ensures r.Ok? ==> |r.value| == |calls|
    ensures r.Ok? ==> forall i :: 0 <= i < |calls| ==>
      r.value[i] == ToolUse(calls[i].name, parse(calls[i].arguments).value)
    ensures r.Err? ==> exists i :: 0 <= i < |calls| && parse(calls[i].arguments) == Err(r.error) &&
                                  forall j :: 0 <= j < i ==> parse(calls[j].arguments).Ok?
  {
    if |calls| == 0 then Ok([])
    else match parse(calls[0].arguments)
      case Err(e) => Err(e)
      case Ok(args) =>
        match ToolsUsed(calls[1..], parse)
        case Err(e) =>
          assert forall i :: 1 <= i < |calls| ==> calls[i] == calls[1..][i - 1];
          Err(e)
        case Ok(rest) =>
          assert forall i :: 1 <= i < |calls| ==> calls[i] == calls[1..][i - 1];
          Ok([ToolUse(calls[0].name, args)] + rest)
  }

  /** What `getCompletion` resolves to. */
  datatype Completion =
    | Completed(response: Option<string>, usage: Json, model: string, toolsUsed: seq<ToolUse>)
    | Failed(error: string)

  /** `{response, usage, model, tools_used}` or
      `{error, response: null, usage: null, model: null, tools_used: []}`. */
  function CompletionJson(c: Completion): (r: Json)
    ensures c.Failed? ==> (Get(r, "error") == Some(JStr(c.error)) && Get(r, "response") == Some(JNull) &&
                           Get(r, "usage") == Some(JNull) && Get(r, "model") == Some(JNull) &&
                           Get(r, "tools_used") == Some(JArr([])))
    ensures c.Completed? ==> (Get(r, "error").None? && Get(r, "model") == Some(JStr(c.model)))
    ensures c.Completed? && c.response.Some? ==> Get(r, "response") == Some(JStr(c.response.value))
    ensures c.Completed? && c.response.None? ==> Get(r, "response") == Some(JNull)
    ensures c.Completed? ==> Get(r, "usage") == Some(c.usage) && Get(r, "tools_used") == Some(ToolUsesJson(c.toolsUsed))
  {
    match c
    case Failed(e) => FailureJson(e)
    case Completed(response, usage, model, uses) =>
      SuccessJson(if response.Some? then JStr(response.value) else JNull, usage, model, uses)
  }

  /** `{response, usage, model, tools_used}`. */
  function SuccessJson(response: Json, usage: Json, model: string, uses: seq<ToolUse>): (r: Json)
    ensures Get(r, "error").None? && Get(r, "response") == Some(response) && Get(r, "usage") == Some(usage)
    ensures Get(r, "model") == Some(JStr(model)) && Get(r, "tools_used") == Some(ToolUsesJson(uses))
  {
    var fields := [Field("response", response), Field("usage", usage), Field("model", JStr(model)),
                   Field("tools_used", ToolUsesJson(uses))];
    LastValueUnique(fields, 0);
    LastValueUnique(fields, 1);
    LastValueUnique(fields, 2);
    LastValueUnique(fields, 3);
    JObj(fields)
  }

  function FailureJson(e: string): (r: Json)
    ensures Get(r, "error") == Some(JStr(e)) && Get(r, "response") == Some(JNull)
    ensures Get(r, "usage") == Some(JNull)
    ensures Get(r, "model") == Some(JNull) && Get(r, "tools_used") == Some(JArr([]))
  {
    var fields := [Field("error", JStr(e)), Field("response", JNull), Field("usage", JNull),
                   Field("model", JNull), Field("tools_used", JArr([]))];
    LastValueUnique(fields, 0);
    LastValueUnique(fields, 1);
    LastValueUnique(fields, 2);
    LastValueUnique(fields, 3);
    LastValueUnique(fields, 4);
    JObj(fields)
  }

  /** `tools_used` as an array of `{name, arguments}` objects. */
  function ToolUsesJson(uses: seq<ToolUse>): (r: Json)
    ensures r.JArr? && |r.items| == |uses|
    ensures forall i :: 0 <= i < |uses| ==>
      Get(r.items[i], "name") == Some(JStr(uses[i].name)) && Get(r.items[i], "arguments") == Some(uses[i].arguments)
  {
    JArr(seq(|uses|, i requires 0 <= i < |uses| => UseJson(uses[i])))
  }

  function UseJson(u: ToolUse): (r: Json)
    ensures Get(r, "name") == Some(JStr(u.name)) && Get(r, "arguments") == Some(u.arguments)
  {
    var fields := [Field("name", JStr(u.name)), Field("arguments", u.arguments)];
    LastValueUnique(fields, 0);
    LastValueUnique(fields, 1);
    JObj(fields)
  }

  /** `getCompletion(prompt, tools)`: never throws; returns the environment
      `loadEnv` left behind with the result. */
  function GetCompletion(prompt: string, tools: Option<seq<Tool>>, file: EnvFile, env: Env,
                         parseFloat: FloatParser, parse: string -> Result<Json, string>,
                         complete: Complete): (r: (Env, Completion))
    ensures LoadEnv(file, env).error.Some? ==> r.1 == Failed(LoadEnv(file, env).error.value)
    ensures r.0 == LoadEnv(file, env).env
  {
    var load := LoadEnv(file, env);
    if load.error.Some? then (load.env, Failed(load.error.value))
    else match MakeOpenAIRequest(load.env, [UserMsg(prompt)], tools, parseFloat, complete)
      case Err(e) => (load.env, Failed(e))
      case Ok(reply) =>
        match ToolsUsed(reply.toolCalls, parse)
        case Err(e) => (load.env, Failed(e))
        case Ok(uses) => (load.env, Completed(reply.content, reply.usage, reply.model, uses))
  }

  /** A completion succeeds exactly when the configuration loads, the call
      succeeds and every proposed call's arguments parse; it then lists one
      entry per proposed call, in order, and none when there are none. */
  lemma GetCompletionIff(prompt: string, tools: Option<seq<Tool>>, file: EnvFile, env: Env,
                         parseFloat: FloatParser, parse: string -> Result<Json, string>, complete: Complete)
    ensures var r := GetCompletion(prompt, tools, file, env, parseFloat, parse, complete).1;
      var load := LoadEnv(file, env);
      var call := complete(RequestOptions(load.env, [UserMsg(prompt)], tools, parseFloat));
      && (r.Completed? <==>
            load.error.None? && call.Ok?
            && forall i :: 0 <= i < |call.value.toolCalls| ==> parse(call.value.toolCalls[i].arguments).Ok?)
      && (r.Completed? ==>
            && r.response == call.value.content && r.model == call.value.model
            && |r.toolsUsed| == |call.value.toolCalls|
            && forall i :: 0 <= i < |r.toolsUsed| ==>
                 r.toolsUsed[i] == ToolUse(call.value.toolCalls[i].name, parse(call.value.toolCalls[i].arguments).value))
      && (load.error.None? && call.Err? ==> r == Failed("OpenAI API error: " + call.error))
  {
  }
}
