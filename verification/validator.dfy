/** `validateToolParameters` (tools-mcp.js): checks a parsed argument value
    against a tool's `parameters` schema and collects every error in a fixed
    order instead of stopping at the first. */
module Validator {
  import opened Wrappers
  import opened Text
  import opened Json
  import opened Declarations

  datatype Validation = Validation(valid: bool, errors: seq<string>, warnings: seq<string>)

  /** `new RegExp(pattern).test(text)`; the regular-expression engine is not
      modelled, so callers supply it. */
  type Matcher = (string, string) -> bool

  // ---------------------------------------------------------------- messages

  function MissingMessage(name: string): string
  {
    "Missing required parameter: " + name
  }

  function TypeMessage(name: string, t: string): string
  {
    "Parameter '" + name + "' must be of type " + t
  }

  function EnumMessage(name: string, allowed: seq<Json>): string
  {
    "Parameter '" + name + "' must be one of: " + JoinJs(allowed, ", ")
  }

  function ItemTypeMessage(index: nat, name: string, t: string): string
  {
    "Array item at index " + NatToString(index) + " in '" + name + "' must be of type " + t
  }

  function ItemEnumMessage(index: nat, name: string, allowed: seq<Json>): string
  {
    "Array item at index " + NatToString(index) + " in '" + name + "' must be one of: " + JoinJs(allowed, ", ")
  }

  function MinMessage(name: string, bound: int): string
  {
    "Parameter '" + name + "' must be >= " + IntToString(bound)
  }

  function MaxMessage(name: string, bound: int): string
  {
    "Parameter '" + name + "' must be <= " + IntToString(bound)
  }

  function PatternMessage(name: string, pattern: string): string
  {
    "Parameter '" + name + "' does not match required pattern: " + pattern
  }

  /** Messages about a present parameter start with `P` or `A`; only the
      missing-parameter message starts with `M`. */
  predicate IsValueMessage(e: string)
  {
    |e| > 0 && (e[0] == 'P' || e[0] == 'A')
  }

  predicate IsMissingMessage(e: string)
  {
    |e| > 0 && e[0] == 'M'
  }

  // ---------------------------------------------------------------- checks

  /** The type test `!(type && typeof v !== type && !(type === 'array' && Array.isArray(v)))`. */
  predicate TypeOk(def: ParamDef, v: Json)
  {
    !HasDeclaredType(def) || Typeof(v) == def.declaredType.value
    || (def.declaredType.value == "array" && v.JArr?)
  }

  function MissingErrors(required: seq<string>, args: Json): (es: seq<string>)
    ensures forall i :: 0 <= i < |es| ==> IsMissingMessage(es[i])
  {
    if |required| == 0 then []
    else (if HasKey(args, required[0]) then [] else [MissingMessage(required[0])])
         + MissingErrors(required[1..], args)
  }

  /** Errors for elements `i..` of an array whose items must have type `t`. */
  function ItemTypeErrors(name: string, t: string, items: seq<Json>, i: nat): (es: seq<string>)
    ensures forall k :: 0 <= k < |es| ==> IsValueMessage(es[k])
    decreases |items| - i
  {
    if i >= |items| then []
    else (if Typeof(items[i]) != t then [ItemTypeMessage(i, name, t)] else [])
         + ItemTypeErrors(name, t, items, i + 1)
  }

  function ItemEnumErrors(name: string, allowed: seq<Json>, items: seq<Json>, i: nat): (es: seq<string>)
    ensures forall k :: 0 <= k < |es| ==> IsValueMessage(es[k])
    decreases |items| - i
  {
    if i >= |items| then []
    else (if !Includes(allowed, items[i]) then [ItemEnumMessage(i, name, allowed)] else [])
         + ItemEnumErrors(name, allowed, items, i + 1)
  }

  /** Per-element checks of an array parameter: every item-type error, then
      every item-enum error. Item `properties` and `required` are not read. */
  function ArrayErrors(name: string, def: ParamDef, v: Json): (es: seq<string>)
    ensures forall k :: 0 <= k < |es| ==> IsValueMessage(es[k])
  {
    if def.declaredType == Some("array") && v.JArr? && def.items.Some? then
      var it := def.items.value;
      (if HasDeclaredType(it) then ItemTypeErrors(name, it.declaredType.value, v.items, 0) else [])
      + (if it.enumValues.Some? then ItemEnumErrors(name, it.enumValues.value, v.items, 0) else [])
    else []
  }

  function NumberErrors(name: string, def: ParamDef, v: Json): (es: seq<string>)
    ensures forall k :: 0 <= k < |es| ==> IsValueMessage(es[k])
  {
    if def.declaredType == Some("number") && v.JNum? then
      (if def.minimum.Some? && v.n < def.minimum.value then [MinMessage(name, def.minimum.value)] else [])
      + (if def.maximum.Some? && v.n > def.maximum.value then [MaxMessage(name, def.maximum.value)] else [])
    else []
  }

  function PatternErrors(name: string, def: ParamDef, v: Json, matches: Matcher): (es: seq<string>)
    ensures forall k :: 0 <= k < |es| ==> IsValueMessage(es[k])
  {
    if def.declaredType == Some("string") && def.pattern.Some? && def.pattern.value != ""
       && v.JStr? && !matches(def.pattern.value, v.s)
    then [PatternMessage(name, def.pattern.value)]
    else []
  }

  /** All errors about one present parameter, in the order the code adds them:
      type, enum, array items, numeric bounds, pattern. */
  function ValueErrors(name: string, def: ParamDef, v: Json, matches: Matcher): (es: seq<string>)
    ensures forall k :: 0 <= k < |es| ==> IsValueMessage(es[k])
  {
    (if TypeOk(def, v) then [] else [TypeMessage(name, def.declaredType.value)])
    + (if def.enumValues.Some? && !Includes(def.enumValues.value, v)
       then [EnumMessage(name, def.enumValues.value)] else [])
    + ArrayErrors(name, def, v)
    + NumberErrors(name, def, v)
    + PatternErrors(name, def, v, matches)
  }

  /** Errors of every declared property present in `args`, in declaration
      order; keys of `args` that are not declared are never looked at. */
  function PropertyErrors(props: seq<Property>, args: Json, matches: Matcher): (es: seq<string>)
    ensures forall k :: 0 <= k < |es| ==> IsValueMessage(es[k])
  {
    if |props| == 0 then []
    else (if HasKey(args, props[0].name)
          then ValueErrors(props[0].name, props[0].def, Get(args, props[0].name).value, matches)
          else [])
         + PropertyErrors(props[1..], args, matches)
  }

  /** The TypeError `key in args` throws when `args` is not an object. */
  function InOperatorError(key: string, args: Json): string
  {
    "Cannot use 'in' operator to search for '" + key + "' in " + JsString(args)
  }

  /** `validateToolParameters(tool, args)`. The first `in` test on an `args`
      that is not an object throws; otherwise the result is returned. */
  function Validate(tool: Tool, args: Json, matches: Matcher): (r: Result<Validation, string>)
    ensures r.Err? <==> !IsObject(args) && (|tool.parameters.required| > 0 || |tool.parameters.properties| > 0)
    ensures r.Ok? ==> r.value.warnings == [] && (r.value.valid <==> r.value.errors == [])
  {
    var p := tool.parameters;
    if !IsObject(args) && |p.required| > 0 then Err(InOperatorError(p.required[0], args))
    else if !IsObject(args) && |p.properties| > 0 then Err(InOperatorError(p.properties[0].name, args))
    else
      var errors := MissingErrors(p.required, args) + PropertyErrors(p.properties, args, matches);
      Ok(Validation(|errors| == 0, errors, []))
  }

  // ================================================================ reference

  /** Independent statement of what a present value must satisfy. */
  predicate Conforms(def: ParamDef, v: Json, matches: Matcher)
  {
    && TypeOk(def, v)
    && (def.enumValues.Some? ==> Includes(def.enumValues.value, v))
    && (def.declaredType == Some("array") && v.JArr? && def.items.Some? ==>
          && (HasDeclaredType(def.items.value) ==>
                forall i :: 0 <= i < |v.items| ==> Typeof(v.items[i]) == def.items.value.declaredType.value)
          && (def.items.value.enumValues.Some? ==>
                forall i :: 0 <= i < |v.items| ==> Includes(def.items.value.enumValues.value, v.items[i])))
    && (def.declaredType == Some("number") && v.JNum? ==>
          && (def.minimum.Some? ==> def.minimum.value <= v.n)
          && (def.maximum.Some? ==> v.n <= def.maximum.value))
    && (def.declaredType == Some("string") && def.pattern.Some? && def.pattern.value != "" && v.JStr? ==>
          matches(def.pattern.value, v.s))
  }

  /** Every required name is a key of `args`. */
  predicate AllRequiredPresent(required: seq<string>, args: Json)
  {
    forall k :: 0 <= k < |required| ==> HasKey(args, required[k])
  }

  /** Every declared property that `args` has conforms to its declaration. */
  predicate AllPresentConform(props: seq<Property>, args: Json, matches: Matcher)
  {
    forall k :: 0 <= k < |props| && HasKey(args, props[k].name) ==>
      Conforms(props[k].def, Get(args, props[k].name).value, matches)
  }

  // ================================================================ lemmas

  lemma {:induction false} ItemTypeErrorsEmpty(name: string, t: string, items: seq<Json>, i: nat)
    ensures ItemTypeErrors(name, t, items, i) == [] <==>
      forall k :: i <= k < |items| ==> Typeof(items[k]) == t
  {
    if forall k :: i <= k < |items| ==> Typeof(items[k]) == t {
      ItemTypeErrorsNone(name, t, items, i);
    } else {
      var k :| i <= k < |items| && Typeof(items[k]) != t;
      ItemTypeErrorsSome(name, t, items, i, k);
    }
  }

  lemma {:induction false} ItemTypeErrorsNone(name: string, t: string, items: seq<Json>, i: nat)
    requires forall k :: i <= k < |items| ==> Typeof(items[k]) == t
    ensures ItemTypeErrors(name, t, items, i) == []
    decreases |items| - i
  {
    if i < |items| {
      ItemTypeErrorsNone(name, t, items, i + 1);
      ItemTypeErrorsStep(name, t, items, i);
    }
  }

  lemma {:induction false} ItemTypeErrorsSome(name: string, t: string, items: seq<Json>, i: nat, k: nat)
    requires i <= k < |items| && Typeof(items[k]) != t
    ensures ItemTypeErrors(name, t, items, i) != []
    decreases k - i
  {
    ItemTypeErrorsStep(name, t, items, i);
    if k > i && Typeof(items[i]) == t {
      ItemTypeErrorsSome(name, t, items, i + 1, k);
    }
  }

  /** Item `i` adds nothing when it has the type, and an error otherwise. */
  lemma ItemTypeErrorsStep(name: string, t: string, items: seq<Json>, i: nat)
    requires i < |items|
    ensures Typeof(items[i]) == t ==> ItemTypeErrors(name, t, items, i) == ItemTypeErrors(name, t, items, i + 1)
    ensures Typeof(items[i]) != t ==> ItemTypeErrors(name, t, items, i) != []
  {
    var rest := ItemTypeErrors(name, t, items, i + 1);
    if Typeof(items[i]) == t {
      assert ItemTypeErrors(name, t, items, i) == [] + rest;
    } else {
      assert ItemTypeErrors(name, t, items, i) == [ItemTypeMessage(i, name, t)] + rest;
    }
  }

  lemma {:induction false} ItemEnumErrorsEmpty(name: string, allowed: seq<Json>, items: seq<Json>, i: nat)
    ensures ItemEnumErrors(name, allowed, items, i) == [] <==>
      forall k :: i <= k < |items| ==> Includes(allowed, items[k])
    decreases |items| - i
  {
    if i < |items| {
      ItemEnumErrorsEmpty(name, allowed, items, i + 1);
    }
  }

  /** A present value draws no error exactly when it conforms. */
  lemma ValueErrorsEmpty(name: string, def: ParamDef, v: Json, matches: Matcher)
    ensures ValueErrors(name, def, v, matches) == [] <==> Conforms(def, v, matches)
  {
    ArrayErrorsEmpty(name, def, v);
  }

  /** No per-element error exactly when every element of an array parameter
      has the declared item type and is one of the allowed item values. */
  lemma ArrayErrorsEmpty(name: string, def: ParamDef, v: Json)
    ensures ArrayErrors(name, def, v) == [] <==>
      (def.declaredType == Some("array") && v.JArr? && def.items.Some? ==>
          && (HasDeclaredType(def.items.value) ==>
                forall i :: 0 <= i < |v.items| ==> Typeof(v.items[i]) == def.items.value.declaredType.value)
          && (def.items.value.enumValues.Some? ==>
                forall i :: 0 <= i < |v.items| ==> Includes(def.items.value.enumValues.value, v.items[i])))
  {
    if def.declaredType == Some("array") && v.JArr? && def.items.Some? {
      var it := def.items.value;
      if HasDeclaredType(it) {
        ItemTypeErrorsEmpty(name, it.declaredType.value, v.items, 0);
      }
      if it.enumValues.Some? {
        ItemEnumErrorsEmpty(name, it.enumValues.value, v.items, 0);
      }
    }
  }

  /** A plain `{type: 'string'}` declaration accepts every string. */
  lemma PlainStringAccepted(name: string, def: ParamDef, s: string, matches: Matcher)
    requires def == Typed("string")
    ensures ValueErrors(name, def, JStr(s), matches) == []
  {
  }

  lemma {:induction false} MissingErrorsEmpty(required: seq<string>, args: Json)
    ensures MissingErrors(required, args) == [] <==> AllRequiredPresent(required, args)
  {
    if |required| > 0 {
      MissingErrorsEmpty(required[1..], args);
      assert AllRequiredPresent(required, args) <==>
        HasKey(args, required[0]) && AllRequiredPresent(required[1..], args) by {
        if HasKey(args, required[0]) && AllRequiredPresent(required[1..], args) {
          forall k | 0 <= k < |required| ensures HasKey(args, required[k]) {
            if k > 0 { assert required[k] == required[1..][k - 1]; }
          }
        }
      }
    }
  }

  lemma {:induction false} PropertyErrorsEmpty(props: seq<Property>, args: Json, matches: Matcher)
    ensures PropertyErrors(props, args, matches) == [] <==> AllPresentConform(props, args, matches)
  {
    if |props| > 0 {
      PropertyErrorsEmpty(props[1..], args, matches);
      var name := props[0].name;
      if HasKey(args, name) {
        ValueErrorsEmpty(name, props[0].def, Get(args, name).value, matches);
      }
      assert AllPresentConform(props, args, matches) <==>
        (HasKey(args, name) ==> Conforms(props[0].def, Get(args, name).value, matches))
        && AllPresentConform(props[1..], args, matches) by {
        if (HasKey(args, name) ==> Conforms(props[0].def, Get(args, name).value, matches))
           && AllPresentConform(props[1..], args, matches) {
          forall k | 0 <= k < |props| && HasKey(args, props[k].name)
            ensures Conforms(props[k].def, Get(args, props[k].name).value, matches)
          {
            if k > 0 { assert props[k] == props[1..][k - 1]; }
          }
        }
      }
    }
  }

  /** The result is `valid` exactly when every required name is present and
      every present declared property conforms to its declaration. */
  lemma ValidIff(tool: Tool, args: Json, matches: Matcher)
    requires Validate(tool, args, matches).Ok?
    ensures Validate(tool, args, matches).value.valid <==>
      AllRequiredPresent(tool.parameters.required, args)
      && AllPresentConform(tool.parameters.properties, args, matches)
  {
    MissingErrorsEmpty(tool.parameters.required, args);
    PropertyErrorsEmpty(tool.parameters.properties, args, matches);
  }

  lemma {:induction false} MissingErrorsMembers(required: seq<string>, args: Json, e: string)
    ensures e in MissingErrors(required, args) <==>
      exists k :: 0 <= k < |required| && !HasKey(args, required[k]) && e == MissingMessage(required[k])
  {
    if |required| > 0 {
      MissingErrorsMembers(required[1..], args, e);
      if k :| 0 <= k < |required| && !HasKey(args, required[k]) && e == MissingMessage(required[k]) {
        if k > 0 {
          assert required[1..][k - 1] == required[k];
        }
      }
      if k :| 0 <= k < |required[1..]| && !HasKey(args, required[1..][k]) && e == MissingMessage(required[1..][k]) {
        assert required[k + 1] == required[1..][k];
      }
    }
  }

  /** Each required name absent from `args` yields its missing-parameter
      message, and every missing-parameter message comes from such a name. */
  lemma MissingReported(tool: Tool, args: Json, matches: Matcher, e: string)
    requires Validate(tool, args, matches).Ok?
    ensures var errors := Validate(tool, args, matches).value.errors;
      e in errors && IsMissingMessage(e) <==>
        exists k :: 0 <= k < |tool.parameters.required| && !HasKey(args, tool.parameters.required[k])
                    && e == MissingMessage(tool.parameters.required[k])
  {
    var p := tool.parameters;
    var m := MissingErrors(p.required, args);
    var q := PropertyErrors(p.properties, args, matches);
    ValidateErrors(tool, args, matches);
    MissingErrorsMembers(p.required, args, e);
    if e in q {
      var k :| 0 <= k < |q| && q[k] == e;
      assert IsValueMessage(q[k]);
    }
    if e in m {
      var k :| 0 <= k < |m| && m[k] == e;
      assert IsMissingMessage(m[k]);
    }
  }

  /** ...and they come first: an error is a missing-parameter message
      exactly when it sits before all the per-property errors. */
  lemma MissingFirst(tool: Tool, args: Json, matches: Matcher)
    requires Validate(tool, args, matches).Ok?
    ensures var errors := Validate(tool, args, matches).value.errors;
      forall i, j :: 0 <= i < j < |errors| && IsMissingMessage(errors[j]) ==> IsMissingMessage(errors[i])
  {
    ValidateErrors(tool, args, matches);
    MissingBeforeValue(MissingErrors(tool.parameters.required, args),
                       PropertyErrors(tool.parameters.properties, args, matches));
  }

  /** Missing-parameter messages followed by value messages: no missing
      message comes after a value message. */
  lemma MissingBeforeValue(m: seq<string>, q: seq<string>)
    requires forall i :: 0 <= i < |m| ==> IsMissingMessage(m[i])
    requires forall i :: 0 <= i < |q| ==> IsValueMessage(q[i])
    ensures var errors := m + q;
      forall i, j :: 0 <= i < j < |errors| && IsMissingMessage(errors[j]) ==> IsMissingMessage(errors[i])
  {
    var errors := m + q;
    forall i | 0 <= i < |errors| ensures IsMissingMessage(errors[i]) <==> i < |m| {
      if i >= |m| {
        assert errors[i] == q[i - |m|];
      }
    }
  }

  /** The errors of a validation that returns: missing parameters, then
      per-property errors. */
  lemma ValidateErrors(tool: Tool, args: Json, matches: Matcher)
    requires Validate(tool, args, matches).Ok?
    ensures Validate(tool, args, matches).value.errors
         == MissingErrors(tool.parameters.required, args) + PropertyErrors(tool.parameters.properties, args, matches)
  {
  }

  ghost predicate OccursBefore(es: seq<string>, a: string, b: string)
  {
    exists i1, i2 :: 0 <= i1 < i2 < |es| && es[i1] == a && es[i2] == b
  }

  lemma OccursBeforeExtend(pre: seq<string>, es: seq<string>, a: string, b: string)
    requires OccursBefore(es, a, b)
    ensures OccursBefore(pre + es, a, b)
  {
    var i1, i2 :| 0 <= i1 < i2 < |es| && es[i1] == a && es[i2] == b;
    assert (pre + es)[i1 + |pre|] == a && (pre + es)[i2 + |pre|] == b;
  }

  lemma OccursBeforeHead(a: string, es: seq<string>, b: string)
    requires b in es
    ensures OccursBefore([a] + es, a, b)
  {
    var j :| 0 <= j < |es| && es[j] == b;
    assert ([a] + es)[0] == a && ([a] + es)[j + 1] == b;
  }

  /** Missing-parameter messages keep the order of the `required` list. */
  lemma {:induction false} MissingInOrder(required: seq<string>, args: Json, k1: nat, k2: nat)
    requires k1 < k2 < |required|
    requires !HasKey(args, required[k1]) && !HasKey(args, required[k2])
    ensures OccursBefore(MissingErrors(required, args), MissingMessage(required[k1]), MissingMessage(required[k2]))
  {
    var rest := MissingErrors(required[1..], args);
    var head := if HasKey(args, required[0]) then [] else [MissingMessage(required[0])];
    assert MissingErrors(required, args) == head + rest;
    assert required[1..][k2 - 1] == required[k2];
    if k1 == 0 {
      MissingErrorsMembers(required[1..], args, MissingMessage(required[k2]));
      OccursBeforeHead(MissingMessage(required[0]), rest, MissingMessage(required[k2]));
    } else {
      assert required[1..][k1 - 1] == required[k1];
      MissingInOrder(required[1..], args, k1 - 1, k2 - 1);
      OccursBeforeExtend(head, rest, MissingMessage(required[k1]), MissingMessage(required[k2]));
    }
  }

  /** The `typeof` test: an `array` parameter accepts only arrays; an
      `object` parameter also accepts arrays and `null`; an `integer`
      parameter accepts nothing, since `typeof` never yields `"integer"`. */
  lemma TypeTest(def: ParamDef, v: Json)
    ensures def.declaredType == Some("array") ==> (TypeOk(def, v) <==> v.JArr?)
    ensures def.declaredType == Some("object") ==> (TypeOk(def, v) <==> v.JObj? || v.JArr? || v.JNull?)
    ensures def.declaredType == Some("integer") ==> !TypeOk(def, v)
    ensures def.declaredType == Some("number") ==> (TypeOk(def, v) <==> v.JNum?)
    ensures def.declaredType == Some("string") ==> (TypeOk(def, v) <==> v.JStr?)
  {
  }

  /** Every error about a present declared property is among the errors. */
  lemma {:induction false} PropertyErrorsInclude(props: seq<Property>, args: Json, matches: Matcher, k: nat, e: string)
    requires k < |props| && HasKey(args, props[k].name)
    requires e in ValueErrors(props[k].name, props[k].def, Get(args, props[k].name).value, matches)
    ensures e in PropertyErrors(props, args, matches)
  {
    if k > 0 {
      assert props[1..][k - 1] == props[k];
      PropertyErrorsInclude(props[1..], args, matches, k - 1, e);
    }
  }

  lemma ValidateIncludes(tool: Tool, args: Json, matches: Matcher, k: nat, e: string)
    requires k < |tool.parameters.properties|
    requires HasKey(args, tool.parameters.properties[k].name)
    requires e in ValueErrors(tool.parameters.properties[k].name, tool.parameters.properties[k].def,
                              Get(args, tool.parameters.properties[k].name).value, matches)
    ensures Validate(tool, args, matches).Ok?
    ensures e in Validate(tool, args, matches).value.errors
  {
    PropertyErrorsInclude(tool.parameters.properties, args, matches, k, e);
  }

  /** An `integer`-typed parameter that is present always draws a type error,
      whatever its value, and independently of that an enum error when the
      value is not listed; it never gets a bounds check. */
  lemma IntegerAlwaysRejected(tool: Tool, args: Json, matches: Matcher, k: nat)
    requires k < |tool.parameters.properties|
    requires tool.parameters.properties[k].def.declaredType == Some("integer")
    requires HasKey(args, tool.parameters.properties[k].name)
    ensures Validate(tool, args, matches).Ok?
    ensures var p := tool.parameters.properties[k];
      var r := Validate(tool, args, matches).value;
      && !r.valid
      && TypeMessage(p.name, "integer") in r.errors
      && (p.def.enumValues.Some? && !Includes(p.def.enumValues.value, Get(args, p.name).value) ==>
            EnumMessage(p.name, p.def.enumValues.value) in r.errors)
      && NumberErrors(p.name, p.def, Get(args, p.name).value) == []
  {
    var p := tool.parameters.properties[k];
    var v := Get(args, p.name).value;
    ValidateIncludes(tool, args, matches, k, TypeMessage(p.name, "integer"));
    if p.def.enumValues.Some? && !Includes(p.def.enumValues.value, v) {
      ValidateIncludes(tool, args, matches, k, EnumMessage(p.name, p.def.enumValues.value));
    }
  }

  /** Properties none of which is present contribute no errors. */
  lemma {:induction false} PropertyErrorsAbsent(props: seq<Property>, args: Json, matches: Matcher)
    requires forall i :: 0 <= i < |props| ==> !HasKey(args, props[i].name)
    ensures PropertyErrors(props, args, matches) == []
  {
    if |props| > 0 {
      PropertyErrorsAbsent(props[1..], args, matches);
    }
  }

  /** A `number` parameter holding a number: the only case with bounds checks. */
  predicate NumberParam(def: ParamDef, v: Json)
  {
    def.declaredType == Some("number") && v.JNum?
  }

  /** `n` lies in the closed interval the declaration gives. */
  predicate WithinBounds(def: ParamDef, n: int)
  {
    (def.minimum.None? || def.minimum.value <= n) && (def.maximum.None? || n <= def.maximum.value)
  }

  /** `minimum` and `maximum` are inclusive and apply only to a `number`
      parameter holding a number. */
  lemma BoundsInclusive(tool: Tool, args: Json, matches: Matcher, k: nat)
    requires k < |tool.parameters.properties|
    requires HasKey(args, tool.parameters.properties[k].name)
    ensures Validate(tool, args, matches).Ok?
    ensures var p := tool.parameters.properties[k];
      var v := Get(args, p.name).value;
      var errors := Validate(tool, args, matches).value.errors;
      && (NumberParam(p.def, v) && p.def.maximum.Some? && v.n > p.def.maximum.value ==>
            MaxMessage(p.name, p.def.maximum.value) in errors)
      && (NumberParam(p.def, v) && p.def.minimum.Some? && v.n < p.def.minimum.value ==>
            MinMessage(p.name, p.def.minimum.value) in errors)
      && (v.JNum? && WithinBounds(p.def, v.n) ==> NumberErrors(p.name, p.def, v) == [])
      && (!NumberParam(p.def, v) ==> NumberErrors(p.name, p.def, v) == [])
  {
    var p := tool.parameters.properties[k];
    var v := Get(args, p.name).value;
    if NumberParam(p.def, v) && p.def.maximum.Some? && v.n > p.def.maximum.value {
      ValidateIncludes(tool, args, matches, k, MaxMessage(p.name, p.def.maximum.value));
    }
    if NumberParam(p.def, v) && p.def.minimum.Some? && v.n < p.def.minimum.value {
      ValidateIncludes(tool, args, matches, k, MinMessage(p.name, p.def.minimum.value));
    }
  }

  /** `e` is the item-type message of some element at index `i..` of the wrong type. */
  ghost predicate BadItemType(name: string, t: string, items: seq<Json>, i: nat, e: string)
  {
    exists j :: i <= j < |items| && Typeof(items[j]) != t && e == ItemTypeMessage(j, name, t)
  }

  ghost predicate BadItemEnum(name: string, allowed: seq<Json>, items: seq<Json>, i: nat, e: string)
  {
    exists j :: i <= j < |items| && !Includes(allowed, items[j]) && e == ItemEnumMessage(j, name, allowed)
  }

  lemma {:induction false} ItemTypeErrorsMembers(name: string, t: string, items: seq<Json>, i: nat, e: string)
    ensures e in ItemTypeErrors(name, t, items, i) <==> BadItemType(name, t, items, i, e)
    decreases |items| - i
  {
    if i < |items| {
      ItemTypeErrorsMembers(name, t, items, i + 1, e);
      var head := if Typeof(items[i]) != t then [ItemTypeMessage(i, name, t)] else [];
      assert ItemTypeErrors(name, t, items, i) == head + ItemTypeErrors(name, t, items, i + 1);
      assert BadItemType(name, t, items, i, e) <==> e in head || BadItemType(name, t, items, i + 1, e);
    }
  }

  lemma {:induction false} ItemEnumErrorsMembers(name: string, allowed: seq<Json>, items: seq<Json>, i: nat, e: string)
    ensures e in ItemEnumErrors(name, allowed, items, i) <==> BadItemEnum(name, allowed, items, i, e)
    decreases |items| - i
  {
    if i < |items| {
      ItemEnumErrorsMembers(name, allowed, items, i + 1, e);
      var head := if !Includes(allowed, items[i]) then [ItemEnumMessage(i, name, allowed)] else [];
      assert ItemEnumErrors(name, allowed, items, i) == head + ItemEnumErrors(name, allowed, items, i + 1);
      assert BadItemEnum(name, allowed, items, i, e) <==> e in head || BadItemEnum(name, allowed, items, i + 1, e);
    }
  }

  /** For an array parameter the per-element errors split in two: first one
      message per element of the wrong item type, naming its index, then one
      per element outside the item enum. */
  lemma ArrayItemErrors(name: string, def: ParamDef, v: Json)
    requires def.declaredType == Some("array") && v.JArr? && def.items.Some?
    ensures var it := def.items.value;
      var es := ArrayErrors(name, def, v);
      exists cut :: 0 <= cut <= |es|
        && (forall e :: e in es[..cut] <==>
              (HasDeclaredType(it) && BadItemType(name, it.declaredType.value, v.items, 0, e)))
        && (forall e :: e in es[cut..] <==>
              (it.enumValues.Some? && BadItemEnum(name, it.enumValues.value, v.items, 0, e)))
  {
    var it := def.items.value;
    var ts := if HasDeclaredType(it) then ItemTypeErrors(name, it.declaredType.value, v.items, 0) else [];
    var ns := if it.enumValues.Some? then ItemEnumErrors(name, it.enumValues.value, v.items, 0) else [];
    var es := ArrayErrors(name, def, v);
    assert es == ts + ns;
    assert es[..|ts|] == ts && es[|ts|..] == ns;
    forall e
      ensures e in ts <==> (HasDeclaredType(it) && BadItemType(name, it.declaredType.value, v.items, 0, e))
    {
      if HasDeclaredType(it) { ItemTypeErrorsMembers(name, it.declaredType.value, v.items, 0, e); }
    }
    forall e
      ensures e in ns <==> (it.enumValues.Some? && BadItemEnum(name, it.enumValues.value, v.items, 0, e))
    {
      if it.enumValues.Some? { ItemEnumErrorsMembers(name, it.enumValues.value, v.items, 0, e); }
    }
  }

  // ---------------------------------------------------------------- what is never read

  /** A declaration with the nested `properties` and `required` of each
      parameter, and of its `items`, removed. */
  function StripNestedDef(def: ParamDef): ParamDef
  {
    var items := if def.items.Some? then Some(def.items.value.(properties := [], required := [])) else None;
    def.(properties := [], required := [], items := items)
  }

  function StripNestedProps(props: seq<Property>): (r: seq<Property>)
    ensures |r| == |props|
    ensures forall i :: 0 <= i < |props| ==> r[i] == Property(props[i].name, StripNestedDef(props[i].def))
  {
    seq(|props|, i requires 0 <= i < |props| => Property(props[i].name, StripNestedDef(props[i].def)))
  }

  function StripNested(tool: Tool): Tool
  {
    tool.(parameters := tool.parameters.(properties := StripNestedProps(tool.parameters.properties)))
  }

  lemma ValueErrorsStrip(name: string, def: ParamDef, v: Json, matches: Matcher)
    ensures ValueErrors(name, StripNestedDef(def), v, matches) == ValueErrors(name, def, v, matches)
  {
  }

  lemma {:induction false} PropertyErrorsStrip(props: seq<Property>, args: Json, matches: Matcher)
    ensures PropertyErrors(StripNestedProps(props), args, matches) == PropertyErrors(props, args, matches)
  {
    if |props| > 0 {
      var stripped := StripNestedProps(props);
      PropertyErrorsStrip(props[1..], args, matches);
      assert stripped[1..] == StripNestedProps(props[1..]);
      assert stripped[0] == Property(props[0].name, StripNestedDef(props[0].def));
      if HasKey(args, props[0].name) {
        ValueErrorsStrip(props[0].name, props[0].def, Get(args, props[0].name).value, matches);
      }
    }
  }

  /** Only top-level parameters are checked: the nested `properties` of an
      object parameter (such as `filters.language`) and the `required` list
      of array items are never consulted. */
  lemma NestedIgnored(tool: Tool, args: Json, matches: Matcher)
    ensures Validate(StripNested(tool), args, matches) == Validate(tool, args, matches)
  {
    PropertyErrorsStrip(tool.parameters.properties, args, matches);
  }

  predicate Declared(props: seq<Property>, key: string)
  {
    exists i :: 0 <= i < |props| && props[i].name == key
  }

  lemma LastValueExtend(fields: seq<Field>, f: Field, key: string)
    requires key != f.key
    ensures LastValue(fields + [f], key) == LastValue(fields, key)
  {
    assert (fields + [f])[..|fields|] == fields;
  }

  lemma {:induction false} MissingErrorsExtend(required: seq<string>, fields: seq<Field>, f: Field)
    requires f.key !in required
    ensures MissingErrors(required, JObj(fields + [f])) == MissingErrors(required, JObj(fields))
  {
    if |required| > 0 {
      LastValueExtend(fields, f, required[0]);
      MissingErrorsExtend(required[1..], fields, f);
    }
  }

  lemma {:induction false} PropertyErrorsExtend(props: seq<Property>, fields: seq<Field>, f: Field, matches: Matcher)
    requires !Declared(props, f.key)
    ensures PropertyErrors(props, JObj(fields + [f]), matches) == PropertyErrors(props, JObj(fields), matches)
  {
    if |props| > 0 {
      LastValueExtend(fields, f, props[0].name);
      forall i | 0 <= i < |props[1..]| ensures props[1..][i].name != f.key {
        assert props[1..][i] == props[i + 1];
      }
      PropertyErrorsExtend(props[1..], fields, f, matches);
    }
  }

  /** An argument key that is neither declared nor required changes nothing. */
  lemma UndeclaredKeyIgnored(tool: Tool, fields: seq<Field>, f: Field, matches: Matcher)
    requires !Declared(tool.parameters.properties, f.key) && f.key !in tool.parameters.required
    ensures Validate(tool, JObj(fields + [f]), matches) == Validate(tool, JObj(fields), matches)
  {
    MissingErrorsExtend(tool.parameters.required, fields, f);
    PropertyErrorsExtend(tool.parameters.properties, fields, f, matches);
  }
}
