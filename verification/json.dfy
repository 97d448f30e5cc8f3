/** JSON values as JavaScript sees them after `JSON.parse`, with the few
    language operations the tool code applies to them: `typeof`, truthiness,
    `Array.prototype.includes`, property lookup, `String(v)`,
    `Array.prototype.join` and `JSON.stringify`. Numbers are integers. */
module Json {
  import opened Wrappers
  import opened Text

  datatype Json =
    | JNull
    | JBool(b: bool)
    | JNum(n: int)
    | JStr(s: string)
    | JArr(items: seq<Json>)
    | JObj(fields: seq<Field>)

  /** One own property of an object, in insertion order. */
  datatype Field = Field(key: string, value: Json)

  /** The JavaScript `typeof` of a JSON value: arrays and `null` are `"object"`. */
  function Typeof(v: Json): (t: string)
    ensures t in {"object", "boolean", "number", "string"}
    ensures t == "object" <==> v.JNull? || v.JArr? || v.JObj?
  {
    match v
    case JNull => "object"
    case JBool(_) => "boolean"
    case JNum(_) => "number"
    case JStr(_) => "string"
    case JArr(_) => "object"
    case JObj(_) => "object"
  }

  /** JavaScript truthiness (`null`, `false`, `0` and `""` are falsy). */
  predicate Truthy(v: Json)
  {
    match v
    case JNull => false
    case JBool(b) => b
    case JNum(n) => n != 0
    case JStr(s) => s != ""
    case JArr(_) => true
    case JObj(_) => true
  }

  /** Truthiness of a property that may be absent (`undefined` is falsy). */
  predicate Present(v: Option<Json>)
  {
    v.Some? && Truthy(v.value)
  }

  predicate IsPrimitive(v: Json)
  {
    !v.JArr? && !v.JObj?
  }

  /** Values the `in` operator accepts on its right-hand side. */
  predicate IsObject(v: Json)
  {
    v.JArr? || v.JObj?
  }

  /** `xs.includes(v)`: primitives compare by value; an array or object parsed
      from JSON is a fresh reference and never equals a listed element. */
  predicate Includes(xs: seq<Json>, v: Json)
  {
    IsPrimitive(v) && v in xs
  }

  /** `xs.includes(s)` for a string `s`. */
  lemma IncludesString(xs: seq<Json>, s: string)
    ensures Includes(xs, JStr(s)) <==> exists i :: 0 <= i < |xs| && xs[i] == JStr(s)
  {
  }

  // ---------------------------------------------------------------- lookup

  /** The value JSON.parse leaves for `key`: the last field with that key. */
  function LastValue(fields: seq<Field>, key: string): (r: Option<Json>)
    ensures r.Some? <==> exists i :: 0 <= i < |fields| && fields[i].key == key
    ensures r.Some? ==> exists i :: 0 <= i < |fields| && fields[i] == Field(key, r.value)
  {
    if |fields| == 0 then None
    else if fields[|fields| - 1].key == key then Some(fields[|fields| - 1].value)
    else LastValue(fields[..|fields| - 1], key)
  }

  /** A key that occurs once names exactly its field's value. */
  lemma LastValueUnique(fields: seq<Field>, i: nat)
    requires i < |fields|
    requires forall j :: 0 <= j < |fields| && j != i ==> fields[j].key != fields[i].key
    ensures LastValue(fields, fields[i].key) == Some(fields[i].value)
  {
    var r := LastValue(fields, fields[i].key);
    var j :| 0 <= j < |fields| && fields[j] == Field(fields[i].key, r.value);
  }

  /** A canonical array index: decimal digits without a leading zero. */
  predicate IsIndexKey(key: string)
  {
    && |key| >= 1
    && (forall i :: 0 <= i < |key| ==> IsDigit(key[i]))
    && (|key| == 1 || key[0] != '0')
  }

  /** `v[key]` for an object or array own property (`undefined` is `None`).
      Arrays answer `length` and their canonical indices. Properties that
      objects inherit from their prototypes are not modelled. */
  function Get(v: Json, key: string): Option<Json>
  {
    match v
    case JObj(fields) => LastValue(fields, key)
    case JArr(items) =>
      if key == "length" then Some(JNum(|items|))
      else if IsIndexKey(key) && DigitsValue(key) < |items| then Some(items[DigitsValue(key)])
      else None
    case _ => None
  }

  /** `key in v` for an object or array `v`. */
  predicate HasKey(v: Json, key: string)
  {
    Get(v, key).Some?
  }

  /** `v.key` on any value: reading a property of `null` throws a TypeError,
      and the primitive wrappers have no member named like a tool argument. */
  function Member(v: Json, key: string): (r: Result<Option<Json>, string>)
    ensures r.Err? <==> v.JNull?
    ensures IsObject(v) ==> r == Ok(Get(v, key))
  {
    match v
    case JNull => Err("Cannot read properties of null (reading '" + key + "')")
    case JObj(_) => Ok(Get(v, key))
    case JArr(_) => Ok(Get(v, key))
    case _ => Ok(None)
  }

  // ---------------------------------------------------------------- own properties

  /** Keys an object lists before all others, in ascending numeric order:
      canonical decimal numerals below 2^32 - 1 (ECMAScript array indices). */
  predicate IsArrayIndexKey(key: string)
  {
    IsIndexKey(key) && DigitsValue(key) < 0xFFFF_FFFF
  }

  /** The numeric value of an array-index key (other keys are never sorted). */
  function IndexValue(key: string): int
  {
    if IsArrayIndexKey(key) then DigitsValue(key) else -1
  }

  /** Every element of `xs` is a position in `fields`. */
  predicate InRange(fields: seq<Field>, xs: seq<nat>)
  {
    forall i :: 0 <= i < |xs| ==> xs[i] < |fields|
  }

  /** Where in `xs` a field named `key` is listed, if anywhere. */
  function SlotOf(fields: seq<Field>, xs: seq<nat>, key: string): (r: Option<nat>)
    ensures r.Some? ==> r.value < |xs|
  {
    if |xs| == 0 then None
    else if xs[|xs| - 1] < |fields| && fields[xs[|xs| - 1]].key == key then Some(|xs| - 1)
    else SlotOf(fields, xs[..|xs| - 1], key)
  }

  /** `SlotOf` finds a listed field named `key` when there is one. */
  lemma {:induction false} SlotOfSpec(fields: seq<Field>, xs: seq<nat>, key: string)
    requires InRange(fields, xs)
    ensures SlotOf(fields, xs, key).Some? ==> fields[xs[SlotOf(fields, xs, key).value]].key == key
    ensures SlotOf(fields, xs, key).None? ==> forall i :: 0 <= i < |xs| ==> fields[xs[i]].key != key
  {
    if |xs| > 0 && fields[xs[|xs| - 1]].key != key {
      var front := xs[..|xs| - 1];
      SlotOfSpec(fields, front, key);
      assert forall i :: 0 <= i < |front| ==> xs[i] == front[i];
    }
  }

  /** The own properties of the object `JSON.parse` builds from the first
      `n` fields, as positions in `fields`: one per key, in the order the keys
      first appear, each at the key's last field (a repeated key overwrites
      the value and keeps the property's place). */
  function SurvivorsUpTo(fields: seq<Field>, n: nat): seq<nat>
    requires n <= |fields|
  {
    if n == 0 then []
    else
      var front := SurvivorsUpTo(fields, n - 1);
      match SlotOf(fields, front, fields[n - 1].key)
      case Some(p) => front[p := n - 1]
      case None => front + [n - 1]
  }

  /** The own properties of the object `JSON.parse` builds from `fields`. */
  function Survivors(fields: seq<Field>): seq<nat>
  {
    SurvivorsUpTo(fields, |fields|)
  }

  /** The survivors of the first `n` fields are positions below `n`. */
  lemma {:induction false} SurvivorsBelow(fields: seq<Field>, n: nat)
    requires n <= |fields|
    ensures forall i :: 0 <= i < |SurvivorsUpTo(fields, n)| ==> SurvivorsUpTo(fields, n)[i] < n
  {
    if n > 0 {
      SurvivorsBelow(fields, n - 1);
    }
  }

  /** The elements of `xs` whose key is (`index`) or is not an array index, in order. */
  function Select(fields: seq<Field>, xs: seq<nat>, index: bool): seq<nat>
  {
    if |xs| == 0 then []
    else
      var rest := Select(fields, xs[1..], index);
      if xs[0] < |fields| && IsArrayIndexKey(fields[xs[0]].key) == index then [xs[0]] + rest else rest
  }

  /** `Select` keeps exactly the elements of the kind asked for. */
  lemma {:induction false} SelectSpec(fields: seq<Field>, xs: seq<nat>, index: bool)
    requires InRange(fields, xs)
    ensures InRange(fields, Select(fields, xs, index))
    ensures forall x :: x in Select(fields, xs, index) <==>
      x in xs && x < |fields| && IsArrayIndexKey(fields[x].key) == index
  {
    if |xs| > 0 {
      SelectSpec(fields, xs[1..], index);
      assert xs == [xs[0]] + xs[1..];
    }
  }

  /** The rank by which `JSON.stringify` orders array-index keys. */
  function Rank(fields: seq<Field>, j: nat): int
  {
    if j < |fields| then IndexValue(fields[j].key) else -1
  }

  predicate Ascending(fields: seq<Field>, xs: seq<nat>)
  {
    forall i, j :: 0 <= i < j < |xs| ==> Rank(fields, xs[i]) <= Rank(fields, xs[j])
  }

  /** Inserts `x` before the first element of `xs` that ranks no lower. */
  function Insert(fields: seq<Field>, x: nat, xs: seq<nat>): seq<nat>
  {
    if |xs| == 0 then [x]
    else if Rank(fields, x) <= Rank(fields, xs[0]) then [x] + xs
    else [xs[0]] + Insert(fields, x, xs[1..])
  }

  /** Insertion adds `x` and loses nothing. */
  lemma {:induction false} InsertKeeps(fields: seq<Field>, x: nat, xs: seq<nat>)
    ensures multiset(Insert(fields, x, xs)) == multiset(xs) + multiset{x}
  {
    if |xs| > 0 && Rank(fields, x) > Rank(fields, xs[0]) {
      InsertKeeps(fields, x, xs[1..]);
      assert xs == [xs[0]] + xs[1..];
    }
  }

  /** A lower bound of an ascending list can go in front of it. */
  lemma AscendingCons(fields: seq<Field>, y: nat, xs: seq<nat>)
    requires Ascending(fields, xs)
    requires forall i :: 0 <= i < |xs| ==> Rank(fields, y) <= Rank(fields, xs[i])
    ensures Ascending(fields, [y] + xs)
  {
    var r := [y] + xs;
    forall i, j | 0 <= i < j < |r|
      ensures Rank(fields, r[i]) <= Rank(fields, r[j])
    {
      assert r[j] == xs[j - 1];
      if i > 0 {
        assert r[i] == xs[i - 1];
      }
    }
  }

  /** Insertion keeps a list ascending. */
  lemma {:induction false} InsertAscending(fields: seq<Field>, x: nat, xs: seq<nat>)
    requires Ascending(fields, xs)
    ensures Ascending(fields, Insert(fields, x, xs))
  {
    if |xs| > 0 && Rank(fields, x) > Rank(fields, xs[0]) {
      var tail := xs[1..];
      var rest := Insert(fields, x, tail);
      InsertAscending(fields, x, tail);
      InsertKeeps(fields, x, tail);
      assert Insert(fields, x, xs) == [xs[0]] + rest;
      forall i | 0 <= i < |rest|
        ensures Rank(fields, xs[0]) <= Rank(fields, rest[i])
      {
        assert rest[i] in multiset(rest);
        if rest[i] != x {
          assert rest[i] in multiset(tail);
          var j :| 0 <= j < |tail| && tail[j] == rest[i];
          assert xs[j + 1] == rest[i];
        }
      }
      AscendingCons(fields, xs[0], rest);
    }
  }

  /** Insertion sort by rank. */
  function SortAscending(fields: seq<Field>, xs: seq<nat>): seq<nat>
  {
    if |xs| == 0 then [] else Insert(fields, xs[0], SortAscending(fields, xs[1..]))
  }

  /** The sort is an ascending permutation of its input. */
  lemma {:induction false} SortSpec(fields: seq<Field>, xs: seq<nat>)
    ensures Ascending(fields, SortAscending(fields, xs))
    ensures multiset(SortAscending(fields, xs)) == multiset(xs)
  {
    if |xs| > 0 {
      var sorted := SortAscending(fields, xs[1..]);
      SortSpec(fields, xs[1..]);
      InsertAscending(fields, xs[0], sorted);
      InsertKeeps(fields, xs[0], sorted);
      assert xs == [xs[0]] + xs[1..];
    }
  }

  /** A permutation of positions in `fields` holds positions in `fields`. */
  lemma PermutationInRange(fields: seq<Field>, xs: seq<nat>, ys: seq<nat>)
    requires InRange(fields, xs) && multiset(ys) == multiset(xs)
    ensures InRange(fields, ys)
  {
    forall i | 0 <= i < |ys|
      ensures ys[i] < |fields|
    {
      assert ys[i] in multiset(xs);
      var j :| 0 <= j < |xs| && xs[j] == ys[i];
    }
  }


  /** The order in which `JSON.stringify` writes the properties of the object
      `JSON.parse` builds from `fields`: array-index keys in ascending numeric
      order, then the other keys in the order they first appear. */
  function PropertyOrder(fields: seq<Field>): (r: seq<nat>)
    ensures InRange(fields, r)
  {
    var kept := Survivors(fields);
    SurvivorsBelow(fields, |fields|);
    var index := Select(fields, kept, true);
    var other := Select(fields, kept, false);
    SelectSpec(fields, kept, true);
    SelectSpec(fields, kept, false);
    var sorted := SortAscending(fields, index);
    SortSpec(fields, index);
    PermutationInRange(fields, index, sorted);
    sorted + other
  }

  /** `xs` lists positions in `fields` and no two of them name the same key. */
  predicate KeysDistinct(fields: seq<Field>, xs: seq<nat>)
  {
    && InRange(fields, xs)
    && forall i, j :: 0 <= i < j < |xs| ==> fields[xs[i]].key != fields[xs[j]].key
  }

  /** `xs` lists positions in `fields` and no field among the first `n` after
      one of them repeats its key. */
  predicate LastOfKey(fields: seq<Field>, xs: seq<nat>, n: nat)
  {
    && n <= |fields|
    && InRange(fields, xs)
    && forall i, j :: 0 <= i < |xs| && xs[i] < j < n ==> fields[j].key != fields[xs[i]].key
  }

  /** The key of field `j`. */
  function Key(fields: seq<Field>, j: nat): string
    requires j < |fields|
  {
    fields[j].key
  }

  /** The keys the elements of `xs` name, in order. */
  function KeysOf(fields: seq<Field>, xs: seq<nat>): (ks: seq<string>)
    requires InRange(fields, xs)
    ensures |ks| == |xs| && forall i :: 0 <= i < |xs| ==> ks[i] == fields[xs[i]].key
  {
    seq(|xs|, i requires 0 <= i < |xs| => fields[xs[i]].key)
  }

  /** `xs` lists positions in `fields` and names every key among the first `n` fields. */
  predicate CoversKeys(fields: seq<Field>, xs: seq<nat>, n: nat)
  {
    && n <= |fields|
    && InRange(fields, xs)
    && forall j :: 0 <= j < n ==> Key(fields, j) in KeysOf(fields, xs)
  }

  /** The survivors name distinct keys. */
  lemma {:induction false} SurvivorsDistinct(fields: seq<Field>, n: nat)
    requires n <= |fields|
    ensures KeysDistinct(fields, SurvivorsUpTo(fields, n))
  {
    if n > 0 {
      SurvivorsDistinct(fields, n - 1);
      SurvivorsBelow(fields, n);
      var front := SurvivorsUpTo(fields, n - 1);
      var r := SurvivorsUpTo(fields, n);
      SlotOfSpec(fields, front, fields[n - 1].key);
      match SlotOf(fields, front, fields[n - 1].key)
      case Some(p) =>
        assert forall i :: 0 <= i < |r| ==> fields[r[i]].key == fields[front[i]].key;
      case None =>
        assert r == front + [n - 1];
        forall i, j | 0 <= i < j < |r|
          ensures fields[r[i]].key != fields[r[j]].key
        {
          assert r[i] == front[i];
          if j < |front| {
            assert r[j] == front[j];
          }
        }
    }
  }

  /** Each survivor is the last field with its key. */
  lemma {:induction false} SurvivorsLast(fields: seq<Field>, n: nat)
    requires n <= |fields|
    ensures LastOfKey(fields, SurvivorsUpTo(fields, n), n)
  {
    if n > 0 {
      SurvivorsLast(fields, n - 1);
      SurvivorsDistinct(fields, n - 1);
      SurvivorsBelow(fields, n - 1);
      var front := SurvivorsUpTo(fields, n - 1);
      var r := SurvivorsUpTo(fields, n);
      SlotOfSpec(fields, front, fields[n - 1].key);
      match SlotOf(fields, front, fields[n - 1].key)
      case Some(p) =>
        assert r == front[p := n - 1];
        LastAfterReplace(fields, front, n, p);
      case None =>
        assert r == front + [n - 1];
        LastAfterAppend(fields, front, n);
    }
  }

  /** The `n`-th field taking over its key's slot keeps every survivor last. */
  lemma LastAfterReplace(fields: seq<Field>, front: seq<nat>, n: nat, p: nat)
    requires 0 < n <= |fields| && forall i :: 0 <= i < |front| ==> front[i] < n - 1
    requires KeysDistinct(fields, front) && LastOfKey(fields, front, n - 1)
    requires p < |front| && fields[front[p]].key == fields[n - 1].key
    ensures LastOfKey(fields, front[p := n - 1], n)
  {
    var r := front[p := n - 1];
    forall i, j | 0 <= i < |r| && r[i] < j < n
      ensures fields[j].key != fields[r[i]].key
    {
      if i != p {
        assert r[i] == front[i];
        if j == n - 1 {
          assert fields[j].key == fields[front[p]].key;
        }
      }
    }
  }

  /** A new key's field appended after the survivors keeps every survivor last. */
  lemma LastAfterAppend(fields: seq<Field>, front: seq<nat>, n: nat)
    requires 0 < n <= |fields| && forall i :: 0 <= i < |front| ==> front[i] < n - 1
    requires LastOfKey(fields, front, n - 1)
    requires forall i :: 0 <= i < |front| ==> fields[front[i]].key != fields[n - 1].key
    ensures LastOfKey(fields, front + [n - 1], n)
  {
    var r := front + [n - 1];
    forall i, j | 0 <= i < |r| && r[i] < j < n
      ensures fields[j].key != fields[r[i]].key
    {
      if i < |front| {
        assert r[i] == front[i];
      }
    }
  }

  /** Every key among the first `n` fields has a survivor. */
  lemma {:induction false} SurvivorsCover(fields: seq<Field>, n: nat)
    requires n <= |fields|
    ensures CoversKeys(fields, SurvivorsUpTo(fields, n), n)
  {
    if n > 0 {
      SurvivorsCover(fields, n - 1);
      SurvivorsBelow(fields, n);
      var front := SurvivorsUpTo(fields, n - 1);
      var r := SurvivorsUpTo(fields, n);
      var slot := SlotOf(fields, front, fields[n - 1].key);
      SlotOfSpec(fields, front, fields[n - 1].key);
      if slot.Some? {
        assert r == front[slot.value := n - 1];
        CoverStep(fields, front, r, n, slot.value);
      } else {
        assert r == front + [n - 1];
        CoverStep(fields, front, r, n, |front|);
      }
    }
  }

  /** Adding the `n`-th field keeps every earlier key named, and names its own. */
  lemma CoverStep(fields: seq<Field>, front: seq<nat>, r: seq<nat>, n: nat, at: nat)
    requires 0 < n <= |fields| && InRange(fields, r)
    requires CoversKeys(fields, front, n - 1)
    requires |front| <= |r| && forall i :: 0 <= i < |front| ==> fields[r[i]].key == fields[front[i]].key
    requires at < |r| && fields[r[at]].key == fields[n - 1].key
    ensures CoversKeys(fields, r, n)
  {
    var before := KeysOf(fields, front);
    var after := KeysOf(fields, r);
    assert after[at] == Key(fields, n - 1);
    forall j | 0 <= j < n - 1
      ensures Key(fields, j) in after
    {
      assert Key(fields, j) in before;
      var i :| 0 <= i < |before| && before[i] == Key(fields, j);
      assert after[i] == before[i];
    }
  }

  /** The two selections split `xs` without loss or duplication. */
  lemma {:induction false} SelectSplits(fields: seq<Field>, xs: seq<nat>)
    requires InRange(fields, xs)
    ensures multiset(Select(fields, xs, true)) + multiset(Select(fields, xs, false)) == multiset(xs)
  {
    if |xs| > 0 {
      SelectSplits(fields, xs[1..]);
      assert xs == [xs[0]] + xs[1..];
    }
  }

  /** `JSON.stringify` writes every own property once: a permutation of the
      survivors, with the array-index keys first and in ascending order. */
  lemma PropertyOrderSpec(fields: seq<Field>)
    ensures var r := PropertyOrder(fields);
      && multiset(r) == multiset(Survivors(fields))
      && (forall i, j :: 0 <= i < j < |r| && IsArrayIndexKey(fields[r[j]].key) ==> IsArrayIndexKey(fields[r[i]].key))
      && (forall i, j :: 0 <= i < j < |r| && IsArrayIndexKey(fields[r[j]].key) ==>
            DigitsValue(fields[r[i]].key) <= DigitsValue(fields[r[j]].key))
  {
    var kept := Survivors(fields);
    SurvivorsBelow(fields, |fields|);
    SelectSplits(fields, kept);
    SelectSpec(fields, kept, true);
    SelectSpec(fields, kept, false);
    var index := Select(fields, kept, true);
    var idx := SortAscending(fields, index);
    SortSpec(fields, index);
    PermutationInRange(fields, index, idx);
    var rest := Select(fields, kept, false);
    forall i | 0 <= i < |idx|
      ensures IsArrayIndexKey(fields[idx[i]].key)
    {
      assert idx[i] in multiset(index);
    }
    forall i | 0 <= i < |rest|
      ensures !IsArrayIndexKey(fields[rest[i]].key)
    {
      assert rest[i] in rest;
    }
    IndexPartFirst(fields, idx, rest);
  }

  /** Ascending array-index keys followed by other keys: every array-index key
      comes after array-index keys only, in ascending numeric order. */
  lemma IndexPartFirst(fields: seq<Field>, idx: seq<nat>, rest: seq<nat>)
    requires InRange(fields, idx) && InRange(fields, rest) && Ascending(fields, idx)
    requires forall i :: 0 <= i < |idx| ==> IsArrayIndexKey(fields[idx[i]].key)
    requires forall i :: 0 <= i < |rest| ==> !IsArrayIndexKey(fields[rest[i]].key)
    ensures var r := idx + rest;
      && (forall i, j :: 0 <= i < j < |r| && IsArrayIndexKey(fields[r[j]].key) ==> IsArrayIndexKey(fields[r[i]].key))
      && (forall i, j :: 0 <= i < j < |r| && IsArrayIndexKey(fields[r[j]].key) ==>
            DigitsValue(fields[r[i]].key) <= DigitsValue(fields[r[j]].key))
  {
    var r := idx + rest;
    forall k | |idx| <= k < |r|
      ensures !IsArrayIndexKey(fields[r[k]].key)
    {
      assert r[k] == rest[k - |idx|];
    }
    forall i, j | 0 <= i < j < |r| && IsArrayIndexKey(fields[r[j]].key)
      ensures IsArrayIndexKey(fields[r[i]].key)
      ensures DigitsValue(fields[r[i]].key) <= DigitsValue(fields[r[j]].key)
    {
      assert j < |idx|;
      assert r[i] == idx[i] && r[j] == idx[j];
      assert Rank(fields, idx[i]) <= Rank(fields, idx[j]);
    }
  }

  /** A field no later field overrides is an own property of the parsed
      object, and `JSON.stringify` writes it. */
  lemma LastFieldListed(fields: seq<Field>, k: nat)
    requires k < |fields|
    requires forall j :: k < j < |fields| ==> fields[j].key != fields[k].key
    ensures k in PropertyOrder(fields)
  {
    SurvivorsLast(fields, |fields|);
    SurvivorsCover(fields, |fields|);
    var kept := Survivors(fields);
    var ks := KeysOf(fields, kept);
    assert Key(fields, k) in ks;
    var i :| 0 <= i < |ks| && ks[i] == Key(fields, k);
    assert fields[kept[i]].key == fields[k].key;
    assert kept[i] == k;
    var index := IsArrayIndexKey(fields[k].key);
    var sel := Select(fields, kept, index);
    SelectSpec(fields, kept, index);
    assert k in sel;
    if index {
      SortSpec(fields, sel);
      assert k in multiset(SortAscending(fields, sel));
    }
  }

  /** The positions `0 .. n - 1`. */
  function Positions(n: nat): (r: seq<nat>)
    ensures |r| == n && forall i :: 0 <= i < n ==> r[i] == i
  {
    seq(n, i requires 0 <= i < n => i)
  }

  /** With distinct keys, the survivors are all the fields, in order. */
  lemma {:induction false} DistinctKeysSurvive(fields: seq<Field>, n: nat)
    requires n <= |fields|
    requires forall i, j :: 0 <= i < j < |fields| ==> fields[i].key != fields[j].key
    ensures SurvivorsUpTo(fields, n) == Positions(n)
  {
    if n > 0 {
      DistinctKeysSurvive(fields, n - 1);
      var front := SurvivorsUpTo(fields, n - 1);
      SlotOfSpec(fields, front, fields[n - 1].key);
      assert forall i :: 0 <= i < |front| ==> fields[front[i]].key != fields[n - 1].key;
      assert SurvivorsUpTo(fields, n) == front + [n - 1];
    }
  }

  /** Selecting a kind every element has keeps them all. */
  lemma {:induction false} SelectAll(fields: seq<Field>, xs: seq<nat>, index: bool)
    requires InRange(fields, xs)
    requires forall i :: 0 <= i < |xs| ==> IsArrayIndexKey(fields[xs[i]].key) == index
    ensures Select(fields, xs, index) == xs && Select(fields, xs, !index) == []
  {
    if |xs| > 0 {
      SelectAll(fields, xs[1..], index);
    }
  }

  /** Distinct keys none of which is an array index are written in field order. */
  lemma PlainKeysInOrder(fields: seq<Field>)
    requires forall i, j :: 0 <= i < j < |fields| ==> fields[i].key != fields[j].key
    requires forall i :: 0 <= i < |fields| ==> !IsArrayIndexKey(fields[i].key)
    ensures PropertyOrder(fields) == Positions(|fields|)
  {
    DistinctKeysSurvive(fields, |fields|);
    SelectAll(fields, Positions(|fields|), false);
  }

  /** A one-property object lists its one field. */
  lemma SingleFieldOrder(f: Field)
    ensures PropertyOrder([f]) == [0]
  {
    assert SurvivorsUpTo([f], 0) == [];
    assert Survivors([f]) == [0];
    if IsArrayIndexKey(f.key) {
      SelectAll([f], [0], true);
      assert SortAscending([f], [0]) == Insert([f], 0, []) == [0];
    } else {
      SelectAll([f], [0], false);
    }
  }

  // ---------------------------------------------------------------- to string

  function BoolText(b: bool): string
  {
    if b then "true" else "false"
  }

  /** `String(v)`. An array renders as the comma join of its elements. */
  function JsString(v: Json): string
    decreases v, 1
  {
    match v
    case JNull => "null"
    case JBool(b) => BoolText(b)
    case JNum(n) => IntToString(n)
    case JStr(s) => s
    case JArr(items) => JoinJs(items, ",")
    case JObj(_) => "[object Object]"
  }

  /** `xs.join(sep)`: `null` elements render as the empty string. */
  function JoinJs(xs: seq<Json>, sep: string): string
    decreases xs, 0
  {
    Join(seq(|xs|, i requires 0 <= i < |xs| => if xs[i].JNull? then "" else JsString(xs[i])), sep)
  }

  lemma JoinJsSingle(s: string, sep: string)
    ensures JoinJs([JStr(s)], sep) == s
  {
    var parts := seq(1, i requires 0 <= i < 1 => if [JStr(s)][i].JNull? then "" else JsString([JStr(s)][i]));
    assert parts == [s];
  }

  /** Texts of a list of strings as JSON strings. */
  function Strings(ss: seq<string>): (r: seq<Json>)
    ensures |r| == |ss|
    ensures forall i :: 0 <= i < |ss| ==> r[i] == JStr(ss[i])
  {
    seq(|ss|, i requires 0 <= i < |ss| => JStr(ss[i]))
  }

  // ---------------------------------------------------------------- stringify

  function HexDigit(d: nat): char
    requires d < 16
  {
    if d < 10 then DigitChar(d) else ('a' as int + d - 10) as char
  }

  /** Characters JSON.stringify writes as an escape sequence. */
  predicate NeedsEscape(c: char)
  {
    c == '"' || c == '\\' || (c as int) < 0x20
  }

  function EscapeChar(c: char): string
  {
    if c == '"' then "\\\""
    else if c == '\\' then "\\\\"
    else if c == '\U{0008}' then "\\b"
    else if c == '\U{000C}' then "\\f"
    else if c == '\n' then "\\n"
    else if c == '\r' then "\\r"
    else if c == '\t' then "\\t"
    else if (c as int) < 0x20 then "\\u00" + [HexDigit(c as int / 16), HexDigit(c as int % 16)]
    else [c]
  }

  function Escape(s: string): string
  {
    if |s| == 0 then "" else EscapeChar(s[0]) + Escape(s[1..])
  }

  /** A JSON string literal. */
  function Quote(s: string): string
  {
    "\"" + Escape(s) + "\""
  }

  /** `JSON.stringify(v)` without indentation. */
  function Stringify(v: Json): string
    decreases v, 0, 0
  {
    match v
    case JNull => "null"
    case JBool(b) => BoolText(b)
    case JNum(n) => IntToString(n)
    case JStr(s) => Quote(s)
    case JArr(items) =>
      "[" + Join(seq(|items|, i requires 0 <= i < |items| => Stringify(items[i])), ",") + "]"
    case JObj(fields) => ObjectText(fields, PropertyOrder(fields))
  }

  /** The object text listing the members `fields[order[0]]`, `fields[order[1]]`, …;
      `JSON.stringify` lists an object's own properties, each key once with its
      last value, in `PropertyOrder`. */
  function ObjectText(fields: seq<Field>, order: seq<nat>): string
    requires InRange(fields, order)
    decreases fields, 2, 0
  {
    "{" + Join(MemberTexts(fields, order), ",") + "}"
  }

  /** The member texts of `fields[order[0]]`, `fields[order[1]]`, …. */
  function MemberTexts(fields: seq<Field>, order: seq<nat>): seq<string>
    requires InRange(fields, order)
    decreases fields, 1, |order|
  {
    if |order| == 0 then [] else [MemberText(fields[order[0]])] + MemberTexts(fields, order[1..])
  }

  /** The `i`-th member text is that of `fields[order[i]]`. */
  lemma {:induction false} MemberTextsAt(fields: seq<Field>, order: seq<nat>, i: nat)
    requires InRange(fields, order) && i < |order|
    ensures |MemberTexts(fields, order)| == |order|
    ensures MemberTexts(fields, order)[i] == MemberText(fields[order[i]])
  {
    if i > 0 {
      MemberTextsAt(fields, order[1..], i - 1);
    } else if |order| > 1 {
      MemberTextsAt(fields, order[1..], 0);
    }
  }

  function MemberText(f: Field): string
    decreases f, 0, 0
  {
    Quote(f.key) + ":" + Stringify(f.value)
  }

  lemma {:induction false} EscapeNoop(s: string)
    requires forall i :: 0 <= i < |s| ==> !NeedsEscape(s[i])
    ensures Escape(s) == s
  {
    if |s| > 0 {
      EscapeNoop(s[1..]);
    }
  }

  /** The serialisation of a one-property object with a plain string value. */
  lemma MemberTextString(k: string, v: string)
    requires forall i :: 0 <= i < |k| ==> !NeedsEscape(k[i])
    requires forall i :: 0 <= i < |v| ==> !NeedsEscape(v[i])
    ensures MemberText(Field(k, JStr(v))) == "\"" + k + "\":\"" + v + "\""
  {
    EscapeNoop(k);
    EscapeNoop(v);
  }

  lemma StringifyStringField(k: string, v: string)
    requires forall i :: 0 <= i < |k| ==> !NeedsEscape(k[i])
    requires forall i :: 0 <= i < |v| ==> !NeedsEscape(v[i])
    ensures Stringify(JObj([Field(k, JStr(v))])) == "{\"" + k + "\":\"" + v + "\"}"
  {
    OneFieldObject(Field(k, JStr(v)));
    MemberTextString(k, v);
  }

  /** A one-field object serialises as that field's member. */
  lemma OneFieldObject(f: Field)
    ensures Stringify(JObj([f])) == "{" + MemberText(f) + "}"
  {
    SingleFieldOrder(f);
    assert Stringify(JObj([f])) == ObjectText([f], [0]);
    OneMemberObject([f], 0);
  }

  /** An object listing one member. */
  lemma OneMemberObject(fields: seq<Field>, p: nat)
    requires p < |fields|
    ensures ObjectText(fields, [p]) == "{" + MemberText(fields[p]) + "}"
  {
    assert MemberTexts(fields, [p]) == [MemberText(fields[p])];
  }

  /** Two fields with one key leave one own property, at the second field. */
  lemma RepeatedKeyOrder(f: Field, g: Field)
    requires f.key == g.key
    ensures PropertyOrder([f, g]) == [1]
  {
    var fields := [f, g];
    assert SurvivorsUpTo(fields, 0) == [];
    assert SurvivorsUpTo(fields, 1) == [0];
    assert SlotOf(fields, [0], g.key) == Some(0);
    assert Survivors(fields) == [1];
    SelectAll(fields, [1], IsArrayIndexKey(f.key));
    assert SortAscending(fields, [1]) == Insert(fields, 1, []) == [1];
    assert SortAscending(fields, []) == [];
  }

  /** A repeated key is written once, with its last value:
      `JSON.stringify(JSON.parse('{"k":"a","k":"b"}'))` is `{"k":"b"}`. */
  lemma RepeatedKeyWrittenOnce(k: string, a: string, b: string)
    requires forall i :: 0 <= i < |k| ==> !NeedsEscape(k[i])
    requires forall i :: 0 <= i < |b| ==> !NeedsEscape(b[i])
    ensures Stringify(JObj([Field(k, JStr(a)), Field(k, JStr(b))])) == "{\"" + k + "\":\"" + b + "\"}"
  {
    RepeatedKeyAsLast(Field(k, JStr(a)), Field(k, JStr(b)));
    StringifyStringField(k, b);
  }

  /** Two fields with one key serialise as the second field alone. */
  lemma RepeatedKeyAsLast(f: Field, g: Field)
    requires f.key == g.key
    ensures Stringify(JObj([f, g])) == Stringify(JObj([g]))
  {
    RepeatedKeyObject(f, g);
    OneFieldObject(g);
  }

  /** Two fields with one key serialise as the second field's member. */
  lemma RepeatedKeyObject(f: Field, g: Field)
    requires f.key == g.key
    ensures Stringify(JObj([f, g])) == "{" + MemberText(g) + "}"
  {
    RepeatedKeyOrder(f, g);
    assert Stringify(JObj([f, g])) == ObjectText([f, g], [1]);
    OneMemberObject([f, g], 1);
  }

  /** Array-index keys come first: `{"b":1,"2":2}` lists `"2"` before `"b"`. */
  lemma IndexKeyOrder()
    ensures PropertyOrder([Field("b", JNum(1)), Field("2", JNum(2))]) == [1, 0]
  {
    var fields := [Field("b", JNum(1)), Field("2", JNum(2))];
    ExampleKeyKinds();
    DistinctKeysSurvive(fields, 2);
    assert Survivors(fields) == [0, 1];
    assert Select(fields, [1], true) == [1];
    assert Select(fields, [0, 1], true) == [1];
    assert Select(fields, [1], false) == [];
    assert Select(fields, [0, 1], false) == [0];
    assert SortAscending(fields, [1]) == Insert(fields, 1, []) == [1];
  }

  lemma ExampleKeyKinds()
    ensures IsArrayIndexKey("2") && !IsArrayIndexKey("b")
  {
    assert DigitsValue("2") == 2;
    assert !IsDigit("b"[0]);
  }

  /** An object listing two members, comma-separated. */
  lemma TwoMemberObject(fields: seq<Field>, p: nat, q: nat)
    requires p < |fields| && q < |fields|
    ensures ObjectText(fields, [p, q]) == "{" + MemberText(fields[p]) + "," + MemberText(fields[q]) + "}"
  {
    PairTexts(fields, p, q);
    BracedPair(MemberTexts(fields, [p, q]), MemberText(fields[p]), MemberText(fields[q]));
  }

  lemma PairTexts(fields: seq<Field>, p: nat, q: nat)
    requires p < |fields| && q < |fields|
    ensures MemberTexts(fields, [p, q]) == [MemberText(fields[p]), MemberText(fields[q])]
  {
    assert [p, q][1..] == [q];
    assert MemberTexts(fields, [q]) == [MemberText(fields[q])];
  }

  /** Two members, comma-separated and braced. */
  lemma BracedPair(members: seq<string>, a: string, b: string)
    requires members == [a, b]
    ensures "{" + Join(members, ",") + "}" == "{" + a + "," + b + "}"
  {
    JoinTwo(a, b, ",");
  }

  /** The member text of a one-character key with a one-digit number. */
  lemma DigitMember(k: char, d: nat)
    requires !NeedsEscape(k) && d < 10
    ensures MemberText(Field([k], JNum(d))) == ['"', k, '"', ':', DigitChar(d)]
  {
    assert Escape([k]) == [k];
  }

  /** The members of `{"b":1,"2":2}` as written. */
  lemma ExampleMembers()
    ensures MemberText(Field("2", JNum(2))) == "\"2\":2"
    ensures MemberText(Field("b", JNum(1))) == "\"b\":1"
  {
    DigitMember('2', 2);
    DigitMember('b', 1);
  }

  /** `{"b":1,"2":2}` is written with its second member first. */
  lemma IndexKeyObject()
    ensures var fields := [Field("b", JNum(1)), Field("2", JNum(2))];
      Stringify(JObj(fields)) == "{" + MemberText(fields[1]) + "," + MemberText(fields[0]) + "}"
  {
    var fields := [Field("b", JNum(1)), Field("2", JNum(2))];
    IndexKeyOrder();
    assert Stringify(JObj(fields)) == ObjectText(fields, [1, 0]);
    TwoMemberObject(fields, 1, 0);
  }

  /** `JSON.stringify(JSON.parse('{"b":1,"2":2}'))` is `{"2":2,"b":1}`. */
  lemma IndexKeyWrittenFirst()
    ensures Stringify(JObj([Field("b", JNum(1)), Field("2", JNum(2))])) == "{\"2\":2,\"b\":1}"
  {
    IndexKeyObject();
    ExampleMembers();
    ExampleText();
  }

  /** The example's members put together. */
  lemma ExampleText()
    ensures "{" + "\"2\":2" + "," + "\"b\":1" + "}" == "{\"2\":2,\"b\":1}"
  {
  }

  /** A needle with a character that neither the key nor the value of a
      one-property object contains (nor the punctuation around them) does not
      occur in its serialisation. */
  lemma StringFieldLacks(k: string, v: string, needle: string, j: nat)
    requires forall i :: 0 <= i < |k| ==> !NeedsEscape(k[i])
    requires forall i :: 0 <= i < |v| ==> !NeedsEscape(v[i])
    requires j < |needle| && needle[j] !in k && needle[j] !in v && needle[j] !in "{\":,}"
    ensures !Contains(Stringify(JObj([Field(k, JStr(v))])), needle)
  {
    StringifyStringField(k, v);
    var s := "{\"" + k + "\":\"" + v + "\"}";
    AbsentCharNotContained(s, needle, j);
  }

  /** The value of a one-property object occurs in its serialisation. */
  lemma StringFieldHas(k: string, v: string)
    requires forall i :: 0 <= i < |k| ==> !NeedsEscape(k[i])
    requires forall i :: 0 <= i < |v| ==> !NeedsEscape(v[i])
    ensures Contains(Stringify(JObj([Field(k, JStr(v))])), v)
  {
    StringifyStringField(k, v);
    var s := "{\"" + k + "\":\"" + v + "\"}";
    assert s[|k| + 5..|k| + 5 + |v|] == v;
    assert OccursAt(s, v, |k| + 5);
  }

  lemma MemberContainsValue(f: Field, s: string)
    requires f.value == JStr(s)
    requires forall i :: 0 <= i < |s| ==> !NeedsEscape(s[i])
    ensures Contains(MemberText(f), s)
  {
    var pre := Quote(f.key) + ":";
    assert MemberText(f) == pre + Quote(s) + "";
    assert Quote(s) == "\"" + s + "\"" by {
      EscapeNoop(s);
    }
    ContainsSelf(s);
    ContainsWithin("\"", s, "\"", s);
    ContainsWithin(pre, Quote(s), "", s);
  }

  /** A string property whose text needs no escaping, and that no later
      property of the same name overrides, appears verbatim in the serialised
      object: the fact the conditional-approval heuristic relies on. */
  lemma {:induction false} FieldValueInStringify(fields: seq<Field>, k: nat, s: string)
    requires k < |fields| && fields[k].value == JStr(s)
    requires forall j :: k < j < |fields| ==> fields[j].key != fields[k].key
    requires forall i :: 0 <= i < |s| ==> !NeedsEscape(s[i])
    ensures Contains(Stringify(JObj(fields)), s)
  {
    LastFieldListed(fields, k);
    var order := PropertyOrder(fields);
    var p :| 0 <= p < |order| && order[p] == k;
    var parts := MemberTexts(fields, order);
    MemberTextsAt(fields, order, p);
    var body := Join(parts, ",");
    assert Stringify(JObj(fields)) == ObjectText(fields, order) == "{" + body + "}";
    assert parts[p] == MemberText(fields[k]);
    MemberContainsValue(fields[k], s);
    JoinContainsPiece(parts, ",", p);
    ContainsOfContains(body, parts[p], s);
    ContainsWithin("{", body, "}", s);
  }

  lemma ContainsOfContains(a: string, b: string, c: string)
    requires Contains(a, b) && Contains(b, c)
    ensures Contains(a, c)
  {
    var i :| OccursAt(a, b, i);
    var j :| OccursAt(b, c, j);
    assert b == a[i..i + |b|];
    forall t | 0 <= t < |c|
      ensures a[i + j + t] == c[t]
    {
      assert c[t] == b[j + t];
    }
    assert a[i + j..i + j + |c|] == c;
    assert OccursAt(a, c, i + j);
  }
}
