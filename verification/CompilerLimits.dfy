/** Where the compiled parser and the standard part: the exact condition for each place, and a witness. */
module CompilerLimits {
  import opened Common
  import opened JsonValue
  import opened JsonSchema
  import opened ZodCompiler
  import opened CompilerCorrectness
  import opened CompilerMeaning

  /** No keyword outside the model rejects anything, and no pattern claims a name. */
  const LENIENT := Interp((k: string, schema: Json, v: Json) => true, (kv: Json, name: string) => false)

  /** Every `patternProperties` value claims every name. */
  const CLAIMING := Interp((k: string, schema: Json, v: Json) => true, (kv: Json, name: string) => true)

  ghost predicate OverRejects(s: Json, v: Json, I: Interp) {
    Valid(s, v, I) && !Accepts(Compile(s), Some(v))
  }

  // ---- What the compiler reads ---------------------------------------------------------------

  ghost predicate SameAt(m: map<string, Json>, n: map<string, Json>, k: string) {
    (k in m <==> k in n) && (k in m ==> m[k] == n[k])
  }

  /** The parser for one type name depends on four keywords. */
  lemma SameParts(m: map<string, Json>, n: map<string, Json>, t: Json)
    requires SameAt(m, n, "items") && SameAt(m, n, "properties")
    requires SameAt(m, n, "required") && SameAt(m, n, "additionalProperties")
    ensures BuildForType(JObj(m), t) == BuildForType(JObj(n), t)
  {
    assert Properties(m) == Properties(n) && AsArray(m, "required") == AsArray(n, "required");
    assert Shape(JObj(m)) == Shape(JObj(n));
  }

  // ---- Untyped schemas with properties -------------------------------------------------------

  /** An untyped schema that the compiler takes for an object schema, otherwise in the fragment. */
  ghost predicate UntypedObject(m: map<string, Json>) {
    && "type" !in m && ("properties" in m || "additionalProperties" in m)
    && m.Keys <= {"items", "properties", "required", "additionalProperties", "description"}
    && InFragment(JObj(m["type" := JStr("object")]))
  }

  lemma UntypedCompiles(m: map<string, Json>)
    requires UntypedObject(m)
    ensures Compile(JObj(m)) == Compile(JObj(m["type" := JStr("object")]))
  {
    var typed := m["type" := JStr("object")];
    SameParts(m, typed, JStr("object"));
    CompiledType(JObj(typed), JStr("object"));
    assert NodeInFragment(JObj(typed)) && ("properties" in m ==> typed["properties"].JObj? && Truthy(m["properties"]));
    assert AsArray(m, "type") == [];
    assert BuildUntyped(JObj(m)) == BuildForType(JObj(m), JStr("object"));
  }

  /** Such a schema refuses everything but objects, and is exact on a value if and only if that is an object,
      or an array with an element its `items` refuses. */
  lemma UntypedExactIff(m: map<string, Json>, v: Json, I: Interp)
    requires UntypedObject(m) && SafeIntegers(v)
    ensures Accepts(Compile(JObj(m)), Some(v)) ==> v.JObj?
    ensures (Accepts(Compile(JObj(m)), Some(v)) <==> Valid(JObj(m), v, I))
      <==> v.JObj? || (v.JArr? && "items" in m && exists i :: 0 <= i < |v.elems| && !Valid(m["items"], v.elems[i], I))
  {
    var typed := m["type" := JStr("object")];
    UntypedCompiles(m);
    Exact(JObj(typed), v, I);
    UntypedValid(m, v, I);
    UntypedValid(typed, v, I);
    assert TypeOk(JStr("object"), v) <==> v.JObj?;
    if v.JObj? { SameObject(m, typed, v.members, I); }
  }

  lemma UntypedValid(m: map<string, Json>, v: Json, I: Interp)
    requires m.Keys <= {"type", "items", "properties", "required", "additionalProperties", "description"}
    ensures Valid(JObj(m), v, I) <==>
      && ("type" in m ==> TypeOk(m["type"], v))
      && ("items" in m && v.JArr? ==> forall i | 0 <= i < |v.elems| :: Valid(m["items"], v.elems[i], I))
      && (v.JObj? ==> ObjectValid(m, v.members, I))
  {
    assert forall k | k in m :: !Outside(k);
    assert PrefixLength(m) == 0;
  }

  lemma SameObject(m: map<string, Json>, n: map<string, Json>, o: map<string, Json>, I: Interp)
    requires SameAt(m, n, "properties") && SameAt(m, n, "required") && SameAt(m, n, "additionalProperties")
    requires SameAt(m, n, "patternProperties")
    ensures ObjectValid(m, o, I) <==> ObjectValid(n, o, I)
  {
    assert Properties(m) == Properties(n);
    assert forall k :: IsAdditional(m, k, I) <==> IsAdditional(n, k, I);
  }

  /** A witness: `{"properties": {}}` says nothing about null, but is compiled to an object parser. */
  lemma UntypedPropertiesOverReject()
    ensures OverRejects(JObj(map["properties" := JObj(map[])]), JNull, LENIENT)
  {
    var s := JObj(map["properties" := JObj(map[])]);
    assert BuildUntyped(s) == BuildForType(s, JStr("object"));
  }

  // ---- Enums ---------------------------------------------------------------------------------

  /** A schema that is an enum, with or without types beside it. */
  predicate EnumSchema(m: map<string, Json>) {
    m.Keys <= {"enum", "type", "description"} && EnumDecides(m)
  }

  lemma EnumValid(m: map<string, Json>, v: Json, I: Interp)
    requires EnumSchema(m)
    ensures Valid(JObj(m), v, I) <==> v in m["enum"].elems && HasType(m, v)
  {
    assert forall k | k in m :: !Outside(k);
  }

  /** A value of the enum on which the parser and the standard agree: a scalar of the type, or else one of
      another type, and then, if it is an array, what it lists must be listed anyway. */
  predicate Agreed(m: map<string, Json>, value: Json)
    requires EnumSchema(m)
  {
    if IsScalar(value) then HasType(m, value)
    else
      && !HasType(m, value)
      && (value.JArr? ==> forall i | 0 <= i < |value.elems| && IsScalar(value.elems[i]) :: value.elems[i] in m["enum"].elems)
  }

  /** An enum is compiled exactly if and only if parser and standard agree on each of its values. */
  lemma EnumExactIff(m: map<string, Json>, I: Interp)
    requires EnumSchema(m)
    ensures (forall v :: Accepts(Compile(JObj(m)), Some(v)) <==> Valid(JObj(m), v, I))
      <==> forall i | 0 <= i < |m["enum"].elems| :: Agreed(m, m["enum"].elems[i])
  {
    var values := m["enum"].elems;
    forall v
      ensures Accepts(Compile(JObj(m)), Some(v)) <==> Listed(values, v)
      ensures Valid(JObj(m), v, I) <==> v in values && HasType(m, v)
    {
      CompileMeans(JObj(m), Some(v));
      EnumValid(m, v, I);
    }
    if i :| 0 <= i < |values| && !Agreed(m, values[i]) {
      EnumDisagrees(m, i, I);
    } else {
      forall v ensures Listed(values, v) <==> v in values && HasType(m, v) { EnumAgrees(m, v); }
    }
  }

  lemma EnumDisagrees(m: map<string, Json>, i: nat, I: Interp)
    requires EnumSchema(m) && i < |m["enum"].elems| && !Agreed(m, m["enum"].elems[i])
    ensures exists v :: !(Accepts(Compile(JObj(m)), Some(v)) <==> Valid(JObj(m), v, I))
  {
    var values := m["enum"].elems;
    var v := values[i];
    if !IsScalar(v) && !HasType(m, v) {
      var j :| 0 <= j < |v.elems| && IsScalar(v.elems[j]) && v.elems[j] !in values;
      v := v.elems[j];
    }
    CompileMeans(JObj(m), Some(v));
    EnumValid(m, v, I);
  }

  lemma EnumAgrees(m: map<string, Json>, v: Json)
    requires EnumSchema(m) && forall i | 0 <= i < |m["enum"].elems| :: Agreed(m, m["enum"].elems[i])
    ensures Listed(m["enum"].elems, v) <==> v in m["enum"].elems && HasType(m, v)
  {
    var values := m["enum"].elems;
    if Listed(values, v) {
      var i :| 0 <= i < |values| && (values[i] == v || (values[i].JArr? && v in values[i].elems));
      if values[i] != v {
        assert Agreed(m, values[i]);
        assert v in values;
      }
      var j :| 0 <= j < |values| && values[j] == v;
      assert Agreed(m, values[j]);
    } else if v in values {
      var i :| 0 <= i < |values| && values[i] == v;
      assert Agreed(m, values[i]);
    }
  }

  /** An array among the values stands for the scalars it lists; an empty one cannot be built. */
  lemma ArrayEnumAccepts(values: seq<Json>, v: Json)
    ensures var z := Compile(JObj(map["enum" := JArr([JArr(values)])]));
      && (Buildable(z) <==> values != [])
      && (Accepts(z, Some(v)) <==> IsScalar(v) && v in values)
  {
    var m := map["enum" := JArr([JArr(values)])];
    var zs := seq(1, i requires 0 <= i < 1 => Literal([JArr(values)][i]));
    assert BuildEnum(m).value == UnionOf(zs) == zs[0] == ZLiteral(values);
    assert Compile(JObj(m)) == BuildUntyped(JObj(m)) == ZLiteral(values);
  }

  /** A witness: `{"enum": [["a"]]}` accepts "a" and refuses ["a"]. */
  lemma ArrayEnumOverReject()
    ensures var s, a := JObj(map["enum" := JArr([JArr([JStr("a")])])]), JStr("a");
      OverRejects(s, JArr([a]), LENIENT) && Accepts(Compile(s), Some(a)) && !Valid(s, a, LENIENT)
  {
    var m := map["enum" := JArr([JArr([JStr("a")])])];
    var values := m["enum"].elems;
    assert values == [JArr([JStr("a")])];
    ArrayEnumAccepts([JStr("a")], JArr([JStr("a")]));
    ArrayEnumAccepts([JStr("a")], JStr("a"));
    EnumValid(m, JArr([JStr("a")]), LENIENT);
    EnumValid(m, JStr("a"), LENIENT);
    assert JArr([JStr("a")]) in values && JStr("a") !in values;
  }

  // ---- Patterns and prefixes -----------------------------------------------------------------

  /** An object schema of the fragment but for its `patternProperties`, with additionalProperties. */
  ghost predicate PatternObject(m: map<string, Json>) {
    && "patternProperties" in m && "additionalProperties" in m
    && InFragment(JObj(m - {"patternProperties"}))
  }

  /** A schema of the fragment with keywords about members or elements is a typed one. */
  lemma TypedFragment(n: map<string, Json>)
    requires InFragment(JObj(n)) && ("items" in n || "additionalProperties" in n)
    ensures "type" in n && n.Keys <= {"type", "items", "properties", "required", "additionalProperties", "description"}
  {
    assert NodeInFragment(JObj(n));
  }

  lemma NotRead(m: map<string, Json>, k: string)
    requires (m - {k}).Keys <= {"type", "items", "properties", "required", "additionalProperties", "description"}
    requires k == "patternProperties" || k == "prefixItems"
    ensures "enum" !in m && "oneOf" !in m && "anyOf" !in m
    ensures "type" in m - {k} ==> "type" in m
  {
    assert forall x | x in m && x != k :: x in m - {k};
  }

  lemma PatternCompiles(m: map<string, Json>)
    requires "type" in m && "enum" !in m && "oneOf" !in m && "anyOf" !in m
    ensures Compile(JObj(m - {"patternProperties"})) == Compile(JObj(m))
    ensures Compile(JObj(m - {"prefixItems"})) == Compile(JObj(m))
  {
    SameTyped(m, m - {"patternProperties"});
    SameTyped(m, m - {"prefixItems"});
  }

  lemma SameTyped(m: map<string, Json>, n: map<string, Json>)
    requires "enum" !in m && "oneOf" !in m && "anyOf" !in m && "enum" !in n && "oneOf" !in n && "anyOf" !in n
    requires "type" in m && SameAt(m, n, "type") && SameAt(m, n, "items") && SameAt(m, n, "properties")
    requires SameAt(m, n, "required") && SameAt(m, n, "additionalProperties")
    ensures Compile(JObj(m)) == Compile(JObj(n))
  {
    var types := AsArray(m, "type");
    assert types == AsArray(n, "type");
    var zs := seq(|types|, i requires 0 <= i < |types| => BuildForType(JObj(m), types[i]));
    var ys := seq(|types|, i requires 0 <= i < |types| => BuildForType(JObj(n), types[i]));
    forall i | 0 <= i < |types| ensures zs[i] == ys[i] { SameParts(m, n, types[i]); }
    assert zs == ys;
    SameParts(m, n, JStr("object"));
    assert types != [] ==> BuildUntyped(JObj(m)) == UnionOf(zs) && BuildUntyped(JObj(n)) == UnionOf(ys);
  }

  /** A valid object is accepted if and only if its members that only a pattern claims satisfy
      `additionalProperties` as well; under `false` there may be none. */
  lemma PatternAcceptsIff(m: map<string, Json>, o: map<string, Json>, I: Interp)
    requires PatternObject(m) && SafeIntegers(JObj(o)) && Valid(JObj(m), JObj(o), I)
    ensures Accepts(Compile(JObj(m)), Some(JObj(o))) <==>
      forall k | k in o && k !in Properties(m) && I.claims(m["patternProperties"], k) ::
        Valid(m["additionalProperties"], o[k], I)
    ensures m["additionalProperties"] == JBool(false) ==>
      (Accepts(Compile(JObj(m)), Some(JObj(o))) <==> o.Keys <= Properties(m).Keys)
  {
    var n := m - {"patternProperties"};
    TypedFragment(n);
    NotRead(m, "patternProperties");
    PatternCompiles(m);
    Exact(JObj(n), JObj(o), I);
    UntypedValid(n, JObj(o), I);
    assert Properties(m) == Properties(n);
    assert forall k :: IsAdditional(n, k, I) <==> k !in Properties(m);
    if m["additionalProperties"] == JBool(false) {
      ClosedMembers(m, o, I);
      forall x ensures !Valid(JBool(false), x, I) {}
    }
  }

  /** A witness: names claimed by `patternProperties` are refused by a strict object. */
  lemma PatternPropertiesOverReject(s: Json, m: map<string, Json>)
    requires m == map["type" := JStr("object"), "patternProperties" := JObj(map[]), "additionalProperties" := JBool(false)]
    requires s == JObj(m)
    ensures OverRejects(s, JObj(map["x" := JNull]), CLAIMING)
  {
    CompiledType(s, JStr("object"));
    StrictRejects(BuildForType(s, JStr("object")), "x", JNull);
    assert !IsAdditional(m, "x", CLAIMING);
  }

  lemma StrictRejects(z: Zod, k: string, v: Json)
    requires z.ZObject? && k !in z.shape && z.rest == Strict
    ensures !Accepts(z, Some(JObj(map[k := v])))
  {
    assert k in map[k := v];
  }

  /** An array schema of the fragment but for its `prefixItems`, with items. */
  ghost predicate PrefixArray(m: map<string, Json>) {
    && "prefixItems" in m && "items" in m && InFragment(JObj(m - {"prefixItems"}))
  }

  /** A valid array is accepted if and only if the elements its prefix covers satisfy `items` as well. */
  lemma PrefixAcceptsIff(m: map<string, Json>, v: Json, I: Interp)
    requires PrefixArray(m) && v.JArr? && SafeIntegers(v) && Valid(JObj(m), v, I)
    ensures Accepts(Compile(JObj(m)), Some(v)) <==>
      forall i | 0 <= i < |v.elems| && i < PrefixLength(m) :: Valid(m["items"], v.elems[i], I)
  {
    var n := m - {"prefixItems"};
    TypedFragment(n);
    NotRead(m, "prefixItems");
    PatternCompiles(m);
    Exact(JObj(n), v, I);
    UntypedValid(n, v, I);
  }

  /** A witness: elements covered by `prefixItems` are held to `items` as well. */
  lemma PrefixItemsOverReject(s: Json, m: map<string, Json>, item: Json)
    requires item == JObj(map["type" := JStr("null")])
    requires m == map["type" := JStr("array"), "prefixItems" := JArr([JBool(true)]), "items" := item]
    requires s == JObj(m)
    ensures OverRejects(s, JArr([JBool(true)]), LENIENT)
  {
    PrefixIgnored(s, item, JBool(true));
    assert PrefixLength(m) == 1;
    assert Valid(s, JArr([JBool(true)]), LENIENT);
  }

  lemma PrefixIgnored(s: Json, item: Json, v: Json)
    requires item == JObj(map["type" := JStr("null")]) && !v.JNull?
    requires s.JObj? && "type" in s.members && s.members["type"] == JStr("array")
    requires "enum" !in s.members && "oneOf" !in s.members && "anyOf" !in s.members
    requires "items" in s.members && s.members["items"] == item
    ensures !Accepts(Compile(s), Some(JArr([v])))
  {
    CompiledType(s, JStr("array"));
    CompiledType(item, JStr("null"));
    assert BuildForType(item, JStr("null")) == ZNull;
    ElementRejected(ZNull, v);
  }

  lemma ElementRejected(e: Zod, v: Json)
    requires !Accepts(e, Some(v))
    ensures !Accepts(ZArray(e), Some(JArr([v])))
  {
    assert [v][0] == v;
  }

  // ---- Integers ------------------------------------------------------------------------------

  /** 2^53 is an integer, but not a safe one. */
  lemma UnsafeIntegerOverReject()
    ensures OverRejects(JObj(map["type" := JStr("integer")]), JNum(9007199254740992.0), LENIENT)
  {
    CompiledType(JObj(map["type" := JStr("integer")]), JStr("integer"));
    assert 9007199254740992.0 == 9007199254740992 as real;
  }

  // ---- oneOf ---------------------------------------------------------------------------------

  ghost predicate TwoValid(es: seq<Json>, v: Json, I: Interp) {
    exists i, j :: 0 <= i < j < |es| && Valid(es[i], v, I) && Valid(es[j], v, I)
  }

  ghost predicate SomeValid(es: seq<Json>, v: Json, I: Interp) {
    exists i :: 0 <= i < |es| && Valid(es[i], v, I)
  }

  ghost predicate OneValid(es: seq<Json>, v: Json, I: Interp) {
    exists i :: 0 <= i < |es| && Valid(es[i], v, I) && forall j | 0 <= j < |es| && j != i :: !Valid(es[j], v, I)
  }

  /** `oneOf` is compiled to a plain union: on branches of the fragment it is exact on a value if and only if no
      two branches validate the value. */
  lemma OneOfExactIff(m: map<string, Json>, v: Json, I: Interp)
    requires m.Keys == {"oneOf"} && m["oneOf"].JArr? && SafeIntegers(v)
    requires forall i | 0 <= i < |m["oneOf"].elems| :: InFragment(m["oneOf"].elems[i])
    ensures (Accepts(Compile(JObj(m)), Some(v)) <==> Valid(JObj(m), v, I)) <==> !TwoValid(m["oneOf"].elems, v, I)
  {
    var es := m["oneOf"].elems;
    OneOfAccepts(m, v, I);
    OneOfMeans(m, v, I);
    OneOrTwo(es, v, I);
  }

  lemma OneOfAccepts(m: map<string, Json>, v: Json, I: Interp)
    requires m.Keys == {"oneOf"} && m["oneOf"].JArr? && SafeIntegers(v)
    requires forall i | 0 <= i < |m["oneOf"].elems| :: InFragment(m["oneOf"].elems[i])
    ensures Accepts(Compile(JObj(m)), Some(v)) <==> SomeValid(m["oneOf"].elems, v, I)
  {
    var es := m["oneOf"].elems;
    assert Compile(JObj(m)) == BuildUntyped(JObj(m)) == UnionOf(CompileAll(es));
    UnionAccepts(CompileAll(es), Some(v));
    forall i | 0 <= i < |es| ensures Accepts(CompileAll(es)[i], Some(v)) <==> Valid(es[i], v, I) {
      Exact(es[i], v, I);
    }
  }

  lemma OneOfMeans(m: map<string, Json>, v: Json, I: Interp)
    requires m.Keys == {"oneOf"} && m["oneOf"].JArr?
    ensures Valid(JObj(m), v, I) <==> OneValid(m["oneOf"].elems, v, I)
  {
    assert forall k | k in m :: !Outside(k);
  }

  lemma OneOrTwo(es: seq<Json>, v: Json, I: Interp)
    ensures OneValid(es, v, I) <==> SomeValid(es, v, I) && !TwoValid(es, v, I)
  {
    if SomeValid(es, v, I) && !TwoValid(es, v, I) {
      var i :| 0 <= i < |es| && Valid(es[i], v, I);
      forall j | 0 <= j < |es| && j != i ensures !Valid(es[j], v, I) {
        assert i < j || j < i;
      }
    }
  }

  /** A witness: a value that two branches validate is accepted but not valid. */
  lemma OneOfOverAccepts(v: Json, I: Interp)
    ensures var s := JObj(map["oneOf" := JArr([JBool(true), JBool(true)])]);
      Accepts(Compile(s), Some(v)) && !Valid(s, v, I)
  {
    var es := [JBool(true), JBool(true)];
    var s := JObj(map["oneOf" := JArr(es)]);
    assert Compile(s) == BuildUntyped(s) == UnionOf(CompileAll(es));
    UnionAccepts(CompileAll(es), Some(v));
    assert CompileAll(es)[0] == ZUnknown;
    assert Valid(es[0], v, I) && Valid(es[1], v, I);
  }

  // ---- required ------------------------------------------------------------------------------

  /** Any accepted object stays accepted, and is not valid, without a required member that is undeclared or
      whose schema a missing member satisfies. */
  lemma UnenforcedOverAccepts(s: Json, o: map<string, Json>, r: string, I: Interp)
    requires ObjectSchema(s) && SafeIntegers(JObj(o)) && Accepts(Compile(s), Some(JObj(o)))
    requires "required" in s.members && s.members["required"].JArr? && JStr(r) in s.members["required"].elems
    requires r in Properties(s.members) ==> Open(Properties(s.members)[r])
    ensures Accepts(Compile(s), Some(JObj(o - {r}))) && !Valid(s, JObj(o - {r}), I)
  {
    var required := AsArray(s.members, "required");
    var i :| 0 <= i < |required| && required[i] == JStr(r);
    assert r in RequiredNames(s.members);
    DroppingUnenforced(s, o, r);
  }

  /** A witness: a required name that is not declared is not enforced. */
  lemma UndeclaredRequiredOverAccepts(I: Interp)
    ensures var s := JObj(map["type" := JStr("object"), "required" := JArr([JStr("x")])]);
      Accepts(Compile(s), Some(JObj(map[]))) && !Valid(s, JObj(map[]), I)
  {
    var m := map["type" := JStr("object"), "required" := JArr([JStr("x")])];
    CompiledType(JObj(m), JStr("object"));
    assert JStr("x") in [JStr("x")];
  }
}
