/** The two schema strippers: the one that removes what Anthropic's tool registration refuses, and the one
    that removes JSON Schema metadata from the management corpus. */
module Sanitizer {
  import opened JsonValue
  import opened JsonSchema

  const META_KEYS := {"$schema", "$id", "$defs", "$ref", "$comment"}
  const ANTHROPIC_FORBIDDEN_KEYS := META_KEYS + {"additionalProperties"}

  /** Drop the listed keys at every depth. */
  function Strip(keys: set<string>, j: Json): Json
    decreases j
  {
    match j
    case JObj(m) => JObj(map k | k in m && k !in keys :: Strip(keys, m[k]))
    case JArr(es) => JArr(seq(|es|, i requires 0 <= i < |es| => Strip(keys, es[i])))
    case _ => j
  }

  function SanitizeInputSchema(j: Json): Json { Strip(ANTHROPIC_FORBIDDEN_KEYS, j) }

  function StripJsonSchemaMeta(j: Json): Json { Strip(META_KEYS, j) }

  /** The TypeScript stripper: objects are rebuilt member by member. */
  method StripJsonSchemaMetaLoop(value: Json) returns (out: Json)
    ensures out == StripJsonSchemaMeta(value)
    decreases value
  {
    match value
    case JArr(es) =>
      var elems: seq<Json> := [];
      for i := 0 to |es|
        invariant |elems| == i
        invariant forall j | 0 <= j < i :: elems[j] == Strip(META_KEYS, es[j])
      {
        var e := StripJsonSchemaMetaLoop(es[i]);
        elems := elems + [e];
      }
      out := JArr(elems);
    case JObj(m) =>
      var members: map<string, Json> := map[];
      var todo := m.Keys;
      while todo != {}
        invariant todo <= m.Keys
        invariant members.Keys == set k | k in m && k !in todo && k !in META_KEYS
        invariant forall k | k in members :: members[k] == Strip(META_KEYS, m[k])
        decreases todo
      {
        var k :| k in todo;
        todo := todo - {k};
        if k in META_KEYS { continue; }
        var v := StripJsonSchemaMetaLoop(m[k]);
        members := members[k := v];
      }
      out := JObj(members);
    case _ => out := value;
  }

  /** No listed key at any depth. */
  predicate FreeOf(keys: set<string>, j: Json) {
    match j
    case JObj(m) => forall k | k in m :: k !in keys && FreeOf(keys, m[k])
    case JArr(es) => forall i | 0 <= i < |es| :: FreeOf(keys, es[i])
    case _ => true
  }

  /** The names each stripper drops; whatever else a value has is kept, stripped itself, in its place. */
  lemma StripsExactly(j: Json)
    ensures var names := {"$schema", "$id", "$defs", "$ref", "$comment"};
      && var meta, safe := StripJsonSchemaMeta(j), SanitizeInputSchema(j);
      match j
      case JObj(m) =>
        && meta.JObj? && meta.members.Keys == m.Keys - names
        && safe.JObj? && safe.members.Keys == m.Keys - names - {"additionalProperties"}
        && (forall k | k in meta.members :: meta.members[k] == StripJsonSchemaMeta(m[k]))
        && (forall k | k in safe.members :: safe.members[k] == SanitizeInputSchema(m[k]))
      case JArr(es) =>
        && meta.JArr? && |meta.elems| == |es| && (forall i | 0 <= i < |es| :: meta.elems[i] == StripJsonSchemaMeta(es[i]))
        && safe.JArr? && |safe.elems| == |es| && (forall i | 0 <= i < |es| :: safe.elems[i] == SanitizeInputSchema(es[i]))
      case _ => meta == j && safe == j
  {
  }

  lemma {:induction false} StripLeavesNone(keys: set<string>, j: Json)
    ensures FreeOf(keys, Strip(keys, j))
  {
    match j
    case JObj(m) =>
      forall k | k in m && k !in keys ensures FreeOf(keys, Strip(keys, m[k])) { StripLeavesNone(keys, m[k]); }
    case JArr(es) =>
      forall i | 0 <= i < |es| ensures FreeOf(keys, Strip(keys, es[i])) { StripLeavesNone(keys, es[i]); }
    case _ =>
  }

  /** Stripping changes nothing exactly when there is nothing to strip. */
  lemma {:induction false} StripIdentityIff(keys: set<string>, j: Json)
    ensures Strip(keys, j) == j <==> FreeOf(keys, j)
  {
    match j
    case JObj(m) =>
      var s := Strip(keys, j).members;
      forall k | k in m ensures Strip(keys, m[k]) == m[k] <==> FreeOf(keys, m[k]) { StripIdentityIff(keys, m[k]); }
      if FreeOf(keys, j) {
        assert s.Keys == m.Keys;
        assert s == m;
      } else {
        var k :| k in m && (k in keys || !FreeOf(keys, m[k]));
        assert k !in s || s[k] != m[k];
      }
    case JArr(es) =>
      var s := Strip(keys, j).elems;
      forall i | 0 <= i < |es| ensures s[i] == es[i] <==> FreeOf(keys, es[i]) { StripIdentityIff(keys, es[i]); }
    case _ =>
  }

  /** Stripping twice is stripping the union, in either order. */
  lemma {:induction false} StripComposes(a: set<string>, b: set<string>, j: Json)
    ensures Strip(a, Strip(b, j)) == Strip(a + b, j)
  {
    match j
    case JObj(m) =>
      var once := Strip(b, j).members;
      var twice := Strip(a, Strip(b, j)).members;
      var both := Strip(a + b, j).members;
      assert twice.Keys == both.Keys;
      forall k | k in both ensures twice[k] == both[k] {
        assert once[k] == Strip(b, m[k]);
        StripComposes(a, b, m[k]);
      }
    case JArr(es) =>
      forall i | 0 <= i < |es| ensures Strip(a, Strip(b, es[i])) == Strip(a + b, es[i]) { StripComposes(a, b, es[i]); }
      assert Strip(a, Strip(b, j)).elems == Strip(a + b, j).elems;
    case _ =>
  }

  /** Both strippers are idempotent, and combining them in either order is the stronger one alone. */
  lemma StrippersCompose(j: Json)
    ensures SanitizeInputSchema(SanitizeInputSchema(j)) == SanitizeInputSchema(j)
    ensures StripJsonSchemaMeta(StripJsonSchemaMeta(j)) == StripJsonSchemaMeta(j)
    ensures SanitizeInputSchema(StripJsonSchemaMeta(j)) == SanitizeInputSchema(j)
    ensures StripJsonSchemaMeta(SanitizeInputSchema(j)) == SanitizeInputSchema(j)
  {
    var m, f := META_KEYS, ANTHROPIC_FORBIDDEN_KEYS;
    StripComposes(f, f, j);
    StripComposes(m, m, j);
    StripComposes(f, m, j);
    StripComposes(m, f, j);
    assert f + f == f && m + m == m && f + m == f && m + f == f;
  }

  // ---- Stripping only relaxes ----------------------------------------------------------------

  /** Key sets that do not touch the keywords deciding which members or elements others apply to. */
  predicate Droppable(keys: set<string>) {
    keys !! {"properties", "patternProperties", "prefixItems", "type", "enum", "oneOf", "anyOf", "items", "required"}
  }

  /** At every place of `s` where a schema stands, the keywords outside the model that survive become no
      stricter, and surviving patterns claim no fewer names. */
  ghost predicate RelaxedAt(keys: set<string>, s: Json, I: Interp)
    decreases s
  {
    match s
    case JObj(m) =>
      && (forall k, v | k in m && k !in keys && Outside(k) && I.holds(k, s, v) :: I.holds(k, Strip(keys, s), v))
      && ("patternProperties" in m && "additionalProperties" in m && "additionalProperties" !in keys ==>
            forall name | I.claims(m["patternProperties"], name) :: I.claims(Strip(keys, m["patternProperties"]), name))
      && ("anyOf" in m && m["anyOf"].JArr? ==>
            forall i | 0 <= i < |m["anyOf"].elems| :: RelaxedAt(keys, m["anyOf"].elems[i], I))
      && ("items" in m ==> RelaxedAt(keys, m["items"], I))
      && (forall k | k in Properties(m) :: RelaxedAt(keys, Properties(m)[k], I))
      && ("additionalProperties" in m && "additionalProperties" !in keys ==>
            RelaxedAt(keys, m["additionalProperties"], I))
    case _ => true
  }

  /** Schemas without oneOf and with enum values free of listed keys; while `additionalProperties` survives,
      no declared property carries a listed name. */
  predicate Strippable(keys: set<string>, s: Json)
    decreases s, 1
  {
    match s
    case JObj(m) =>
      && StrippableNode(keys, s)
      && ("additionalProperties" in m && "additionalProperties" !in keys ==> Properties(m).Keys !! keys)
    case _ => true
  }

  /** `Strippable` without the condition on the names declared at the top. */
  predicate StrippableNode(keys: set<string>, s: Json)
    requires s.JObj?
    decreases s, 0
  {
    var m := s.members;
    && ("enum" in m && m["enum"].JArr? ==> forall i | 0 <= i < |m["enum"].elems| :: FreeOf(keys, m["enum"].elems[i]))
    && ("oneOf" in m ==> !m["oneOf"].JArr?)
    && ("anyOf" in m && m["anyOf"].JArr? ==>
          forall i | 0 <= i < |m["anyOf"].elems| :: Strippable(keys, m["anyOf"].elems[i]))
    && ("items" in m ==> Strippable(keys, m["items"]))
    && (forall k | k in Properties(m) :: Strippable(keys, Properties(m)[k]))
    && ("additionalProperties" in m && "additionalProperties" !in keys ==> Strippable(keys, m["additionalProperties"]))
  }

  /** Any value valid before stripping is valid after. */
  lemma {:induction false} StripRelaxes(keys: set<string>, s: Json, v: Json, I: Interp)
    requires Droppable(keys) && Strippable(keys, s) && RelaxedAt(keys, s, I)
    requires Valid(s, v, I)
    ensures Valid(Strip(keys, s), v, I)
    decreases s, 2
  {
    if s.JObj? {
      if v.JObj? {
        StripNodeIff(keys, s, v.members, I);
      } else {
        NoOneOf(keys, s);
        StripOthers(keys, s, v, I);
      }
    }
  }

  lemma NoOneOf(keys: set<string>, s: Json)
    requires s.JObj? && StrippableNode(keys, s)
    ensures "oneOf" in s.members ==> !s.members["oneOf"].JArr?
    ensures "oneOf" in Strip(keys, s).members ==> !Strip(keys, s).members["oneOf"].JArr?
  {
  }

  /** Everything but the keywords about members survives stripping. */
  lemma StripOthers(keys: set<string>, s: Json, v: Json, I: Interp)
    requires s.JObj? && Droppable(keys) && StrippableNode(keys, s) && RelaxedAt(keys, s, I)
    requires OthersValid(s.members, v, I)
    ensures OthersValid(Strip(keys, s).members, v, I)
    decreases s, 0
  {
    var m := s.members;
    var t := Strip(keys, s).members;
    assert forall k | k in t :: t[k] == Strip(keys, m[k]);
    StripTypeOk(keys, m, v);
    if "enum" in m && m["enum"].JArr? { StripFree(keys, m["enum"].elems); }
    if "anyOf" in m && m["anyOf"].JArr? { StripAnyOf(keys, m["anyOf"].elems, v, I); }
    if "items" in m && v.JArr? {
      forall i | PrefixLength(m) <= i < |v.elems| ensures Valid(t["items"], v.elems[i], I) {
        StripRelaxes(keys, m["items"], v.elems[i], I);
      }
    }
  }

  lemma StripTypeOk(keys: set<string>, m: map<string, Json>, v: Json)
    ensures "type" in m && TypeOk(m["type"], v) ==> TypeOk(Strip(keys, m["type"]), v)
  {
    if "type" in m && m["type"].JArr? && TypeOk(m["type"], v) {
      var ts := m["type"].elems;
      var i :| 0 <= i < |ts| && ts[i].JStr? && TypeMatches(ts[i].s, v);
      assert Strip(keys, m["type"]).elems[i] == ts[i];
    }
  }

  lemma StripFree(keys: set<string>, es: seq<Json>)
    requires forall i | 0 <= i < |es| :: FreeOf(keys, es[i])
    ensures Strip(keys, JArr(es)) == JArr(es)
  {
    StripIdentityIff(keys, JArr(es));
  }

  lemma StripAnyOf(keys: set<string>, es: seq<Json>, v: Json, I: Interp)
    requires Droppable(keys)
    requires forall i | 0 <= i < |es| :: Strippable(keys, es[i]) && RelaxedAt(keys, es[i], I)
    requires exists i :: 0 <= i < |es| && Valid(es[i], v, I)
    ensures var ts := Strip(keys, JArr(es)).elems; exists i :: 0 <= i < |ts| && Valid(ts[i], v, I)
    decreases es
  {
    var i :| 0 <= i < |es| && Valid(es[i], v, I);
    StripRelaxes(keys, es[i], v, I);
    assert Strip(keys, JArr(es)).elems[i] == Strip(keys, es[i]);
  }

  /** The declared members left after stripping. */
  lemma StrippedProperties(keys: set<string>, s: Json) returns (declared: map<string, Json>)
    requires s.JObj? && Droppable(keys)
    ensures declared == Properties(Strip(keys, s).members)
    ensures declared.Keys == Properties(s.members).Keys - keys
    ensures forall k | k in declared :: declared[k] == Strip(keys, Properties(s.members)[k])
  {
    declared := Properties(Strip(keys, s).members);
  }

  /** The members whose declaration is stripped: while `additionalProperties` survives, it now applies to them
      unless a pattern claims them. */
  ghost predicate OrphansValid(keys: set<string>, s: Json, o: map<string, Json>, I: Interp)
    requires s.JObj?
  {
    var t := Strip(keys, s).members;
    "additionalProperties" in t ==>
      forall k | k in o && k in Properties(s.members) && k in keys && IsAdditional(t, k, I) ::
        Valid(t["additionalProperties"], o[k], I)
  }

  /** The exact condition for objects: a valid object stays valid if and only if the members whose declaration
      is stripped satisfy what is left of `additionalProperties`. */
  lemma StripNodeIff(keys: set<string>, s: Json, o: map<string, Json>, I: Interp)
    requires s.JObj? && Droppable(keys) && StrippableNode(keys, s) && RelaxedAt(keys, s, I) && Valid(s, JObj(o), I)
    ensures Valid(Strip(keys, s), JObj(o), I) <==> OrphansValid(keys, s, o, I)
    decreases s, 1
  {
    NoOneOf(keys, s);
    StripOthers(keys, s, JObj(o), I);
    StripMembers(keys, s, o, I);
  }

  lemma StripMembers(keys: set<string>, s: Json, o: map<string, Json>, I: Interp)
    requires s.JObj? && Droppable(keys) && StrippableNode(keys, s) && RelaxedAt(keys, s, I)
    requires ObjectValid(s.members, o, I)
    ensures ObjectValid(Strip(keys, s).members, o, I) <==> OrphansValid(keys, s, o, I)
    decreases s, 0
  {
    var m := s.members;
    var t := Strip(keys, s).members;
    assert forall k | k in t :: t[k] == Strip(keys, m[k]);
    var declared := StrippedProperties(keys, s);
    forall k | k in Properties(t) && k in o ensures Valid(Properties(t)[k], o[k], I) {
      StripRelaxes(keys, Properties(m)[k], o[k], I);
    }
    StripRequired(keys, m, o);
    if "additionalProperties" in t {
      forall k | k in o && IsAdditional(t, k, I) && !(k in Properties(m) && k in keys)
        ensures Valid(t["additionalProperties"], o[k], I)
      {
        StillAdditional(keys, s, k, I);
        StripRelaxes(keys, m["additionalProperties"], o[k], I);
      }
    }
  }

  /** Unless its declaration is stripped, a member is additional after stripping only if it was before. */
  lemma StillAdditional(keys: set<string>, s: Json, k: string, I: Interp)
    requires s.JObj? && Droppable(keys) && RelaxedAt(keys, s, I)
    requires "additionalProperties" in Strip(keys, s).members
    requires IsAdditional(Strip(keys, s).members, k, I) && !(k in Properties(s.members) && k in keys)
    ensures IsAdditional(s.members, k, I)
  {
    var declared := StrippedProperties(keys, s);
  }

  lemma StripRequired(keys: set<string>, m: map<string, Json>, o: map<string, Json>)
    requires "required" in m && m["required"].JArr? ==> forall r | JStr(r) in m["required"].elems :: r in o
    ensures "required" in m && Strip(keys, m["required"]).JArr? ==>
      forall r | JStr(r) in Strip(keys, m["required"]).elems :: r in o
  {
    if "required" in m && m["required"].JArr? {
      var before, after := m["required"].elems, Strip(keys, m["required"]).elems;
      forall r | JStr(r) in after ensures r in o {
        var i :| 0 <= i < |after| && after[i] == JStr(r);
        assert after[i] == Strip(keys, before[i]);
        assert JStr(r) in before;
      }
    }
  }

  /** The Anthropic sanitizer relaxes whatever the properties are called, since `additionalProperties` goes
      with them. */
  lemma SanitizeRelaxes(s: Json, v: Json, I: Interp)
    requires Strippable(ANTHROPIC_FORBIDDEN_KEYS, s) && RelaxedAt(ANTHROPIC_FORBIDDEN_KEYS, s, I) && Valid(s, v, I)
    ensures Valid(SanitizeInputSchema(s), v, I)
  {
    StripRelaxes(ANTHROPIC_FORBIDDEN_KEYS, s, v, I);
  }

  lemma StripMetaRelaxes(s: Json, v: Json, I: Interp)
    requires Strippable(META_KEYS, s) && RelaxedAt(META_KEYS, s, I) && Valid(s, v, I)
    ensures Valid(StripJsonSchemaMeta(s), v, I)
  {
    StripRelaxes(META_KEYS, s, v, I);
  }

  // ---- When keywords outside the model are relaxed -------------------------------------------

  /** A keyword whose meaning depends on its own value alone. */
  ghost predicate OwnValue(k: string, I: Interp) {
    forall m: Json, n: Json, v: Json | m.JObj? && n.JObj? && k in m.members && k in n.members && m.members[k] == n.members[k] ::
      I.holds(k, m, v) ==> I.holds(k, n, v)
  }

  /** At every place of `s` where a schema stands, each surviving keyword outside the model depends on its own
      value alone and has a value with nothing to strip. `const`, `not`, bounds and formats are such keywords;
      schemas with none outside the model always qualify. */
  ghost predicate Plain(keys: set<string>, s: Json, I: Interp)
    decreases s
  {
    match s
    case JObj(m) =>
      && (forall k | k in m && k !in keys && Outside(k) :: OwnValue(k, I) && FreeOf(keys, m[k]))
      && ("anyOf" in m && m["anyOf"].JArr? ==>
            forall i | 0 <= i < |m["anyOf"].elems| :: Plain(keys, m["anyOf"].elems[i], I))
      && ("items" in m ==> Plain(keys, m["items"], I))
      && (forall k | k in Properties(m) :: Plain(keys, Properties(m)[k], I))
      && ("additionalProperties" in m && "additionalProperties" !in keys ==> Plain(keys, m["additionalProperties"], I))
    case _ => true
  }

  /** A condition that can be read off the schema. */
  lemma {:induction false} PlainIsRelaxed(keys: set<string>, s: Json, I: Interp)
    requires Droppable(keys) && Plain(keys, s, I)
    ensures RelaxedAt(keys, s, I)
  {
    if s.JObj? {
      var m := s.members;
      forall k, v | k in m && k !in keys && Outside(k) && I.holds(k, s, v) ensures I.holds(k, Strip(keys, s), v) {
        assert OwnValue(k, I);
        StripIdentityIff(keys, m[k]);
      }
      if "patternProperties" in m { StripIdentityIff(keys, m["patternProperties"]); }
      if "anyOf" in m && m["anyOf"].JArr? {
        forall i | 0 <= i < |m["anyOf"].elems| ensures RelaxedAt(keys, m["anyOf"].elems[i], I) {
          PlainIsRelaxed(keys, m["anyOf"].elems[i], I);
        }
      }
      if "items" in m { PlainIsRelaxed(keys, m["items"], I); }
      forall k | k in Properties(m) ensures RelaxedAt(keys, Properties(m)[k], I) {
        PlainIsRelaxed(keys, Properties(m)[k], I);
      }
      if "additionalProperties" in m && "additionalProperties" !in keys {
        PlainIsRelaxed(keys, m["additionalProperties"], I);
      }
    }
  }

  /** Section 6.1.3 of JSON Schema Validation. */
  ghost predicate StandardConst(I: Interp) {
    forall s: Json, v: Json | s.JObj? && "const" in s.members :: I.holds("const", s, v) <==> v == s.members["const"]
  }

  /** Whatever the first schema validates, so does the second. */
  ghost predicate Implied(s: Json, t: Json, I: Interp) {
    forall v | Valid(s, v, I) :: Valid(t, v, I)
  }

  /** With the standard meaning of `const` the condition on its value is needed: a bare `const` is relaxed if
      and only if its value has nothing to strip. */
  lemma ConstRelaxedIff(keys: set<string>, value: Json, I: Interp)
    requires StandardConst(I) && "const" !in keys
    ensures var s := JObj(map["const" := value]);
      Implied(s, Strip(keys, s), I) <==> FreeOf(keys, value)
  {
    var s := JObj(map["const" := value]);
    StripConst(keys, value, "const");
    StripIdentityIff(keys, value);
    ConstMeans(value, I);
    ConstMeans(Strip(keys, value), I);
    OneValue(s, Strip(keys, s), value, Strip(keys, value), I);
  }

  lemma StripConst(keys: set<string>, value: Json, k: string)
    requires k !in keys
    ensures Strip(keys, JObj(map[k := value])) == JObj(map[k := Strip(keys, value)])
  {
    assert Strip(keys, JObj(map[k := value])).members == map[k := Strip(keys, value)];
  }

  /** Schemas that each admit one value. */
  lemma OneValue(s: Json, t: Json, a: Json, b: Json, I: Interp)
    requires forall v :: Valid(s, v, I) <==> v == a
    requires forall v :: Valid(t, v, I) <==> v == b
    ensures Implied(s, t, I) <==> b == a
  {
    assert Valid(s, a, I);
  }

  lemma ConstMeans(value: Json, I: Interp)
    requires StandardConst(I)
    ensures forall v :: Valid(JObj(map["const" := value]), v, I) <==> v == value
  {
    var m := map["const" := value];
    forall v ensures Valid(JObj(m), v, I) <==> v == value {
      assert "const" in m && Outside("const");
      assert I.holds("const", JObj(m), v) <==> v == JObj(m).members["const"];
    }
  }

  // ---- Closed objects ------------------------------------------------------------------------

  /** An object closed by `additionalProperties: false`: a valid object stays valid if and only if it has no
      member with a listed name. */
  lemma ClosedStripIff(keys: set<string>, s: Json, o: map<string, Json>, I: Interp)
    requires s.JObj? && Droppable(keys) && StrippableNode(keys, s) && RelaxedAt(keys, s, I) && Valid(s, JObj(o), I)
    requires "additionalProperties" in s.members && s.members["additionalProperties"] == JBool(false)
    requires "patternProperties" !in s.members && "additionalProperties" !in keys
    ensures Valid(Strip(keys, s), JObj(o), I) <==> o.Keys !! keys
  {
    StripNodeIff(keys, s, o, I);
    var m, t := s.members, Strip(keys, s).members;
    assert t["additionalProperties"] == Strip(keys, m["additionalProperties"]) == JBool(false);
    var declared := StrippedProperties(keys, s);
    forall k | k in o ensures k in Properties(m) {
      assert IsAdditional(m, k, I) ==> Valid(m["additionalProperties"], o[k], I);
    }
    forall k | k in o && k in keys ensures IsAdditional(t, k, I) && !Valid(t["additionalProperties"], o[k], I) {}
  }

  /** A witness: a declared property with a listed name is stripped too, and a closed object then refuses it. */
  lemma StripMetaCanTighten(s: Json, m: map<string, Json>, I: Interp)
    requires m == map["properties" := JObj(map["$ref" := JBool(true)]), "additionalProperties" := JBool(false)]
    requires s == JObj(m)
    ensures Valid(s, JObj(map["$ref" := JNull]), I)
    ensures !Valid(StripJsonSchemaMeta(s), JObj(map["$ref" := JNull]), I)
  {
    var o: map<string, Json> := map["$ref" := JNull];
    assert !IsAdditional(m, "$ref", I) && Valid(JBool(true), JNull, I);
    assert forall k | k in m :: !Outside(k);
    assert ObjectValid(m, o, I) && OthersValid(m, JObj(o), I) && OneOfValid(m, JObj(o), I);
    var t := StrippedTightened(m);
    ClosedRefuses(t, "$ref", JNull, I);
  }

  lemma StrippedTightened(m: map<string, Json>) returns (t: map<string, Json>)
    requires m == map["properties" := JObj(map["$ref" := JBool(true)]), "additionalProperties" := JBool(false)]
    ensures JObj(t) == StripJsonSchemaMeta(JObj(m))
    ensures Properties(t) == map[] && "patternProperties" !in t
    ensures "additionalProperties" in t && t["additionalProperties"] == JBool(false)
  {
    t := StripJsonSchemaMeta(JObj(m)).members;
    StripsToNothing(m["properties"]);
    assert t["properties"] == Strip(META_KEYS, m["properties"]);
    assert t["additionalProperties"] == Strip(META_KEYS, JBool(false));
  }

  lemma StripsToNothing(j: Json)
    requires j == JObj(map["$ref" := JBool(true)])
    ensures Strip(META_KEYS, j) == JObj(map[])
  {
  }

  lemma ClosedRefuses(m: map<string, Json>, k: string, v: Json, I: Interp)
    requires Properties(m) == map[] && "patternProperties" !in m
    requires "additionalProperties" in m && m["additionalProperties"] == JBool(false)
    ensures !Valid(JObj(m), JObj(map[k := v]), I)
  {
    if ObjectValid(m, map[k := v], I) { ClosedMembers(m, map[k := v], I); }
    assert k in map[k := v] && IsAdditional(m, k, I);
  }
}
