/** What the compiled parser accepts, measured against JSON Schema validity. */
module CompilerCorrectness {
  import opened Common
  import opened JsonValue
  import opened JsonSchema
  import opened ZodCompiler

  const TYPE_NAMES := {"null", "boolean", "string", "number", "integer", "array", "object"}

  predicate IsTypeName(t: Json) { t.JStr? && t.s in TYPE_NAMES }

  /** A schema whose parser also accepts `undefined`, so that `required` does not bite on it. */
  predicate Open(s: Json) {
    match s
    case JObj(m) =>
      "type" !in m && "enum" !in m &&
      ("anyOf" in m && m["anyOf"].JArr? ==> exists i | 0 <= i < |m["anyOf"].elems| :: Open(m["anyOf"].elems[i]))
    case _ => true
  }

  predicate HasType(m: map<string, Json>, v: Json) { "type" in m ==> TypeOk(m["type"], v) }

  // ---- The fragment on which compilation is exact --------------------------------------------

  /** Schemas made of type, items, properties, required, additionalProperties, a scalar enum, alone or beside a
      type that its values have, a non-empty anyOf alone, and descriptions; typed unless empty. */
  predicate InFragment(s: Json)
    decreases s, 1
  {
    match s
    case JBool(b) => b
    case JObj(m) => NodeInFragment(s) && RequiredEnforced(m)
    case _ => false
  }

  /** `InFragment` without the condition on `required`. */
  predicate NodeInFragment(s: Json)
    requires s.JObj?
    decreases s, 0
  {
    var m := s.members;
    if "enum" in m then
      && m.Keys <= {"enum", "type", "description"}
      && m["enum"].JArr? && m["enum"].elems != []
      && forall i | 0 <= i < |m["enum"].elems| :: IsScalar(m["enum"].elems[i]) && HasType(m, m["enum"].elems[i])
    else if "anyOf" in m then
      && m.Keys <= {"anyOf", "description"}
      && m["anyOf"].JArr? && m["anyOf"].elems != []
      && forall i | 0 <= i < |m["anyOf"].elems| :: InFragment(m["anyOf"].elems[i])
    else if "type" !in m then m.Keys <= {"description"}
    else
      && m.Keys <= {"type", "items", "properties", "required", "additionalProperties", "description"}
      && AsArray(m, "type") != []
      && (forall i | 0 <= i < |AsArray(m, "type")| :: IsTypeName(AsArray(m, "type")[i]))
      && ("items" in m ==> InFragment(m["items"]))
      && ("properties" in m ==> m["properties"].JObj?)
      && (forall k | k in Properties(m) :: InFragment(Properties(m)[k]))
      && ("required" in m ==> m["required"].JArr?)
      && ("additionalProperties" in m ==>
            m["additionalProperties"].JBool? || InFragment(m["additionalProperties"]))
  }

  /** Every required name is declared, with a schema that a missing member does not satisfy. */
  predicate RequiredEnforced(m: map<string, Json>) {
    "required" in m && m["required"].JArr? ==>
      forall i | 0 <= i < |m["required"].elems| :: m["required"].elems[i].JStr? ==>
        m["required"].elems[i].s in Properties(m) && !Open(Properties(m)[m["required"].elems[i].s])
  }

  // ---- Unions --------------------------------------------------------------------------------

  lemma UnionAccepts(zs: seq<Zod>, input: Option<Json>)
    ensures Accepts(UnionOf(zs), input) <==> exists i :: 0 <= i < |zs| && Accepts(zs[i], input)
  {
    if |zs| == 1 { assert UnionOf(zs) == zs[0]; }
  }

  lemma EnumAccepts(m: map<string, Json>, input: Option<Json>)
    requires "enum" in m && m["enum"].JArr? && m["enum"].elems != []
    requires forall i | 0 <= i < |m["enum"].elems| :: IsScalar(m["enum"].elems[i])
    ensures Accepts(BuildEnum(m).value, input) <==> input.Some? && input.value in m["enum"].elems
  {
    var values := m["enum"].elems;
    var zs := seq(|values|, i requires 0 <= i < |values| => Literal(values[i]));
    UnionAccepts(zs, input);
    forall i | 0 <= i < |values| ensures Accepts(zs[i], input) <==> input == Some(values[i]) {
      assert zs[i] == Literal(values[i]);
    }
  }

  // ---- Missing members -----------------------------------------------------------------------

  /** The compiled parser accepts `undefined` exactly for open schemas. */
  lemma {:induction false} MissingAccepted(s: Json)
    requires InFragment(s)
    ensures Accepts(Compile(s), None) <==> Open(s)
  {
    if s.JObj? {
      var m := s.members;
      if "enum" in m {
        EnumAccepts(m, None);
      } else if "anyOf" in m {
        var es := m["anyOf"].elems;
        UnionAccepts(CompileAll(es), None);
        forall i | 0 <= i < |es| ensures Accepts(CompileAll(es)[i], None) <==> Open(es[i]) {
          MissingAccepted(es[i]);
        }
      } else if "type" in m {
        TypedRejectsMissing(s);
      }
    }
  }

  lemma TypedRejectsMissing(s: Json)
    requires s.JObj? && "type" in s.members && "enum" !in s.members && "anyOf" !in s.members && NodeInFragment(s)
    ensures !Accepts(Compile(s), None)
  {
    var types := AsArray(s.members, "type");
    var zs := seq(|types|, i requires 0 <= i < |types| => BuildForType(s, types[i]));
    UnionAccepts(zs, None);
    forall i | 0 <= i < |types| ensures !Accepts(zs[i], None) {
      assert zs[i] == BuildForType(s, types[i]) && IsTypeName(types[i]);
    }
    assert BuildUntyped(s) == UnionOf(zs);
  }

  // ---- Exactness -----------------------------------------------------------------------------

  /** What one type name asks of a value, given the schema around it. */
  ghost predicate ValidForType(m: map<string, Json>, t: string, v: Json, I: Interp) {
    && TypeMatches(t, v)
    && ("items" in m && v.JArr? ==>
          forall i | PrefixLength(m) <= i < |v.elems| :: Valid(m["items"], v.elems[i], I))
    && (v.JObj? ==> ObjectValid(m, v.members, I))
  }

  /** A typed schema is valid when one of its type names is. */
  lemma ValidByType(s: Json, v: Json, I: Interp)
    requires s.JObj? && "type" in s.members && !("enum" in s.members) && !("anyOf" in s.members)
    requires NodeInFragment(s)
    ensures Valid(s, v, I) <==>
      exists i :: 0 <= i < |AsArray(s.members, "type")| && ValidForType(s.members, AsArray(s.members, "type")[i].s, v, I)
  {
    var m := s.members;
    var types := AsArray(m, "type");
    assert forall i | 0 <= i < |types| :: IsTypeName(types[i]);
    if m["type"].JArr? {
      assert TypeOk(m["type"], v) <==> exists i :: 0 <= i < |types| && TypeMatches(types[i].s, v);
    } else {
      assert types == [m["type"]] && types[0].JStr?;
      assert TypeOk(m["type"], v) <==> TypeMatches(types[0].s, v);
    }
    if v.JObj? { assert "properties" in m ==> Properties(m) == m["properties"].members; }
  }

  /** Compiler exactness: in the fragment, on values whose integers are safe, the compiled parser accepts a
      value exactly when the schema validates it. */
  lemma {:induction false} Exact(s: Json, v: Json, I: Interp)
    requires InFragment(s) && SafeIntegers(v)
    ensures Accepts(Compile(s), Some(v)) <==> Valid(s, v, I)
    decreases s, 5
  {
    if s.JObj? {
      var m := s.members;
      if "enum" in m {
        EnumAccepts(m, Some(v));
      } else if "anyOf" in m {
        var es := m["anyOf"].elems;
        UnionAccepts(CompileAll(es), Some(v));
        forall i | 0 <= i < |es| ensures Accepts(CompileAll(es)[i], Some(v)) <==> Valid(es[i], v, I) {
          Exact(es[i], v, I);
        }
      } else if "type" in m {
        ExactTyped(s, v, I);
      }
    }
  }

  lemma ExactTyped(s: Json, v: Json, I: Interp)
    requires s.JObj? && "type" in s.members && !("enum" in s.members) && !("anyOf" in s.members)
    requires InFragment(s) && SafeIntegers(v)
    ensures Accepts(Compile(s), Some(v)) <==> Valid(s, v, I)
    decreases s, 4
  {
    var m := s.members;
    var types := AsArray(m, "type");
    var zs := seq(|types|, i requires 0 <= i < |types| => BuildForType(s, types[i]));
    UnionAccepts(zs, Some(v));
    ValidByType(s, v, I);
    forall i | 0 <= i < |types| ensures Accepts(zs[i], Some(v)) <==> ValidForType(m, types[i].s, v, I) {
      assert zs[i] == BuildForType(s, types[i]) && IsTypeName(types[i]);
      ExactForType(s, types[i], v, I);
    }
  }

  lemma ExactForType(s: Json, t: Json, v: Json, I: Interp)
    requires s.JObj? && "type" in s.members && !("enum" in s.members) && !("anyOf" in s.members)
    requires InFragment(s) && SafeIntegers(v) && IsTypeName(t)
    ensures Accepts(BuildForType(s, t), Some(v)) <==> ValidForType(s.members, t.s, v, I)
    decreases s, 3
  {
    var m := s.members;
    if t == JStr("array") {
      if v.JArr? && "items" in m {
        forall i | 0 <= i < |v.elems|
          ensures Accepts(Compile(m["items"]), Some(v.elems[i])) <==> Valid(m["items"], v.elems[i], I)
        {
          Exact(m["items"], v.elems[i], I);
        }
      }
    } else if t == JStr("object") {
      if v.JObj? {
        ExactObject(s, v.members, I);
      }
    }
  }

  /** What the schema asks of one member. */
  ghost predicate MemberValid(m: map<string, Json>, k: string, x: Json, I: Interp) {
    && (k in Properties(m) ==> Valid(Properties(m)[k], x, I))
    && ("additionalProperties" in m && IsAdditional(m, k, I) ==> Valid(m["additionalProperties"], x, I))
  }

  function RequiredNames(m: map<string, Json>): set<string> {
    set i | 0 <= i < |AsArray(m, "required")| && AsArray(m, "required")[i].JStr? :: AsArray(m, "required")[i].s
  }

  lemma ObjectValidByMember(m: map<string, Json>, o: map<string, Json>, I: Interp)
    requires "required" in m ==> m["required"].JArr?
    ensures ObjectValid(m, o, I) <==> (forall k | k in o :: MemberValid(m, k, o[k], I)) && RequiredNames(m) <= o.Keys
  {
    var required := AsArray(m, "required");
    assert RequiredNames(m) <= o.Keys <==> forall r | JStr(r) in required :: r in o by {
      forall r | JStr(r) in required ensures r in RequiredNames(m) {
        var i :| 0 <= i < |required| && required[i] == JStr(r);
      }
    }
  }

  /** What an object parser asks of one member. */
  ghost predicate MemberAccepted(z: Zod, k: string, x: Json)
    requires z.ZObject?
  {
    if k in z.shape then Accepts(z.shape[k], Some(x)) else z.rest.Catchall? && Accepts(z.rest.z, Some(x))
  }

  lemma ObjectAcceptsByMember(z: Zod, o: map<string, Json>, required: set<string>)
    requires z.ZObject? && required <= z.shape.Keys
    requires forall k | k in z.shape :: Accepts(z.shape[k], None) <==> k !in required
    ensures Accepts(z, Some(JObj(o))) <==> (forall k | k in o :: MemberAccepted(z, k, o[k])) && required <= o.Keys
  {
    forall k ensures Member(o, k) == if k in o then Some(o[k]) else None {}
  }

  /** The shape the compiler builds for an object schema. */
  lemma ObjectShape(s: Json)
    requires s.JObj? && ("required" in s.members ==> s.members["required"].JArr?)
    ensures var z := BuildForType(s, JStr("object"));
      && z.ZObject? && z.shape.Keys == Properties(s.members).Keys
      && forall k | k in z.shape ::
           z.shape[k] == if k in RequiredNames(s.members) then Compile(Properties(s.members)[k])
                         else ZOptional(Compile(Properties(s.members)[k]))
  {
    var required := AsArray(s.members, "required");
    forall k ensures JStr(k) in required <==> k in RequiredNames(s.members) {
      if JStr(k) in required { var i :| 0 <= i < |required| && required[i] == JStr(k); }
    }
  }

  lemma ExactObject(s: Json, o: map<string, Json>, I: Interp)
    requires s.JObj? && "type" in s.members && !("enum" in s.members) && !("anyOf" in s.members)
    requires InFragment(s) && SafeIntegers(JObj(o))
    ensures Accepts(BuildForType(s, JStr("object")), Some(JObj(o))) <==> ObjectValid(s.members, o, I)
    decreases s, 2
  {
    var m := s.members;
    var z := BuildForType(s, JStr("object"));
    ObjectShape(s);
    forall k | k in z.shape ensures Accepts(z.shape[k], None) <==> k !in RequiredNames(m) {
      MissingAccepted(Properties(m)[k]);
    }
    forall k | k in o ensures MemberAccepted(z, k, o[k]) <==> MemberValid(m, k, o[k], I) {
      ExactMember(s, k, o[k], I);
    }
    ObjectAcceptsByMember(z, o, RequiredNames(m));
    ObjectValidByMember(m, o, I);
  }

  /** A declared member is asked what its own schema asks. */
  lemma DeclaredMember(s: Json, k: string, x: Json, I: Interp)
    requires s.JObj? && ("required" in s.members ==> s.members["required"].JArr?) && k in Properties(s.members)
    ensures var z := BuildForType(s, JStr("object"));
      && (MemberAccepted(z, k, x) <==> Accepts(Compile(Properties(s.members)[k]), Some(x)))
      && (MemberValid(s.members, k, x, I) <==> Valid(Properties(s.members)[k], x, I))
  {
    ObjectShape(s);
  }

  lemma ExactMember(s: Json, k: string, x: Json, I: Interp)
    requires s.JObj? && "type" in s.members && !("enum" in s.members) && !("anyOf" in s.members)
    requires InFragment(s) && SafeIntegers(x)
    ensures MemberAccepted(BuildForType(s, JStr("object")), k, x) <==> MemberValid(s.members, k, x, I)
    decreases s, 1
  {
    var m := s.members;
    if k in Properties(m) {
      Exact(Properties(m)[k], x, I);
      DeclaredMember(s, k, x, I);
    } else if "additionalProperties" in m && m["additionalProperties"].JObj? {
      Exact(m["additionalProperties"], x, I);
    }
  }

  // ---- Required names: the exact condition ---------------------------------------------------

  /** An object schema of the fragment, its `required` list arbitrary. */
  predicate ObjectSchema(s: Json) {
    && s.JObj? && "type" in s.members && s.members["type"] == JStr("object")
    && "enum" !in s.members && "anyOf" !in s.members && NodeInFragment(s)
  }

  /** Compilation is exact on an object schema that accepts anything at all if and only if every required
      name is declared with a schema that is not open. */
  lemma RequiredExact(s: Json, witnessed: map<string, Json>, I: Interp)
    requires ObjectSchema(s) && SafeIntegers(JObj(witnessed))
    requires Accepts(Compile(s), Some(JObj(witnessed)))
    ensures (forall v | SafeIntegers(v) :: Accepts(Compile(s), Some(v)) <==> Valid(s, v, I))
       <==> RequiredEnforced(s.members)
  {
    var m := s.members;
    if RequiredEnforced(m) {
      forall v | SafeIntegers(v) ensures Accepts(Compile(s), Some(v)) <==> Valid(s, v, I) {
        Exact(s, v, I);
      }
    } else {
      var i :| 0 <= i < |m["required"].elems| && m["required"].elems[i].JStr?
               && (m["required"].elems[i].s in Properties(m) ==> Open(Properties(m)[m["required"].elems[i].s]));
      var r := m["required"].elems[i].s;
      var without := witnessed - {r};
      assert AsArray(m, "required")[i] == JStr(r);
      DroppingUnenforced(s, witnessed, r);
      assert JStr(r) in m["required"].elems && r !in without;
      assert !Valid(s, JObj(without), I);
    }
  }

  /** One type name, and nothing that takes precedence over it. */
  lemma CompiledType(s: Json, t: Json)
    requires s.JObj? && "type" in s.members && s.members["type"] == t && !t.JArr?
    requires "enum" !in s.members && "oneOf" !in s.members && "anyOf" !in s.members
    ensures Compile(s) == BuildForType(s, t)
  {
    var types := AsArray(s.members, "type");
    assert types == [t];
    var zs := seq(1, i requires 0 <= i < 1 => BuildForType(s, types[i]));
    assert BuildUntyped(s) == UnionOf(zs) == zs[0];
  }

  /** A required name that is undeclared or open can be removed from an accepted object. */
  lemma DroppingUnenforced(s: Json, o: map<string, Json>, r: string)
    requires ObjectSchema(s) && SafeIntegers(JObj(o)) && Accepts(Compile(s), Some(JObj(o)))
    requires r in RequiredNames(s.members)
    requires r in Properties(s.members) ==> Open(Properties(s.members)[r])
    ensures SafeIntegers(JObj(o - {r})) && Accepts(Compile(s), Some(JObj(o - {r})))
  {
    CompiledType(s, JStr("object"));
    ObjectShape(s);
    if r in Properties(s.members) { MissingAccepted(Properties(s.members)[r]); }
    DroppingMember(BuildForType(s, JStr("object")), o, r);
  }

  lemma DroppingMember(z: Zod, o: map<string, Json>, r: string)
    requires z.ZObject? && Accepts(z, Some(JObj(o)))
    requires r in z.shape ==> Accepts(z.shape[r], None)
    ensures Accepts(z, Some(JObj(o - {r})))
  {
    forall k | k in z.shape ensures Accepts(z.shape[k], Member(o - {r}, k)) {
      assert Accepts(z.shape[k], Member(o, k));
    }
  }

  // ---- Never over-rejecting ------------------------------------------------------------------

  /** The wider fragment: any keyword may appear; only the places where the compiler is stricter than the
      standard are excluded, and the empty lists of branches that the standard does not allow. */
  predicate Wide(s: Json)
  {
    match s
    case JObj(m) =>
      if BuildEnum(m).Some? then forall i | 0 <= i < |m["enum"].elems| :: IsScalar(m["enum"].elems[i])
      else if "oneOf" in m && m["oneOf"].JArr? then
        m["oneOf"].elems != [] && forall i | 0 <= i < |m["oneOf"].elems| :: Wide(m["oneOf"].elems[i])
      else if "anyOf" in m && m["anyOf"].JArr? then
        m["anyOf"].elems != [] && forall i | 0 <= i < |m["anyOf"].elems| :: Wide(m["anyOf"].elems[i])
      else
        && (AsArray(m, "type") == [] ==>
              "additionalProperties" !in m && !("properties" in m && Truthy(m["properties"])))
        && (JStr("array") in AsArray(m, "type") && "items" in m ==> "prefixItems" !in m && Wide(m["items"]))
        && (JStr("object") in AsArray(m, "type") ==>
              && (forall k | k in Properties(m) :: Wide(Properties(m)[k]))
              && ("required" in m ==> m["required"].JArr?)
              && ("additionalProperties" in m ==> "patternProperties" !in m && Wide(m["additionalProperties"])))
    case _ => true
  }

  /** The compiler never over-rejects: in the wider fragment every value the schema validates is accepted,
      whatever the keywords it ignores mean. */
  lemma {:induction false} NeverOverRejects(s: Json, v: Json, I: Interp)
    requires Wide(s) && SafeIntegers(v) && Valid(s, v, I)
    ensures Accepts(Compile(s), Some(v))
    decreases s, 3
  {
    if s.JObj? {
      var m := s.members;
      assert Compile(s) == BuildUntyped(s);
      if BuildEnum(m).Some? {
        EnumAccepts(m, Some(v));
        assert BuildUntyped(s) == BuildEnum(m).value;
      } else if "oneOf" in m && m["oneOf"].JArr? {
        AcceptsSome(m["oneOf"].elems, v, I);
        assert BuildUntyped(s) == UnionOf(CompileAll(m["oneOf"].elems));
      } else if "anyOf" in m && m["anyOf"].JArr? {
        AcceptsSome(m["anyOf"].elems, v, I);
        assert BuildUntyped(s) == UnionOf(CompileAll(m["anyOf"].elems));
      } else if AsArray(m, "type") != [] {
        assert TypeOk(m["type"], v);
        var i := MatchingType(m, v);
        AcceptsForType(s, AsArray(m, "type")[i], v, I);
        CompiledTypes(s, i, Some(v));
      } else {
        assert BuildUntyped(s) == ZUnknown;
      }
    }
  }

  lemma CompiledTypes(s: Json, i: nat, input: Option<Json>)
    requires s.JObj? && BuildEnum(s.members).None?
    requires !("oneOf" in s.members && s.members["oneOf"].JArr?)
    requires !("anyOf" in s.members && s.members["anyOf"].JArr?)
    requires i < |AsArray(s.members, "type")| && Accepts(BuildForType(s, AsArray(s.members, "type")[i]), input)
    ensures Accepts(Compile(s), input)
  {
    var types := AsArray(s.members, "type");
    var zs := seq(|types|, i requires 0 <= i < |types| => BuildForType(s, types[i]));
    assert zs[i] == BuildForType(s, types[i]);
    UnionAccepts(zs, input);
    assert BuildUntyped(s) == UnionOf(zs);
    assert Compile(s) == BuildUntyped(s);
  }

  lemma AcceptsSome(es: seq<Json>, v: Json, I: Interp)
    requires forall i | 0 <= i < |es| :: Wide(es[i])
    requires SafeIntegers(v) && exists i :: 0 <= i < |es| && Valid(es[i], v, I)
    ensures Accepts(UnionOf(CompileAll(es)), Some(v))
    decreases es
  {
    UnionAccepts(CompileAll(es), Some(v));
    var i :| 0 <= i < |es| && Valid(es[i], v, I);
    NeverOverRejects(es[i], v, I);
    assert Accepts(CompileAll(es)[i], Some(v));
  }

  lemma MatchingType(m: map<string, Json>, v: Json) returns (i: nat)
    requires "type" in m && TypeOk(m["type"], v) && AsArray(m, "type") != []
    ensures i < |AsArray(m, "type")|
    ensures var t := AsArray(m, "type")[i]; t.JStr? ==> TypeMatches(t.s, v)
  {
    if m["type"].JArr? {
      var ts := m["type"].elems;
      i :| 0 <= i < |ts| && ts[i].JStr? && TypeMatches(ts[i].s, v);
    } else {
      i := 0;
    }
  }

  lemma AcceptsForType(s: Json, t: Json, v: Json, I: Interp)
    requires s.JObj? && Wide(s) && SafeIntegers(v) && Valid(s, v, I)
    requires BuildEnum(s.members).None? && !("oneOf" in s.members && s.members["oneOf"].JArr?)
    requires !("anyOf" in s.members && s.members["anyOf"].JArr?)
    requires t in AsArray(s.members, "type") && (t.JStr? ==> TypeMatches(t.s, v))
    ensures Accepts(BuildForType(s, t), Some(v))
    decreases s, 2
  {
    var m := s.members;
    if t == JStr("array") {
      if "items" in m {
        forall i | 0 <= i < |v.elems| ensures Accepts(Compile(m["items"]), Some(v.elems[i])) {
          NeverOverRejects(m["items"], v.elems[i], I);
        }
      }
    } else if t == JStr("object") {
      AcceptsObject(s, v.members, I);
    }
  }

  lemma AcceptsObject(s: Json, o: map<string, Json>, I: Interp)
    requires s.JObj? && Wide(s) && SafeIntegers(JObj(o)) && Valid(s, JObj(o), I)
    requires BuildEnum(s.members).None? && !("oneOf" in s.members && s.members["oneOf"].JArr?)
    requires !("anyOf" in s.members && s.members["anyOf"].JArr?)
    requires JStr("object") in AsArray(s.members, "type")
    ensures Accepts(BuildForType(s, JStr("object")), Some(JObj(o)))
    decreases s, 1
  {
    var m := s.members;
    var z := BuildForType(s, JStr("object"));
    ObjectShape(s);
    ObjectValidByMember(m, o, I);
    assert ObjectValid(m, o, I);
    forall k | k in z.shape ensures Accepts(z.shape[k], Member(o, k)) {
      if k in o {
        assert MemberValid(m, k, o[k], I);
        NeverOverRejects(Properties(m)[k], o[k], I);
      }
    }
    forall k | k in o && k !in z.shape ensures MemberAccepted(z, k, o[k]) {
      assert MemberValid(m, k, o[k], I);
      if "additionalProperties" in m && m["additionalProperties"].JObj? {
        NeverOverRejects(m["additionalProperties"], o[k], I);
      }
    }
  }

  // ---- Building never throws -----------------------------------------------------------------

  lemma UnionBuildable(zs: seq<Zod>)
    ensures Buildable(UnionOf(zs)) <==> zs != [] && forall i | 0 <= i < |zs| :: Buildable(zs[i])
  {
    if |zs| == 1 { assert UnionOf(zs) == zs[0]; }
  }

  lemma ScalarEnumBuildable(m: map<string, Json>)
    requires BuildEnum(m).Some? && forall i | 0 <= i < |m["enum"].elems| :: IsScalar(m["enum"].elems[i])
    ensures Buildable(BuildEnum(m).value)
  {
    var values := m["enum"].elems;
    var zs := seq(|values|, i requires 0 <= i < |values| => Literal(values[i]));
    UnionBuildable(zs);
    forall i | 0 <= i < |zs| ensures Buildable(zs[i]) { assert zs[i] == Literal(values[i]); }
  }

  /** In the wider fragment compiling never throws. */
  lemma {:induction false} WideBuildable(s: Json)
    requires Wide(s)
    ensures Buildable(Compile(s))
    decreases s, 2
  {
    if s.JObj? {
      var m := s.members;
      assert Compile(s) == BuildUntyped(s);
      if BuildEnum(m).Some? {
        ScalarEnumBuildable(m);
        assert BuildUntyped(s) == BuildEnum(m).value;
      } else if "oneOf" in m && m["oneOf"].JArr? {
        WideBranches(m["oneOf"].elems);
        assert BuildUntyped(s) == UnionOf(CompileAll(m["oneOf"].elems));
      } else if "anyOf" in m && m["anyOf"].JArr? {
        WideBranches(m["anyOf"].elems);
        assert BuildUntyped(s) == UnionOf(CompileAll(m["anyOf"].elems));
      } else if AsArray(m, "type") != [] {
        var types := AsArray(m, "type");
        var zs := seq(|types|, i requires 0 <= i < |types| => BuildForType(s, types[i]));
        UnionBuildable(zs);
        forall i | 0 <= i < |types| ensures Buildable(zs[i]) {
          assert zs[i] == BuildForType(s, types[i]) && types[i] in types;
          WideTypeBuildable(s, types[i]);
        }
        assert BuildUntyped(s) == UnionOf(zs);
      } else {
        assert BuildUntyped(s) == ZUnknown;
      }
    }
  }

  lemma WideBranches(es: seq<Json>)
    requires es != [] && forall i | 0 <= i < |es| :: Wide(es[i])
    ensures Buildable(UnionOf(CompileAll(es)))
    decreases es
  {
    UnionBuildable(CompileAll(es));
    forall i | 0 <= i < |es| ensures Buildable(CompileAll(es)[i]) { WideBuildable(es[i]); }
  }

  lemma WideTypeBuildable(s: Json, t: Json)
    requires s.JObj? && Wide(s) && BuildEnum(s.members).None? && t in AsArray(s.members, "type")
    requires !("oneOf" in s.members && s.members["oneOf"].JArr?)
    requires !("anyOf" in s.members && s.members["anyOf"].JArr?)
    ensures Buildable(BuildForType(s, t))
    decreases s, 1
  {
    var m := s.members;
    if t == JStr("array") {
      if "items" in m { WideBuildable(m["items"]); }
    } else if t == JStr("object") {
      ObjectBuildable(s);
      forall k | k in Properties(m) ensures Buildable(Compile(Properties(m)[k])) { WideBuildable(Properties(m)[k]); }
      if "additionalProperties" in m && m["additionalProperties"].JObj? { WideBuildable(m["additionalProperties"]); }
    }
  }

  /** The exact fragment lies within the wider one, so compiling it never throws either. */
  lemma {:induction false} FragmentIsWide(s: Json)
    requires InFragment(s)
    ensures Wide(s) && Buildable(Compile(s))
  {
    if s.JObj? {
      var m := s.members;
      if "enum" !in m && "anyOf" in m {
        forall i | 0 <= i < |m["anyOf"].elems| ensures Wide(m["anyOf"].elems[i]) { FragmentIsWide(m["anyOf"].elems[i]); }
      } else if "enum" !in m && "type" in m {
        if "items" in m { FragmentIsWide(m["items"]); }
        forall k | k in Properties(m) ensures Wide(Properties(m)[k]) { FragmentIsWide(Properties(m)[k]); }
        if "additionalProperties" in m && m["additionalProperties"].JObj? { FragmentIsWide(m["additionalProperties"]); }
      }
    }
    WideBuildable(s);
  }
}
