/** What the compiler makes of any schema at all, said on the schema: which keyword decides, which values the
    parser then accepts, and when building it throws. */
module CompilerMeaning {
  import opened Common
  import opened JsonValue
  import opened JsonSchema
  import opened ZodCompiler
  import opened CompilerCorrectness

  // ---- Which keyword decides -----------------------------------------------------------------

  predicate HasList(m: map<string, Json>, k: string) { k in m && m[k].JArr? }

  predicate EnumDecides(m: map<string, Json>) { HasList(m, "enum") && m["enum"].elems != [] }

  predicate OneOfDecides(m: map<string, Json>) { !EnumDecides(m) && HasList(m, "oneOf") }

  predicate AnyOfDecides(m: map<string, Json>) { !EnumDecides(m) && !HasList(m, "oneOf") && HasList(m, "anyOf") }

  predicate TypeDecides(m: map<string, Json>) { !EnumDecides(m) && !HasList(m, "oneOf") && !HasList(m, "anyOf") }

  /** One of the schema's type names, given alone or in a list. */
  predicate NamesType(m: map<string, Json>, t: Json) {
    "type" in m && if m["type"].JArr? then t in m["type"].elems else t == m["type"]
  }

  predicate Untyped(m: map<string, Json>) { "type" in m ==> m["type"] == JArr([]) }

  /** An untyped schema that is taken for an object schema. */
  predicate TakenForObject(m: map<string, Json>) {
    "additionalProperties" in m || ("properties" in m && Truthy(m["properties"]))
  }

  /** `required` may also be a single name. */
  predicate Requires(m: map<string, Json>, k: string) {
    "required" in m && (m["required"] == JStr(k) || (m["required"].JArr? && JStr(k) in m["required"].elems))
  }

  // ---- What is accepted ----------------------------------------------------------------------

  /** A value an enum lists; an array among its values stands for what it lists itself. */
  ghost predicate Listed(values: seq<Json>, v: Json) {
    IsScalar(v) && exists i :: 0 <= i < |values| && (values[i] == v || (values[i].JArr? && v in values[i].elems))
  }

  /** What the compiler reads a schema to ask of an input, `None` being a member that is missing. */
  ghost predicate Asks(s: Json, input: Option<Json>)
    decreases s, 3
  {
    s.JObj? ==>
      var m := s.members;
      if EnumDecides(m) then input.Some? && Listed(m["enum"].elems, input.value)
      else if HasList(m, "oneOf") then
        exists i :: 0 <= i < |m["oneOf"].elems| && Asks(m["oneOf"].elems[i], input)
      else if HasList(m, "anyOf") then
        exists i :: 0 <= i < |m["anyOf"].elems| && Asks(m["anyOf"].elems[i], input)
      else if Untyped(m) then TakenForObject(m) ==> AsksType(s, JStr("object"), input)
      else exists t :: NamesType(m, t) && AsksType(s, t, input)
  }

  /** What one type name asks; a name outside the list asks nothing. */
  ghost predicate AsksType(s: Json, t: Json, input: Option<Json>)
    requires s.JObj?
    decreases s, 2
  {
    IsTypeName(t) ==>
      && input.Some? && TypeMatches(t.s, input.value)
      && (t.s == "integer" ==> IsSafe(input.value.n))
      && (t.s == "array" && "items" in s.members ==>
            forall i | 0 <= i < |input.value.elems| :: Asks(s.members["items"], Some(input.value.elems[i])))
      && (t.s == "object" ==> AsksMembers(s, input.value.members))
  }

  ghost predicate AsksMembers(s: Json, o: map<string, Json>)
    requires s.JObj?
    decreases s, 1
  {
    var m := s.members;
    && (forall k | k in Properties(m) :: AsksDeclared(s, k, Member(o, k)))
    && ("additionalProperties" in m ==> forall k | k in o && k !in Properties(m) ::
          m["additionalProperties"] != JBool(false) && Asks(m["additionalProperties"], Some(o[k])))
  }

  /** A declared member may be missing unless it is required; otherwise its schema is asked. */
  ghost predicate AsksDeclared(s: Json, k: string, input: Option<Json>)
    requires s.JObj? && k in Properties(s.members)
    decreases s, 0
  {
    (input.None? && !Requires(s.members, k)) || Asks(Properties(s.members)[k], input)
  }

  /** Every schema compiles to the parser of what it asks. */
  lemma {:induction false} CompileMeans(s: Json, input: Option<Json>)
    ensures Accepts(Compile(s), input) <==> Asks(s, input)
    decreases s, 4
  {
    if s.JObj? {
      var m := s.members;
      if EnumDecides(m) {
        EnumMeans(m, input);
      } else if HasList(m, "oneOf") {
        BranchesMean(m["oneOf"].elems, input);
      } else if HasList(m, "anyOf") {
        BranchesMean(m["anyOf"].elems, input);
      } else if Untyped(m) {
        assert AsArray(m, "type") == [];
        TypeMeans(s, JStr("object"), input);
      } else {
        TypesMean(s, input);
      }
    }
  }

  lemma EnumMeans(m: map<string, Json>, input: Option<Json>)
    requires EnumDecides(m)
    ensures Accepts(Compile(JObj(m)), input) <==> input.Some? && Listed(m["enum"].elems, input.value)
  {
    var values := m["enum"].elems;
    var zs := seq(|values|, i requires 0 <= i < |values| => Literal(values[i]));
    UnionAccepts(zs, input);
    forall i | 0 <= i < |values|
      ensures Accepts(zs[i], input) <==>
        input.Some? && IsScalar(input.value)
        && (values[i] == input.value || (values[i].JArr? && input.value in values[i].elems))
    {
      assert zs[i] == Literal(values[i]);
    }
    assert BuildUntyped(JObj(m)) == UnionOf(zs);
  }

  lemma BranchesMean(es: seq<Json>, input: Option<Json>)
    ensures Accepts(UnionOf(CompileAll(es)), input) <==> exists i :: 0 <= i < |es| && Asks(es[i], input)
    decreases es
  {
    UnionAccepts(CompileAll(es), input);
    forall i | 0 <= i < |es| ensures Accepts(CompileAll(es)[i], input) <==> Asks(es[i], input) {
      CompileMeans(es[i], input);
    }
  }

  lemma TypesMean(s: Json, input: Option<Json>)
    requires s.JObj? && TypeDecides(s.members) && !Untyped(s.members)
    ensures Accepts(Compile(s), input) <==> exists t :: NamesType(s.members, t) && AsksType(s, t, input)
    decreases s, 3
  {
    var types := AsArray(s.members, "type");
    assert forall t :: NamesType(s.members, t) <==> t in types;
    var zs := seq(|types|, i requires 0 <= i < |types| => BuildForType(s, types[i]));
    assert Compile(s) == BuildUntyped(s) == UnionOf(zs);
    UnionAccepts(zs, input);
    forall i | 0 <= i < |types| ensures Accepts(zs[i], input) <==> AsksType(s, types[i], input) {
      assert zs[i] == BuildForType(s, types[i]);
      TypeMeans(s, types[i], input);
    }
    if t :| NamesType(s.members, t) && AsksType(s, t, input) {
      var i :| 0 <= i < |types| && types[i] == t;
      assert Accepts(zs[i], input);
    }
    if i :| 0 <= i < |zs| && Accepts(zs[i], input) {
      assert NamesType(s.members, types[i]);
    }
  }

  lemma TypeMeans(s: Json, t: Json, input: Option<Json>)
    requires s.JObj?
    ensures Accepts(BuildForType(s, t), input) <==> AsksType(s, t, input)
    decreases s, 2
  {
    var m := s.members;
    if t == JStr("array") {
      if input.Some? && input.value.JArr? && "items" in m {
        forall i | 0 <= i < |input.value.elems|
          ensures Accepts(Compile(m["items"]), Some(input.value.elems[i])) <==> Asks(m["items"], Some(input.value.elems[i]))
        {
          CompileMeans(m["items"], Some(input.value.elems[i]));
        }
      }
    } else if t == JStr("object") {
      if input.Some? && input.value.JObj? { MembersMean(s, input.value.members); }
    }
  }

  lemma MembersMean(s: Json, o: map<string, Json>)
    requires s.JObj?
    ensures Accepts(BuildForType(s, JStr("object")), Some(JObj(o))) <==> AsksMembers(s, o)
    decreases s, 1
  {
    var m, z := s.members, BuildForType(s, JStr("object"));
    assert z.shape == Shape(s) && Shape(s).Keys == Properties(m).Keys;
    forall k | k in z.shape
      ensures Accepts(z.shape[k], Member(o, k)) <==> AsksDeclared(s, k, Member(o, k))
    {
      DeclaredMeans(s, k, Member(o, k));
    }
    forall k | k in o && k !in z.shape
      ensures (z.rest.Catchall? && Accepts(z.rest.z, Some(o[k]))) <==> ("additionalProperties" in m ==>
        m["additionalProperties"] != JBool(false) && Asks(m["additionalProperties"], Some(o[k])))
    {
      if "additionalProperties" in m && m["additionalProperties"].JObj? {
        CompileMeans(m["additionalProperties"], Some(o[k]));
      }
    }
  }

  lemma DeclaredMeans(s: Json, k: string, input: Option<Json>)
    requires s.JObj? && k in Properties(s.members)
    ensures Accepts(Shape(s)[k], input) <==> AsksDeclared(s, k, input)
    decreases s, 0
  {
    ShapeAt(s, k);
    CompileMeans(Properties(s.members)[k], input);
    assert JStr(k) in AsArray(s.members, "required") <==> Requires(s.members, k);
  }

  // ---- When building throws ------------------------------------------------------------------

  /** No enum that decides lists an empty array, and no list of branches that decides is empty, at any depth
      that is compiled. */
  predicate Constructible(s: Json)
    decreases s, 2
  {
    s.JObj? ==>
      var m := s.members;
      if EnumDecides(m) then JArr([]) !in m["enum"].elems
      else if HasList(m, "oneOf") then
        m["oneOf"].elems != [] && forall i | 0 <= i < |m["oneOf"].elems| :: Constructible(m["oneOf"].elems[i])
      else if HasList(m, "anyOf") then
        m["anyOf"].elems != [] && forall i | 0 <= i < |m["anyOf"].elems| :: Constructible(m["anyOf"].elems[i])
      else if Untyped(m) then TakenForObject(m) ==> ConstructibleType(s, JStr("object"))
      else forall t | t in AsArray(m, "type") :: ConstructibleType(s, t)
  }

  predicate ConstructibleType(s: Json, t: Json)
    requires s.JObj?
    decreases s, 1
  {
    && (t == JStr("array") && "items" in s.members ==> Constructible(s.members["items"]))
    && (t == JStr("object") ==> ConstructibleMembers(s))
  }

  predicate ConstructibleMembers(s: Json)
    requires s.JObj?
    decreases s, 0
  {
    && (forall k | k in Properties(s.members) :: Constructible(Properties(s.members)[k]))
    && ("additionalProperties" in s.members ==> Constructible(s.members["additionalProperties"]))
  }

  lemma {:induction false} ThrowsIff(s: Json)
    ensures Buildable(Compile(s)) <==> Constructible(s)
    decreases s, 3
  {
    if s.JObj? {
      var m := s.members;
      if EnumDecides(m) {
        EnumThrows(m);
      } else if HasList(m, "oneOf") {
        BranchesThrow(m["oneOf"].elems);
      } else if HasList(m, "anyOf") {
        BranchesThrow(m["anyOf"].elems);
      } else if Untyped(m) {
        assert AsArray(m, "type") == [];
        MembersThrow(s);
      } else {
        TypesThrow(s);
      }
    }
  }

  lemma EnumThrows(m: map<string, Json>)
    requires EnumDecides(m)
    ensures Buildable(Compile(JObj(m))) <==> JArr([]) !in m["enum"].elems
  {
    var values := m["enum"].elems;
    var zs := seq(|values|, i requires 0 <= i < |values| => Literal(values[i]));
    UnionBuildable(zs);
    forall i | 0 <= i < |values| ensures Buildable(zs[i]) <==> values[i] != JArr([]) { assert zs[i] == Literal(values[i]); }
    assert BuildUntyped(JObj(m)) == UnionOf(zs);
  }

  lemma BranchesThrow(es: seq<Json>)
    ensures Buildable(UnionOf(CompileAll(es))) <==> es != [] && forall i | 0 <= i < |es| :: Constructible(es[i])
    decreases es
  {
    UnionBuildable(CompileAll(es));
    forall i | 0 <= i < |es| ensures Buildable(CompileAll(es)[i]) <==> Constructible(es[i]) { ThrowsIff(es[i]); }
  }

  lemma MembersThrow(s: Json)
    requires s.JObj?
    ensures Buildable(BuildForType(s, JStr("object"))) <==> ConstructibleMembers(s)
    decreases s, 0
  {
    var m := s.members;
    ObjectBuildable(s);
    forall k | k in Properties(m) ensures Buildable(Compile(Properties(m)[k])) <==> Constructible(Properties(m)[k]) {
      ThrowsIff(Properties(m)[k]);
    }
    if "additionalProperties" in m { ThrowsIff(m["additionalProperties"]); }
  }

  lemma TypesThrow(s: Json)
    requires s.JObj? && TypeDecides(s.members) && !Untyped(s.members)
    ensures Buildable(Compile(s)) <==> Constructible(s)
    decreases s, 2
  {
    var m, types := s.members, AsArray(s.members, "type");
    assert types != [] && forall t :: NamesType(m, t) <==> t in types;
    var zs := seq(|types|, i requires 0 <= i < |types| => BuildForType(s, types[i]));
    assert Compile(s) == BuildUntyped(s) == UnionOf(zs);
    UnionBuildable(zs);
    forall i | 0 <= i < |types| ensures Buildable(zs[i]) <==> ConstructibleType(s, types[i]) {
      assert zs[i] == BuildForType(s, types[i]);
      TypeThrows(s, types[i]);
    }
    assert forall t | t in types :: exists i :: 0 <= i < |types| && types[i] == t;
  }

  lemma TypeThrows(s: Json, t: Json)
    requires s.JObj?
    ensures Buildable(BuildForType(s, t)) <==> ConstructibleType(s, t)
    decreases s, 1
  {
    if t == JStr("object") { MembersThrow(s); }
    if "items" in s.members { ThrowsIff(s.members["items"]); }
  }

  // ---- Precedence ----------------------------------------------------------------------------

  /** Whatever stands beside a list of scalars, the enum alone decides. */
  lemma EnumAlone(m: map<string, Json>, v: Json)
    requires HasList(m, "enum") && m["enum"].elems != []
    requires forall i | 0 <= i < |m["enum"].elems| :: IsScalar(m["enum"].elems[i])
    ensures Accepts(Compile(JObj(m)), Some(v)) <==> v in m["enum"].elems
    ensures !Accepts(Compile(JObj(m)), None)
  {
    CompileMeans(JObj(m), Some(v));
    CompileMeans(JObj(m), None);
    var values := m["enum"].elems;
    assert forall x | x in values :: exists i :: 0 <= i < |values| && values[i] == x;
  }

  /** Without an enum that decides, `oneOf` decides, and `anyOf` without either, whatever the types and members. */
  lemma BranchesAlone(m: map<string, Json>, k: string, input: Option<Json>)
    requires (k == "oneOf" && OneOfDecides(m)) || (k == "anyOf" && AnyOfDecides(m))
    ensures Accepts(Compile(JObj(m)), input) <==>
      exists i :: 0 <= i < |m[k].elems| && Accepts(Compile(m[k].elems[i]), input)
  {
    CompileMeans(JObj(m), input);
    forall i | 0 <= i < |m[k].elems| ensures Accepts(Compile(m[k].elems[i]), input) <==> Asks(m[k].elems[i], input) {
      CompileMeans(m[k].elems[i], input);
    }
  }
}
