/** The compiler from JSON Schema to Zod parsers, and what a Zod parser accepts. */
module ZodCompiler {
  import opened Common
  import opened JsonValue
  import opened JsonSchema

  /** The parsers the compiler builds. Descriptions are not part of a parser's behaviour. */
  datatype Zod =
    | ZUnknown
    | ZString
    | ZNumber
    | ZInt
    | ZBoolean
    | ZNull
    | ZLiteral(values: seq<Json>)
    | ZArray(element: Zod)
    | ZObject(shape: map<string, Zod>, rest: Rest)
    | ZUnion(options: seq<Zod>)
    | ZOptional(inner: Zod)

  /** Members outside the shape are refused, or handed to one parser. */
  datatype Rest = Strict | Catchall(z: Zod)

  /** Acceptance by a parser. `None` is JavaScript's `undefined`, which is what an object parser reads for a
      member that is missing. A literal holds a list of alternatives and compares by identity, so only scalars
      can be equal to one; integers are accepted in the safe range only. */
  ghost predicate Accepts(z: Zod, input: Option<Json>)
    decreases z
  {
    match z
    case ZUnknown => true
    case ZOptional(inner) => input.None? || Accepts(inner, input)
    case ZUnion(zs) => exists i :: 0 <= i < |zs| && Accepts(zs[i], input)
    case ZString => input.Some? && input.value.JStr?
    case ZNumber => input.Some? && input.value.JNum?
    case ZInt => input.Some? && input.value.JNum? && IsIntegral(input.value.n) && IsSafe(input.value.n)
    case ZBoolean => input.Some? && input.value.JBool?
    case ZNull => input.Some? && input.value.JNull?
    case ZLiteral(values) => input.Some? && IsScalar(input.value) && input.value in values
    case ZArray(e) =>
      input.Some? && input.value.JArr? && forall i | 0 <= i < |input.value.elems| :: Accepts(e, Some(input.value.elems[i]))
    case ZObject(shape, rest) =>
      && input.Some? && input.value.JObj?
      && (forall k | k in shape :: Accepts(shape[k], Member(input.value.members, k)))
      && (forall k | k in input.value.members && k !in shape ::
            rest.Catchall? && Accepts(rest.z, Some(input.value.members[k])))
  }

  /** Building a literal or a union without alternatives throws, wherever in a parser it stands. */
  predicate Buildable(z: Zod) {
    match z
    case ZLiteral(values) => values != []
    case ZUnion(zs) => zs != [] && forall i | 0 <= i < |zs| :: Buildable(zs[i])
    case ZArray(e) => Buildable(e)
    case ZOptional(inner) => Buildable(inner)
    case ZObject(shape, rest) =>
      (forall k | k in shape :: Buildable(shape[k])) && (rest.Catchall? ==> Buildable(rest.z))
    case _ => true
  }

  function Member(m: map<string, Json>, k: string): Option<Json> {
    if k in m then Some(m[k]) else None
  }

  // ---- The compiler as a function ------------------------------------------------------------

  predicate Truthy(j: Json) {
    match j
    case JNull => false
    case JBool(b) => b
    case JNum(n) => n != 0.0
    case JStr(s) => s != ""
    case _ => true
  }

  function ScalarFor(t: Json): Zod {
    match t
    case JStr("string") => ZString
    case JStr("integer") => ZInt
    case JStr("number") => ZNumber
    case JStr("boolean") => ZBoolean
    case JStr("null") => ZNull
    case _ => ZUnknown
  }

  /** `z.literal` takes an array for its list of alternatives. */
  function Literal(value: Json): Zod {
    match value
    case JNull => ZNull
    case JArr(values) => ZLiteral(values)
    case _ => ZLiteral([value])
  }

  /** One variant stands for itself; any other number of them becomes a union. */
  function UnionOf(variants: seq<Zod>): Zod {
    if |variants| == 1 then variants[0] else ZUnion(variants)
  }

  function BuildEnum(m: map<string, Json>): Option<Zod> {
    if "enum" !in m || !m["enum"].JArr? || m["enum"].elems == [] then None
    else
      var values := m["enum"].elems;
      Some(UnionOf(seq(|values|, i requires 0 <= i < |values| => Literal(values[i]))))
  }

  /** `asArray`: absent is empty, an array is itself, anything else is a list of one. */
  function AsArray(m: map<string, Json>, k: string): seq<Json> {
    if k !in m then [] else if m[k].JArr? then m[k].elems else [m[k]]
  }

  /** A declared member is optional unless required. */
  function Declared(z: Zod, required: seq<Json>, k: string): Zod {
    if JStr(k) in required then z else ZOptional(z)
  }

  /** The shape of an object parser: a parser for each declared member. */
  function Shape(s: Json): map<string, Zod>
    requires s.JObj?
    decreases s, 0
  {
    map k | k in Properties(s.members) :: Declared(Compile(Properties(s.members)[k]), AsArray(s.members, "required"), k)
  }

  function BuildForType(s: Json, t: Json): Zod
    requires s.JObj?
    decreases s, 1
  {
    var m := s.members;
    if t == JStr("array") then
      ZArray(if "items" in m then Compile(m["items"]) else ZUnknown)
    else if t == JStr("object") then
      ZObject(Shape(s),
              if "additionalProperties" !in m then Catchall(ZUnknown)
              else if m["additionalProperties"] == JBool(false) then Strict
              else if m["additionalProperties"].JObj? then Catchall(Compile(m["additionalProperties"]))
              else Catchall(ZUnknown))
    else ScalarFor(t)
  }

  function BuildUntyped(s: Json): Zod
    requires s.JObj?
    decreases s, 2
  {
    var m := s.members;
    var e := BuildEnum(m);
    if e.Some? then e.value
    else if "oneOf" in m && m["oneOf"].JArr? then UnionOf(CompileAll(m["oneOf"].elems))
    else if "anyOf" in m && m["anyOf"].JArr? then UnionOf(CompileAll(m["anyOf"].elems))
    else
      var types := AsArray(m, "type");
      if types == [] then
        if ("properties" in m && Truthy(m["properties"])) || "additionalProperties" in m
        then BuildForType(s, JStr("object"))
        else ZUnknown
      else UnionOf(seq(|types|, i requires 0 <= i < |types| => BuildForType(s, types[i])))
  }

  function CompileAll(schemas: seq<Json>): seq<Zod>
    decreases schemas
  {
    seq(|schemas|, i requires 0 <= i < |schemas| => Compile(schemas[i]))
  }

  /** Anything that is not an object schema (booleans included) compiles to the parser accepting all. */
  function Compile(s: Json): Zod
    decreases s, 3
  {
    if s.JObj? then BuildUntyped(s) else ZUnknown
  }

  // ---- The compiler as it runs ---------------------------------------------------------------

  /** What a call of the compiler comes to: the parser, or nothing when building it throws. */
  function Built(z: Zod): Option<Zod> {
    if Buildable(z) then Some(z) else None
  }

  lemma ShapeAt(s: Json, k: string)
    requires s.JObj? && k in Properties(s.members)
    ensures k in Shape(s)
    ensures Shape(s)[k] == Declared(Compile(Properties(s.members)[k]), AsArray(s.members, "required"), k)
  {
  }

  /** The loop that fills the shape of an object parser. */
  method BuildShape(s: Json) returns (shape: Option<map<string, Zod>>)
    requires s.JObj?
    ensures var properties := Properties(s.members);
      shape == if forall k | k in properties :: Buildable(Compile(properties[k])) then Some(Shape(s)) else None
    decreases s, 0
  {
    var properties, required := Properties(s.members), AsArray(s.members, "required");
    var built: map<string, Zod> := map[];
    var todo := properties.Keys;
    ghost var whole := Shape(s);
    assert whole.Keys == properties.Keys;
    while todo != {}
      invariant todo <= properties.Keys
      invariant built.Keys == properties.Keys - todo
      invariant forall k | k in built :: built[k] == whole[k] && Buildable(Compile(properties[k]))
      decreases todo
    {
      var key :| key in todo;
      var sub := JsonSchemaToZod(properties[key]);
      if sub.None? { return None; }
      ShapeAt(s, key);
      built := built[key := if JStr(key) in required then sub.value else ZOptional(sub.value)];
      todo := todo - {key};
    }
    assert forall k | k in properties :: k in built && Buildable(Compile(properties[k]));
    assert built == whole;
    return Some(built);
  }

  method BuildForTypeLoop(s: Json, t: Json) returns (z: Option<Zod>)
    requires s.JObj?
    ensures z == Built(BuildForType(s, t))
    decreases s, 1
  {
    var m := s.members;
    if t == JStr("array") {
      if "items" !in m { return Some(ZArray(ZUnknown)); }
      var element := JsonSchemaToZod(m["items"]);
      return if element.None? then None else Some(ZArray(element.value));
    }
    if t == JStr("object") {
      var shape := BuildShape(s);
      ObjectBuildable(s);
      if shape.None? { return None; }
      if "additionalProperties" !in m { return Some(ZObject(shape.value, Catchall(ZUnknown))); }
      if m["additionalProperties"] == JBool(false) { return Some(ZObject(shape.value, Strict)); }
      if !m["additionalProperties"].JObj? { return Some(ZObject(shape.value, Catchall(ZUnknown))); }
      var rest := JsonSchemaToZod(m["additionalProperties"]);
      return if rest.None? then None else Some(ZObject(shape.value, Catchall(rest.value)));
    }
    return Some(ScalarFor(t));
  }

  /** Building an object parser throws if building one of its parts does. */
  lemma ObjectBuildable(s: Json)
    requires s.JObj?
    ensures var z := BuildForType(s, JStr("object"));
      Buildable(z) <==>
        && (forall k | k in Properties(s.members) :: Buildable(Compile(Properties(s.members)[k])))
        && (z.rest.Catchall? ==> Buildable(z.rest.z))
  {
    var z, properties := BuildForType(s, JStr("object")), Properties(s.members);
    assert z.shape == Shape(s) && Shape(s).Keys == properties.Keys;
    forall k | k in properties ensures Buildable(z.shape[k]) <==> Buildable(Compile(properties[k])) {
      assert z.shape[k] == Declared(Compile(properties[k]), AsArray(s.members, "required"), k);
    }
  }

  method JsonSchemaToZod(s: Json) returns (z: Option<Zod>)
    ensures z == Built(Compile(s))
    decreases s, 3
  {
    if !s.JObj? { return Some(ZUnknown); }
    z := BuildSchemaUntyped(s);
  }

  method BuildSchemaUntyped(s: Json) returns (z: Option<Zod>)
    requires s.JObj?
    ensures z == Built(BuildUntyped(s))
    decreases s, 2
  {
    var m := s.members;
    var e := BuildEnum(m);
    if e.Some? { return Built(e.value); }
    if "oneOf" in m && m["oneOf"].JArr? { return Built(UnionOf(CompileAll(m["oneOf"].elems))); }
    if "anyOf" in m && m["anyOf"].JArr? { return Built(UnionOf(CompileAll(m["anyOf"].elems))); }
    var types := AsArray(m, "type");
    if types == [] {
      if ("properties" in m && Truthy(m["properties"])) || "additionalProperties" in m {
        z := BuildForTypeLoop(s, JStr("object"));
        return;
      }
      return Some(ZUnknown);
    }
    return Built(UnionOf(seq(|types|, i requires 0 <= i < |types| => BuildForType(s, types[i]))));
  }
}
