/** JSON Schema draft 2020-12 validity, for the keywords the compiler reads. Every other keyword is left to
    an interpretation, so that theorems hold whatever those keywords mean. */
module JsonSchema {
  import opened JsonValue

  /** The meaning of the keywords not modelled here: `holds(keyword, the schema it stands in, instance)`, so
      that a keyword may depend on its siblings, and which member names a `patternProperties` value claims. */
  datatype Interp = Interp(holds: (string, Json, Json) -> bool, claims: (Json, string) -> bool)

  const MODELLED := {"type", "enum", "oneOf", "anyOf", "items", "properties", "required", "additionalProperties"}

  /** Annotations never reject. */
  const ANNOTATIONS := {"description"}

  /** A keyword whose meaning is left to the interpretation. */
  predicate Outside(k: string) { k !in MODELLED && k !in ANNOTATIONS }

  predicate TypeMatches(t: string, v: Json) {
    match t
    case "null" => v.JNull?
    case "boolean" => v.JBool?
    case "string" => v.JStr?
    case "number" => v.JNum?
    case "integer" => v.JNum? && IsIntegral(v.n)
    case "array" => v.JArr?
    case "object" => v.JObj?
    case _ => false
  }

  /** Section 6.1.1 of JSON Schema Validation: a name, or an array of names of which one must match. */
  predicate TypeOk(t: Json, v: Json) {
    match t
    case JStr(name) => TypeMatches(name, v)
    case JArr(ts) => exists i | 0 <= i < |ts| :: ts[i].JStr? && TypeMatches(ts[i].s, v)
    case _ => true
  }

  function Properties(m: map<string, Json>): map<string, Json> {
    if "properties" in m && m["properties"].JObj? then m["properties"].members else map[]
  }

  /** How many leading elements `items` does not apply to (section 10.3.1.2 of JSON Schema Core). */
  function PrefixLength(m: map<string, Json>): nat {
    if "prefixItems" in m && m["prefixItems"].JArr? then |m["prefixItems"].elems| else 0
  }

  /** Whether `additionalProperties` applies to a member (section 10.3.2.3 of JSON Schema Core). */
  predicate IsAdditional(m: map<string, Json>, name: string, I: Interp) {
    name !in Properties(m) && !("patternProperties" in m && I.claims(m["patternProperties"], name))
  }

  ghost predicate Valid(schema: Json, v: Json, I: Interp)
    decreases schema, 1
  {
    match schema
    case JBool(b) => b
    case JObj(m) => OthersValid(m, v, I) && OneOfValid(m, v, I) && (v.JObj? ==> ObjectValid(m, v.members, I))
    case _ => true
  }

  /** Validity, leaving aside `oneOf` and the keywords about members. */
  ghost predicate OthersValid(m: map<string, Json>, v: Json, I: Interp)
    decreases JObj(m), 0
  {
    && ("type" in m ==> TypeOk(m["type"], v))
    && ("enum" in m && m["enum"].JArr? ==> v in m["enum"].elems)
    && ("anyOf" in m && m["anyOf"].JArr? ==>
          exists i :: 0 <= i < |m["anyOf"].elems| && Valid(m["anyOf"].elems[i], v, I))
    && ("items" in m && v.JArr? ==>
          forall i | PrefixLength(m) <= i < |v.elems| :: Valid(m["items"], v.elems[i], I))
    && (forall k | k in m && Outside(k) :: I.holds(k, JObj(m), v))
  }

  /** Exactly one branch of `oneOf` validates the value. */
  ghost predicate OneOfValid(m: map<string, Json>, v: Json, I: Interp)
    decreases JObj(m), 0
  {
    "oneOf" in m && m["oneOf"].JArr? ==>
      exists i :: 0 <= i < |m["oneOf"].elems| && Valid(m["oneOf"].elems[i], v, I)
        && forall j | 0 <= j < |m["oneOf"].elems| && j != i :: !Valid(m["oneOf"].elems[j], v, I)
  }

  /** What the keywords about members ask of an object. */
  ghost predicate ObjectValid(m: map<string, Json>, o: map<string, Json>, I: Interp)
    decreases JObj(m), 0
  {
    && (forall k | k in Properties(m) && k in o :: Valid(Properties(m)[k], o[k], I))
    && ("required" in m && m["required"].JArr? ==> forall r | JStr(r) in m["required"].elems :: r in o)
    && ("additionalProperties" in m ==>
          forall k | k in o && IsAdditional(m, k, I) :: Valid(m["additionalProperties"], o[k], I))
  }

  /** Under `additionalProperties: false` every member must be declared or claimed. */
  lemma ClosedMembers(m: map<string, Json>, o: map<string, Json>, I: Interp)
    requires "additionalProperties" in m && m["additionalProperties"] == JBool(false) && ObjectValid(m, o, I)
    ensures forall k | k in o :: !IsAdditional(m, k, I)
  {
    forall k | k in o ensures !IsAdditional(m, k, I) {
      assert !Valid(JBool(false), o[k], I);
    }
  }
}
