/** JSON values. Member order is not part of a value; numbers are reals. */
module JsonValue {

  datatype Json =
    | JNull
    | JBool(b: bool)
    | JNum(n: real)
    | JStr(s: string)
    | JArr(elems: seq<Json>)
    | JObj(members: map<string, Json>)

  predicate IsScalar(j: Json) { !j.JArr? && !j.JObj? }

  predicate IsIntegral(n: real) { n.Floor as real == n }

  const MAX_SAFE_INTEGER: real := 9007199254740991.0

  predicate IsSafe(n: real) { -MAX_SAFE_INTEGER <= n <= MAX_SAFE_INTEGER }

  /** Every integer anywhere in the value is one a JavaScript number holds exactly. */
  predicate SafeIntegers(j: Json) {
    match j
    case JNum(n) => IsIntegral(n) ==> IsSafe(n)
    case JArr(es) => forall i | 0 <= i < |es| :: SafeIntegers(es[i])
    case JObj(m) => forall k | k in m :: SafeIntegers(m[k])
    case _ => true
  }
}
