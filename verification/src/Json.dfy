/**
 JSON values as `serde_json` holds them. Objects are sorted maps, so equality ignores key order. A
 number is its printed token, so that two numbers are equal exactly when they print alike.
 */
module Json {

  datatype Json =
    | Null
    | Bool(b: bool)
    | Number(token: string)
    | String(text: string)
    | Array(items: seq<Json>)
    | Object(members: map<string, Json>)

  predicate IsNumberChar(c: char) {
    '0' <= c <= '9' || c == '-' || c == '+' || c == '.' || c == 'e' || c == 'E'
  }

  predicate IsNumberToken(t: string) {
    t != "" && forall i | 0 <= i < |t| :: IsNumberChar(t[i])
  }

  /** Every number in the value carries a printed number token. */
  ghost predicate WellFormed(j: Json) {
    match j
    case Number(t) => IsNumberToken(t)
    case Array(items) => forall i | 0 <= i < |items| :: WellFormed(items[i])
    case Object(m) => forall k | k in m :: WellFormed(m[k])
    case _ => true
  }

  /** All the keys are members of the object. */
  ghost predicate Names(j: Json, keys: seq<string>) {
    j.Object? && forall i | 0 <= i < |keys| :: keys[i] in j.members
  }

  /** The value carries this text as a `$ref`, at any depth. */
  ghost predicate Carries(j: Json, reference: string) {
    match j
    case Object(m) =>
      || ("$ref" in m && m["$ref"] == String(reference))
      || exists k | k in m :: Carries(m[k], reference)
    case Array(items) => exists i | 0 <= i < |items| :: Carries(items[i], reference)
    case _ => false
  }
}
