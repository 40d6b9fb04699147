/**
 * JSON values as JavaScript sees them after `JSON.parse` and before
 * `JSON.stringify`. Numbers are kept as integers: no operation of the model
 * looks inside a number.
 */
module JsonValue {

  datatype Json =
    | JNull
    | JBool(b: bool)
    | JNumber(n: int)
    | JString(s: string)
    | JArray(items: seq<Json>)
    | JObject(fields: map<string, Json>)

  /** A JavaScript object literal: property names to values. */
  type Props = map<string, Json>
}
