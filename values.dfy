/**
 * The host types the evaluator works with: serde_json's `Value`, the crate's
 * `Error`, and the variable scopes (`Context`, `Contexts`) the handle owns.
 */
module Values {

  /** A JSON-like value (serde_json::Value). */
  datatype Value =
    | Null
    | Bool(b: bool)
    | Number(n: real)
    | String(s: string)
    | Array(items: seq<Value>)
    | Object(fields: map<string, Value>)

  /**
   * crate::error::Error is not part of this model: errors are produced by the
   * front end, by compiled units and by function bodies, and are only passed
   * through here, so an error is carried as its description.
   */
  datatype Error = Error(description: string)

  /** One scope: variable name to value. */
  type Context = map<string, Value>

  /** The scope stack, innermost frame last. */
  type Contexts = seq<Context>
}
