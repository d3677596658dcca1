/**
 * The JSON values exchanged on the /voice_agent/process_voice route, as the
 * Python controller builds them and as the JavaScript client reads them.
 */
module Protocol {

  /** A JSON value as far as this route uses it. `Undefined` is what JavaScript
      reads for a key that the object does not have. */
  datatype Value = Undefined | Null | Flag(b: bool) | Text(s: string)

  /** A JSON object: the controller's result dict, the client's `result`. */
  type Object = map<string, Value>

  /** Truthiness; Python and JavaScript agree on these values
      (None/null/undefined, False/false and the empty string are falsy). */
  predicate Truthy(v: Value) {
    match v
    case Flag(b) => b
    case Text(s) => s != []
    case _ => false
  }

  /** JavaScript's string conversion of a value, as in a template literal. */
  function ToJsString(v: Value): string {
    match v
    case Undefined => "undefined"
    case Null => "null"
    case Flag(b) => if b then "true" else "false"
    case Text(s) => s
  }

  /** Property access `o.key` in JavaScript. */
  function Get(o: Object, key: string): (v: Value)
    ensures key in o ==> v == o[key]
    ensures key !in o ==> v == Undefined
  {
    if key in o then o[key] else Undefined
  }
}
