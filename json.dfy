/**
  Values received from the server, after the coercions the components apply to them.

  The components never inspect a JSON value beyond three questions: is it truthy,
  what does `String(v)` (or string concatenation) turn it into, and is it exactly
  a given string (`=== "success"`). A `Value` keeps the answers to those questions
  and nothing else; parsing itself is not modelled.
 */
module Json {

  datatype Option<+T> = None | Some(value: T)

  /** A JSON value: a string, or any other value (number, boolean, null, array,
      object) with its `String(...)` coercion and its truthiness. */
  datatype Value = Str(s: string) | Other(text: string, truthy: bool)

  /** JavaScript truthiness: a string is truthy iff it is not empty. */
  predicate Truthy(v: Value) {
    match v
    case Str(s) => s != ""
    case Other(_, t) => t
  }

  /** `String(v)`, which is also what `"" + v` and a template literal produce. */
  function Text(v: Value): string {
    match v
    case Str(s) => s
    case Other(t, _) => t
  }

  /** JavaScript `null`. */
  const Null: Value := Other("null", false)

  /** `obj[key]`, where an absent key reads as `undefined`. */
  function Get(fields: map<string, Value>, key: string): Option<Value> {
    if key in fields then Some(fields[key]) else None
  }

  /** `obj[key]` in a boolean context: `undefined` is falsy. */
  predicate TruthyField(fields: map<string, Value>, key: string) {
    key in fields && Truthy(fields[key])
  }

  /** A text frame from the push connection, classified by what `JSON.parse` makes of it.
      - NotJson: `JSON.parse` throws; `raw` is the frame text.
      - JsonNonObject: parses to a string, number, boolean or null; `stringified`
        is `JSON.stringify` of the parsed value.
      - JsonObject: parses to a value whose `typeof` is "object" and that is not
        null, that is an object or an array; `fields` are its keys (`"k" in parsed`). */
  datatype Frame =
    | NotJson(raw: string)
    | JsonNonObject(raw: string, stringified: string)
    | JsonObject(fields: map<string, Value>, stringified: string)
}
