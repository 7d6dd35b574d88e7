/**
 * JavaScript values as far as the loader glue inspects them: an optional
 * (possibly `undefined`) value, and the decoded content of a JSON file
 * together with JavaScript's truthiness and string conversion.
 */
module JsValues {

  /** `None` stands for a property that is absent (`undefined`). */
  datatype Option<+T> = None | Some(value: T)

  /**
   * A decoded JSON document.  A number is represented by its canonical
   * JavaScript string form (what `String(n)` prints, so `-0` is `"0"`);
   * decoded JSON never holds `NaN`.  Object members are keyed by name.
   */
  datatype JsonValue =
    | JNull
    | JBool(b: bool)
    | JNum(repr: string)
    | JStr(s: string)
    | JArr(items: seq<JsonValue>)
    | JObj(fields: map<string, JsonValue>)

  /** JavaScript truthiness of a JSON value: `null`, `false`, `0` and `""` are falsy. */
  predicate Truthy(v: JsonValue)
  {
    match v
    case JNull => false
    case JBool(b) => b
    case JNum(repr) => repr != "0"
    case JStr(s) => s != ""
    case JArr(_) => true
    case JObj(_) => true
  }

  /** Truthiness of a property read: `undefined` is falsy. */
  predicate TruthyProp(p: Option<JsonValue>)
  {
    p.Some? && Truthy(p.value)
  }

  /**
   * Reading property `key` of a value that is not `null`: only objects have
   * own members; a string, number, boolean or array has no property with a
   * JSON member name the glue asks for, so the read gives `undefined`.
   */
  function Prop(v: JsonValue, key: string): Option<JsonValue>
    requires !v.JNull?
  {
    if v.JObj? && key in v.fields then Some(v.fields[key]) else None
  }

  /**
   * The string JavaScript's `+` produces for a value when it is concatenated
   * to a string: arrays are joined with `,` (a `null` element gives the empty
   * string) and every object converts to `[object Object]`.
   */
  function ToText(v: JsonValue): string
  {
    match v
    case JNull => "null"
    case JBool(b) => if b then "true" else "false"
    case JNum(repr) => repr
    case JStr(s) => s
    case JArr(items) => Join(items)
    case JObj(_) => "[object Object]"
  }

  /** `Array.prototype.join(",")` of the elements of an array. */
  function Join(items: seq<JsonValue>): string
    decreases items
  {
    if items == [] then ""
    else
      var first := if items[0].JNull? then "" else ToText(items[0]);
      if |items| == 1 then first else first + "," + Join(items[1..])
  }
}
