/** JavaScript values as the core sees them: absent members, `null`, strings,
    and the two conversions the source relies on (truthiness and template-literal
    rendering). */
module Js {

  datatype Option<+T> = None | Some(value: T) {
    function GetOr(default: T): T {
      match this
      case Some(v) => v
      case None => default
    }
  }

  /** A member of a parsed JSON object that is expected to hold a string:
      `undefined` (absent), `null`, or a string. */
  datatype JsString = Undefined | Null | Str(text: string)

  /** JavaScript truthiness of such a member: only a non-empty string is truthy. */
  predicate Truthy(v: JsString) {
    v.Str? && v.text != ""
  }

  /** What `${v}` produces inside a template literal. */
  function Render(v: JsString): string {
    match v
    case Undefined => "undefined"
    case Null => "null"
    case Str(s) => s
  }

  /** An exception value as a `catch` clause receives it: an `Error` with its
      message, or any other thrown value. */
  datatype Thrown = ErrorValue(message: string) | OtherValue

  /** `error instanceof Error ? error.message : fallback` */
  function MessageOr(e: Thrown, fallback: string): string {
    match e
    case ErrorValue(m) => m
    case OtherValue => fallback
  }
}
