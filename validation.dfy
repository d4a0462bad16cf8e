/**
 * The part of zod's behaviour the schemas rely on: the JavaScript type of a
 * parsed value, the default messages of a failed type check, and the shape of
 * `safeParse(...)` and `error.flatten().fieldErrors`.
 */
module Validation {
  import opened Wrappers

  /** An uploaded file: its size in bytes and its MIME type (`File.type`, which may be ""). */
  datatype ImageFile = ImageFile(size: nat, mime: string)

  /** A value read from a JSON body or a multipart form, classified by its JavaScript type. */
  datatype Value =
    | Undefined
    | Null
    | Str(s: string)
    | Number(n: int)
    | Bool(b: bool)
    | FileValue(file: ImageFile)
    | ArrayValue
    | ObjectValue

  /** `error.flatten().fieldErrors`: for each failing field, its messages in the order the checks ran. */
  type FieldErrors = map<string, seq<string>>

  /** The result of `schema.safeParse(...)` for a schema this model defines. */
  datatype Parsed<T> = Valid(value: T) | Invalid(fieldErrors: FieldErrors)

  /** The verdict of a schema whose rules are not part of this model. */
  datatype Verdict = Passed | Failed(fieldErrors: FieldErrors)

  /** The name zod gives the type it received (a `File` is an "object"). */
  function TypeName(v: Value): string
  {
    match v
    case Undefined => "undefined"
    case Null => "null"
    case Str(_) => "string"
    case Number(_) => "number"
    case Bool(_) => "boolean"
    case FileValue(_) => "object"
    case ArrayValue => "array"
    case ObjectValue => "object"
  }

  /**
   * The message of the type issue `z.string(params)` raises for a value that is
   * not a string: the schema's own `message` when it has one, otherwise zod's
   * default, which is "Required" for a missing value.
   */
  function StringTypeIssue(v: Value, custom: Option<string>): (m: string)
    requires !v.Str?
    ensures custom.Some? ==> m == custom.value
    ensures custom.None? && v.Undefined? ==> m == "Required"
    ensures custom.None? && !v.Undefined? ==> m == "Expected string, received " + TypeName(v)
  {
    match custom
    case Some(message) => message
    case None => if v.Undefined? then "Required" else "Expected string, received " + TypeName(v)
  }
}
