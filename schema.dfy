/** Optional values and results, used for request fields that may be absent
    and for validation that may fail. */
module Wrappers {
  datatype Option<+T> = None | Some(value: T)

  datatype Result<+T, +E> = Ok(value: T) | Err(error: E)
}

/** The parts of Mongoose's document validation that both schemas use:
    a `required` check per path and the error it reports. */
module Schema {
  import opened Wrappers

  /** Why one path of a document failed validation. Mongoose stops at the
      first failing validator of a path, so a path contributes at most one. */
  datatype FieldError =
    | Required(path: string)
    | NotInEnum(path: string, value: string)

  /** `required: true` on a String path: the value is there and is not the
      empty string. */
  predicate RequiredText(v: Option<string>)
  {
    v.Some? && v.value != ""
  }

  /** The `required` validator of a String path, as an error list. */
  function CheckText(path: string, v: Option<string>): seq<FieldError>
  {
    if RequiredText(v) then [] else [Required(path)]
  }

  /** The `required` validator of a Number path: any number is accepted. */
  function CheckNumber(path: string, v: Option<int>): seq<FieldError>
  {
    if v.Some? then [] else [Required(path)]
  }
}
