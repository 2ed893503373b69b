/** Small result types shared by the model: an optional value, and the outcome
    of a Django `clean()` check, which either passes or raises a field-keyed
    `ValidationError`. */
module Wrappers {

  datatype Option<+T> = None | Some(value: T)

  /** A `ValidationError({field: message})` as raised by a model's `clean()`. */
  datatype ValidationError = ValidationError(field: string, message: string)

  /** The result of a `clean()` call: it returns normally, or it raises. */
  datatype Outcome = Pass | Fail(error: ValidationError)
}
