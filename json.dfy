/**
 * What the model needs to know of one field of a parsed JSON value: it is
 * missing (`undefined`), a string, or something else (a number, a boolean,
 * an array or an object). A `null` field is `NonString` where the code tests
 * the field's type or value directly, as the route does with `query` and
 * `language`. Where the code reads the field through optional chaining
 * (`?.`), a `null` behaves as a missing field and is given as `Undefined`.
 */
module Json {

  datatype Value = Undefined | Str(s: string) | NonString
}
