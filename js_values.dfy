/** Values that the request handlers read from a submitted form, from the
    storage layer or from Express, which are either `undefined` or a string. */
module JsValues {

  /** A JavaScript value that is either `undefined` or a string. */
  datatype MaybeStr = Undefined | Str(s: string)

  /** JavaScript truthiness of such a value: `undefined` and `''` are falsy,
      every other string is truthy. */
  predicate Truthy(v: MaybeStr)
  {
    v.Str? && v.s != ""
  }

  datatype Option<T> = None | Some(value: T)
}
