/** Values of the browser side that the user list passes around. */
module Js {

  datatype Option<+T> = None | Some(value: T)

  /**
   * The JavaScript values that reach a request parameter: `undefined` (an
   * omitted argument, a missing `data-page`, an element without `id`),
   * `null`, a number, or a string.
   */
  datatype JsValue = Undefined | Null | Num(n: int) | Str(s: string)
}
