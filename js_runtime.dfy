/**
 * Language-level notions shared by every part of the model: optional values
 * (a TypeScript `?` field, `undefined` or `null`), byte arrays, values thrown
 * by a failing call, and the outcome of an awaited remote call.
 */
module JsRuntime {

  /** An optional value: `None` stands for `undefined` (or `null`). */
  datatype Option<+T> = None | Some(value: T)

  /** One element of a `Uint8Array`. */
  newtype uint8 = x: int | 0 <= x < 256

  /** A `Uint8Array`. */
  type Bytes = seq<uint8>

  /**
   * A value thrown by a failing call. `ErrorInstance` is an `Error` object
   * with its `message`; `NonError` is any other thrown value, carried
   * together with the text `String(value)` gives for it, since string
   * conversion is the runtime's and not part of this model.
   */
  datatype Thrown = ErrorInstance(message: string) | NonError(asString: string)

  /**
   * The text a `catch` block derives from a thrown value:
   * the message of an `Error`, otherwise its string conversion.
   */
  function ErrorText(t: Thrown): (text: string)
    ensures t.ErrorInstance? ==> text == t.message
    ensures t.NonError? ==> text == t.asString
  {
    match t
    case ErrorInstance(m) => m
    case NonError(s) => s
  }

  /** An index argument of `String.prototype.substring`, clamped into `[0, len]`. */
  function ClampIndex(x: int, len: nat): nat {
    if x < 0 then 0 else if x > len then len else x
  }

  /**
   * `s.substring(start, end)`: both indices are clamped into the string, and
   * swapped when the start lies after the end.
   */
  function Substring(s: string, start: int, end: int): string {
    var a, b := ClampIndex(start, |s|), ClampIndex(end, |s|);
    if a <= b then s[a..b] else s[b..a]
  }

  /** What an awaited call does: it returns a value or it throws. */
  datatype Outcome<+T> = Returns(value: T) | Throws(thrown: Thrown)
}
