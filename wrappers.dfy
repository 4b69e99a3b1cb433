/** Option and Result, the failure-carrying types the model uses for Python's
    `None` returns and raised exceptions. */
module Wrappers {

  datatype Option<+T> = None | Some(value: T)

  /** The exceptions the binding raises, with the message text it attaches. */
  datatype Error =
    | AvisynthError(message: string)   // avisynth.AvisynthError(...)
    | IndexError                        // `raise IndexError`, or a list index out of range
    | TypeError                         // subscripting `None`
    | AttributeError                    // an attribute read on `None`
    | ZeroDivisionError                 // Python 2 integer division or modulo by zero
    | InvalidString(text: string)       // Exception(_('Invalid string: ') + text) in Y4MHeader
    | BadColorspace(colorspace: string) // the yuv4mpeg2 colourspace exception in Y4MHeader

  datatype Result<+T> = Ok(value: T) | Err(error: Error)

  /** Python truthiness of an optional byte string: `None` and `''` are false. */
  predicate Truthy(s: Option<string>) {
    s.Some? && |s.value| > 0
  }

  /** Python's `a or b` on optional strings. */
  function OrElse(a: Option<string>, b: Option<string>): (r: Option<string>)
    ensures Truthy(a) ==> r == a
    ensures !Truthy(a) ==> r == b
  {
    if Truthy(a) then a else b
  }
}
