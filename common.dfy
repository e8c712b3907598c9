/** Value types shared by every part of the model. */
module Common {

  /** A value that may be missing: Python's `None`, JavaScript's `null`/`undefined`. */
  datatype Option<T> = None | Some(value: T)

  /** The outcome of a Python call that may raise; `message` is what `str(e)` gives. */
  datatype Result<T> = Ok(value: T) | Raised(message: string)

  /** An HTTP answer: the status code and the decoded JSON body. */
  datatype Response<B> = Response(status: int, body: B)

  function Max(a: real, b: real): real { if a >= b then a else b }

  function Min(a: real, b: real): real { if a <= b then a else b }

  function Abs(x: real): (r: real)
    ensures r >= 0.0 && (r == x || r == -x)
  {
    if x < 0.0 then -x else x
  }
}
