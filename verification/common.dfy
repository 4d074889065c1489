/** Small shared vocabulary: optional values and the opaque payloads that travel between components. */
module Common {

  datatype Option<+T> = None | Some(value: T)

  /** Whether an operation that returns nothing completed or raised `error`. */
  datatype Outcome<+E> = Pass | Fail(error: E)

  /** One block of raw 16-bit PCM audio, as handed over by the audio driver. */
  type Frame = seq<bv8>

  /** The identity of a Python callable (a bound method or a function), compared with `==`. */
  type Handler = nat
}
