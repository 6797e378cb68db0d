/**
 * Shared vocabulary of the model: Rust's Option and Result, the u8 byte,
 * and a codec: the pair of functions a foreign library provides to turn
 * a value into its wire form and back.
 */
module Common {

  /** Rust's `Option<T>`. */
  datatype Option<+T> = None | Some(value: T)

  /** Rust's `Result<T, E>`, usable with Dafny's `:-` like Rust's `?`. */
  datatype Result<+T, +E> = Success(value: T) | Failure(error: E) {
    predicate IsFailure() {
      Failure?
    }

    function PropagateFailure<U>(): Result<U, E>
      requires Failure?
    {
      Failure(error)
    }

    function Extract(): T
      requires Success?
    {
      value
    }
  }

  /** Rust's `u8`. */
  type byte = x: int | 0 <= x < 256

  /**
   * The two directions of a library codec (base64, RFC 3339 dates, URI
   * display and parsing, UTF-8): `enc` always succeeds, `dec` may reject
   * its input.
   */
  datatype Codec<!A(!new), !B> = Codec(enc: A -> B, dec: B -> Option<A>) {
    /** What every such library promises: decoding an encoding gives the value back. */
    ghost predicate RoundTrips() {
      forall a :: dec(enc(a)) == Some(a)
    }
  }
}
