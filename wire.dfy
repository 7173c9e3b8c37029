/** Machine integers and the error type shared by the exchange layer. */
module Wire {

  /** Rust's `u8`: every byte of a command or reply frame, and the volume. */
  newtype u8 = x: int | 0 <= x < 256

  /** Rust's `i8`: the signed volume delta. */
  newtype i8 = x: int | -128 <= x < 128

  /** A command frame as written to the stream. */
  type Frame = seq<u8>

  /** The fixed 8-byte reply buffer that one read fills. */
  type Reply = r: seq<u8> | |r| == 8 witness [0, 0, 0, 0, 0, 0, 0, 0]

  /** The one way an exchange can fail: the stream is unusable. */
  datatype IoError = ConnectionLost

  /** An optional value, as returned by the derived `from_u8` conversions. */
  datatype Option<T> = None | Some(value: T)

  /** `std::io::Result`, usable with `:-` as Rust's `?` operator. */
  datatype Result<T> = Ok(value: T) | Err(error: IoError) {
    predicate IsFailure() { Err? }

    function PropagateFailure<U>(): Result<U>
      requires Err?
    {
      Err(error)
    }

    function Extract(): T
      requires Ok?
    {
      value
    }
  }

  /** The bit-vector view of a byte, on which the status codec works. */
  function Bits(b: u8): bv8 {
    b as int as bv8
  }

  /** The byte whose bit-vector view is `x`. */
  function Byte(x: bv8): (b: u8)
    ensures Bits(b) == x
  {
    x as int as u8
  }
}
