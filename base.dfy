/** Shared value types of the DPS-150 model: wire bytes, opaque float words, and the
    library's error classes (dps150/exceptions.py) as a datatype. */
module Base {

  /** One octet on the serial link. */
  type byte = b: int | 0 <= b < 256

  /** A little-endian IEEE-754 single-precision value, kept as its four bytes.
      Float values themselves are not modelled. */
  type Word = w: seq<byte> | |w| == 4 witness [0, 0, 0, 0]

  /** The encoding of 0.0, the default of every float field. */
  const ZeroWord: Word := [0, 0, 0, 0]

  datatype Option<T> = None | Some(value: T) {
    function GetOr(default: T): T {
      match this
      case Some(v) => v
      case None => default
    }
  }

  /** Why a frame or a float payload was rejected (the message of DPS150ProtocolError). */
  datatype ProtocolFault =
    | PacketTooShort
    | InvalidHeader
    | PacketIncomplete
    | ChecksumMismatch
    | InsufficientFloatData

  /** DPS150ConnectionError, DPS150ProtocolError and Python's ValueError. */
  datatype Error =
    | ConnectionError
    | ProtocolError(fault: ProtocolFault)
    | ValueError

  datatype Result<T> = Ok(value: T) | Err(error: Error) {
    predicate IsFailure() { Err? }
    function PropagateFailure<U>(): Result<U>
      requires Err?
    {
      Err(error)
    }
    function Extract(): T
      requires Ok?
    {
      value
    }
  }

  /** The outcome of an operation that returns nothing but may raise. */
  datatype Outcome = Pass | Fail(error: Error)
}
