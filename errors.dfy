/**
 * The crate's error type (src/error.rs) and the `Result`/`Option` wrappers used with `:-`
 * to model Rust's `?` operator.
 *
 * The Rust variants carry a formatted, human-readable message; here each message is
 * replaced by a tag that names which message the source formats, with the values the
 * message interpolates.
 */
module Errors {

  type Byte = x: int | 0 <= x < 256
  type Bytes = seq<Byte>

  const I64Min: int := -0x8000_0000_0000_0000
  const I64Bound: int := 0x8000_0000_0000_0000
  const I32Min: int := -0x8000_0000
  const I32Bound: int := 0x8000_0000

  /** Rust `i64` and `i32`. */
  type Int64 = x: int | I64Min <= x < I64Bound
  type Int32 = x: int | I32Min <= x < I32Bound

  /** The messages of `AeroBaseError::DeviceFingerprint`, raised by src/encryption.rs. */
  datatype CryptoFailure =
    | RsaKeyGeneration
    | PemImport
    | PemExport
    | PublicPemExport
    | InvalidKeyLength(actual: nat)
    | AesEncrypt
    | UnsupportedAlgorithm(tag: string)
    | NonceDecode
    | CiphertextDecode
    | AesDecrypt
    | Utf8Decode
    | RsaEncrypt
    | RsaDecrypt
    | Base64Decode

  /** The messages of `AeroBaseError::InvalidInput`, raised by src/flight/. */
  datatype InputFailure =
    | DepartureNotFound(icao: string)
    | DestinationNotFound(icao: string)
    | SameDepartureAndDestination
    | AlternateNotFound(icao: string)
    | AltitudeOutOfRange
    | SpeedOutOfRange
    | WaypointNotFound(id: string)
    | DepartureRequired
    | DestinationRequired
    | CruiseAltitudeRequired
    | CruiseSpeedRequired

  /** SQLite constraint violations surfaced as `AeroBaseError::Database`. */
  datatype DbFailure =
    | NotNullConstraint(column: string)
    | UniqueConstraint(column: string)

  /** A Rust panic: the process aborts instead of returning an `Err`. */
  datatype PanicReason =
    | NonceLength(actual: nat)

  datatype Error =
    | Database(db: DbFailure)
    | Serialization
    | DeviceFingerprint(crypto: CryptoFailure)
    | InvalidInput(input: InputFailure)
    | Panic(panic: PanicReason)

  datatype Option<+T> = None | Some(value: T) {
    function ToResult(e: Error): Result<T> {
      match this
      case Some(v) => Ok(v)
      case None => Err(e)
    }
  }

  datatype Result<+T> = Ok(value: T) | Err(error: Error) {
    predicate IsFailure() {
      Err?
    }

    function PropagateFailure<U>(): Result<U>
      requires Err?
    {
      Err(error)
    }

    function Extract(): T
      requires Ok?
    {
      value
    }
  }
}
