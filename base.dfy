/** Option and Result, the two ways the modelled code reports absence and failure; bytes, words and song identifiers. */
module Base {

  datatype Option<+T> = None | Some(value: T)

  datatype Result<+T, +E> = Ok(value: T) | Err(error: E)

  /** Bytes and 32-bit words, as the numbers they hold. */
  type Byte = x: int | 0 <= x < 0x100
  type Word = x: int | 0 <= x < 0x1_0000_0000

  /** A song identifier (a UUID), compared only for equality. */
  type Uuid = string

  /** `uuid.Nil`, the identifier a recording's own fingerprints carry. */
  const NilUuid: Uuid := "00000000-0000-0000-0000-000000000000"
}
