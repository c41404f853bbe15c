/** Small value types shared by the cache, the downloader and the temporary file. */
module Common {

  /** Swift's optional: `nil` or a value. */
  datatype Option<+T> = None | Some(value: T)

  /** One octet of a `Data` value. */
  newtype byte = x: int | 0 <= x < 256

  /** The contents of a `Data` value. */
  type Bytes = seq<byte>
}
