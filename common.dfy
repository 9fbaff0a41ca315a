/** Small shared vocabulary: optional values, raw bytes, one Python error text. */
module Common {

  /** Python's `None` versus a present value. */
  datatype Option<+T> = None | Some(value: T)

  /** One byte of a file's contents. */
  newtype byte = x: int | 0 <= x < 256

  /** The contents of a file on disk. */
  type Bytes = seq<byte>

  /**
   * `str(e)` of the `AttributeError` Python raises when `append` is called
   * on a JSON document that is not a list (a dict, a string, a number).
   */
  function AppendError(typeName: string): string {
    "'" + typeName + "' object has no attribute 'append'"
  }
}
