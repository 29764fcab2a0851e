/** Value types shared by every component: bytes, machine-width unsigned
    integers, optional values, results, and the I/O error that the Rust
    standard library reports (`std::io::Error`, a kind plus a message). */
module Common {

  /** An unsigned 8-bit value (`u8`). */
  type byte = b: nat | b < 0x100

  /** An unsigned pointer-width value (`usize`) on a 64-bit host. */
  type usize = x: nat | x < 0x1_0000_0000_0000_0000

  datatype Option<T> = None | Some(value: T)

  datatype Result<T, E> = Ok(value: T) | Err(error: E)

  /** The kinds of `std::io::ErrorKind` the model distinguishes; every other
      kind the operating system may report is `Other`. */
  datatype ErrorKind =
    | NotFound
    | PermissionDenied
    | Interrupted
    | InvalidData
    | UnexpectedEof
    | Other

  /** `std::io::Error`: a kind and a human-readable message. */
  datatype IoError = IoError(kind: ErrorKind, message: string)
}
