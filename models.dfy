/** Values shared by the three pages: the Door record, the Option and Result
    wrappers the pages match on, and the fixed-width integers of the Rust code. */
module Models {

  datatype Option<T> = None | Some(value: T)

  /** Rust's Result<T, anyhow::Error>. */
  datatype Result<T, E> = Ok(value: T) | Err(error: E)

  /** anyhow::Error: the pages never look inside it. */
  datatype Error = Error(message: string)

  newtype i32 = x: int | -0x8000_0000 <= x < 0x8000_0000

  const I64_MAX: int := 0x7fff_ffff_ffff_ffff
  newtype i64 = x: int | -0x8000_0000_0000_0000 <= x <= I64_MAX

  /** A door lock record, with the fields the pages read plus its identity. */
  datatype Door = Door(
    id: int,
    name: string,
    compartment: string,
    level: string,
    building: string,
    description: string)
}
