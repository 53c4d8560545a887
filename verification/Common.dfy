/** Results that carry the kind of C++ exception the source throws. */
module Common {
  datatype Error = InvalidArgument | RuntimeError | OutOfRange

  datatype Result<+T> = Ok(value: T) | Err(error: Error)

  datatype Option<+T> = None | Some(value: T)
}
