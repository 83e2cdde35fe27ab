/** Values shared by the file reader and the rasteriser: a parsed point of the
    complex plane, and the Option/Result wrappers that stand in for Python's
    exceptions. */
module Points {

  /** A complex number as Python's complex() yields it: real and imaginary part.
      Floating point is modelled by exact reals. */
  datatype Point = Point(re: real, im: real)

  datatype Option<T> = None | Some(value: T)

  datatype Result<T, E> = Ok(value: T) | Err(error: E)
}
