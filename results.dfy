/** Failure-carrying values: the two exceptions the pipeline raises become error values. */
module Results {

  /** `ArgumentError` is raised by `Line.for` on a malformed line; `InvalidBasket` by `Subscribe.call`. */
  datatype Error = ArgumentError | InvalidBasket

  datatype Result<T> = Ok(value: T) | Err(error: Error)

  /** `None` stands for Ruby's `nil`. */
  datatype Option<T> = None | Some(value: T)
}
