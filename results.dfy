/** Failure-carrying values shared by the whole model: an absent value, and the
    outcome of a step that can raise an exception in the Python service. */
module Results {

  datatype Option<T> = None | Some(value: T)

  datatype Result<T, E> = Ok(value: T) | Err(error: E)
}
