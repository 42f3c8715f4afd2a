/** Failure-carrying wrappers shared by the rest of the model: a JavaScript
    `throw` is modelled as a `Failure`, a value that may be `undefined` as an
    `Option`. */
module Results {

  datatype Option<T> = None | Some(value: T)

  datatype Result<T, E> = Success(value: T) | Failure(error: E)
}
