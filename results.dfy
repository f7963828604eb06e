/** Optional values and results with an error, shared by the render-phase and
    contribution models (Java's null and thrown exceptions). */
module Results {

  datatype Option<+T> = None | Some(value: T)

  datatype Result<+T, +E> = Ok(value: T) | Err(error: E)
}
