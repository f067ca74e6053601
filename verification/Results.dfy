/** The two result shapes the model uses where the Go code returns `value, ok` or `value, err`. */
module Results {

  datatype Option<+T> = None | Some(value: T)

  datatype Result<+T, +E> = Ok(value: T) | Err(error: E)
}
