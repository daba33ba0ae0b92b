/** Option and Result: the model's stand-ins for Rust's `Option` and for a
    `panic!` that aborts the run (an `Err` carrying what the panic reports). */
module Wrappers {

  datatype Option<+T> = None | Some(value: T)

  datatype Result<+T, +E> = Ok(value: T) | Err(error: E)
}
