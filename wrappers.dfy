/** Option and Result values shared by the payroll modules. */
module Wrappers {

  /** A value that may be absent: Python's `None` or a keyword argument not passed. */
  datatype Option<+T> = None | Some(value: T)

  /** Either a computed value or the exception the Python code would raise. */
  datatype Result<+T, +E> = Ok(value: T) | Err(error: E)

  /** The only exception the modelled code raises on its own inputs. */
  datatype PyError = IndexError
}
