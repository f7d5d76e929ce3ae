/** The one optional-value type the model needs: a file that may not open,
    a projection that may not exist. */
module Wrappers {
  datatype Option<T> = None | Some(value: T)
}
