/** Optional values, the model of Python's `Optional[int]` fields. */
module Opciones {

  datatype Option<+T> = None | Some(value: T)
}
