/** Small shared datatypes: an optional value and the two kinds of Python
    exception the dispatcher tells apart. */
module Wrappers {

  datatype Option<T> = None | Some(value: T)

  /** An exception that escapes a handler: `ValueError` or any other kind. */
  datatype Exception = ValueError(msg: string) | OtherException(msg: string)
}
