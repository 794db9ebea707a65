/** An optional value; each use says what `None` stands for. */
module Wrappers {

  datatype Option<+T> = None | Some(value: T)
}
