/** An optional value: `None` stands for Python's `None`, a missing key or an absent attribute. */
module Wrappers {

  datatype Option<+T> = None | Some(value: T)
}
