/** An optional value: `undefined` versus a present value in the adapter's props. */
module Wrappers {
  datatype Option<+T> = None | Some(value: T)
}
