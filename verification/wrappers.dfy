/** The optional value used wherever the bridge reads something that may be `undefined`. */
module Wrappers {

  datatype Option<+T> = None | Some(value: T)
}
