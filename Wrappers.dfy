/** The optional value used wherever the components hold "something or nothing":
    a pending request, the result of `Array.prototype.find`, an optional tree field. */
module Wrappers {

  datatype Option<+T> = None | Some(value: T)

}
