/** An optional value: stands for a JavaScript value that may be `undefined`/`null`,
    a key that may be missing from a record, or a foreign call that may fail. */
module Wrappers {

  datatype Option<+T> = None | Some(value: T)

}
