/** The optional-value datatype used for Go's `error` results (`nil` is `None`)
    and for parse results that may fail. */
module Wrappers {

  datatype Option<+T> = None | Some(value: T)

}
