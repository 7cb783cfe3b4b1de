/** The optional-value datatype used throughout the model for PHP's `null`
    (an unset property, a key missing from the decoded API payload). */
module Wrappers {

  datatype Option<+T> = None | Some(value: T)
}
