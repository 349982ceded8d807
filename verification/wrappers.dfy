/** The optional value used for nullable Kotlin values (`Int?`, a missing row). */
module Wrappers {

  datatype Option<+T> = None | Some(value: T)
}
