/** The optional-value datatype used wherever the app works with an optional
    (`String?`, `ChatUser?`, a snapshot that may be absent). */
module Wrappers {

  datatype Option<+T> = None | Some(value: T)
}
