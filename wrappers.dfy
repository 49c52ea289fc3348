/** The nullable references of the player screen (`MediaPlayer?`, `Song?`) as a datatype. */
module Wrappers {

  datatype Option<+T> = None | Some(value: T)
}
