/** The Option type used for values that may be absent (a missing config file,
    a failed decryption, a note id that matches nothing). */
module Wrappers {

  datatype Option<+T> = None | Some(value: T)
}
