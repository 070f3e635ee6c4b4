/** The optional and fallible values that the models of Nexus N3 share. */
module Wrappers {

  datatype Option<+T> = None | Some(value: T)

  datatype Result<+T> = Ok(value: T) | Rejected

  function Elements<T>(s: seq<T>): set<T> {
    set x | x in s
  }
}
