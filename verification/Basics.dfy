/** Shared small types. */
module Basics {

  datatype Option<+T> = None | Some(value: T)

  /** What a storage statement reports. A commit can land and still report an error. */
  datatype Fate = Landed | LandedButReported | Lost {
    predicate Lands() {
      this != Lost
    }
  }
}
