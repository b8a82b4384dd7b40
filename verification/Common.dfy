/** Datatypes that all models share. */
module Common {
  datatype Option<+T> = None | Some(value: T)

  /** How a write or a command ends. `Lost`: it took effect and the caller got an error. */
  datatype Fault = Ok | Rejected | Lost

  predicate TookEffect(f: Fault) {
    f != Rejected
  }
}
