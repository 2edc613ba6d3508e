/** What both programs share. */
module Common {

  /** An address, as its rank in the lexicographic order of the program's address strings. */
  type Addr = nat

  datatype Option<+T> = None | Some(value: T)
}
