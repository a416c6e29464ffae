/** What several modules share. */
module Common {

  datatype Option<T> = None | Some(value: T)

  /** Tracked devices the runtime has slots for. */
  const Slots: nat := 64
}
