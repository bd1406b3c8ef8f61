/** Vocabulary every module shares. */
module Wrappers {

  datatype Option<T> = None | Some(value: T)

  const MAX_ID_LENGTH := 64

  /** What every service accepts as the id of a player, a match, a room or a request. */
  predicate ValidId(id: string) {
    0 < |id| <= MAX_ID_LENGTH
  }
}
