/** What several of the models share: the optional value, used for pointers that may be null among
    others, and sequences of ids without repetition. */
module Wrappers {

  datatype Option<+T> = None | Some(value: T)

  predicate Distinct(ids: seq<nat>) {
    forall i, j | 0 <= i < j < |ids| :: ids[i] != ids[j]
  }
}
