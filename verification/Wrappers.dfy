/** An optional value, and sequences without repetition. */
module Wrappers {

  datatype Option<+T> = None | Some(value: T)

  predicate NoRepeats<T(==)>(s: seq<T>) {
    forall i, j :: 0 <= i < j < |s| ==> s[i] != s[j]
  }
}
