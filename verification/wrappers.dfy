/** Shared result type. */
module Wrappers {
  /** A value that may be missing; also the answer of a call that may fail. */
  datatype Option<+T> = None | Some(value: T)

  lemma EmptyOrMember<T>(s: seq<T>)
    ensures s == [] || exists x :: x in s
  {
    if s != [] {
      assert s[0] in s;
    }
  }
}
