/** Result types and identifiers shared by every module. */
module Basics {

  datatype Option<+T> = None | Some(value: T)

  datatype Result<+T, +E> = Ok(value: T) | Err(error: E)

  // Identifiers, digests and instants are opaque to the control plane: it only
  // compares them. Instants are milliseconds and are ordered.
  type Time = nat
  type Actor = nat
  type Digest = nat
  type Head = nat

  ghost predicate Distinct<T>(s: seq<T>) {
    forall i, j :: 0 <= i < j < |s| ==> s[i] != s[j]
  }

  /** s lists the elements of a finite set, each once, in some order (a directory listing). */
  ghost predicate Lists<T(!new)>(s: seq<T>, elements: set<T>) {
    Distinct(s) && forall x :: x in s <==> x in elements
  }
}
