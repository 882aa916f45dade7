/** What every module shares: a datatype for values that may be missing, and a law of sequences. */
module Wrappers {

  /** A value that may be missing: a map lookup, a Kubernetes Get, an absent field, a failed call. */
  datatype Option<+T> = None | Some(value: T) {
    function GetOr(default: T): T {
      match this
      case Some(v) => v
      case None => default
    }
  }

  lemma {:induction false} Regroup<T>(x: seq<T>, y: seq<T>, z: seq<T>)
    ensures (x + y) + z == x + (y + z)
  {
  }
}
