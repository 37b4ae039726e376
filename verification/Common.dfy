/** Optional values and results with an error, shared by every module. */
module Common {
  datatype Option<+T> = None | Some(value: T)

  datatype Result<+T, +E> = Ok(value: T) | Err(error: E)

  /** The elements at the picked positions. */
  function At<T>(s: seq<T>, picked: seq<nat>): seq<T>
    requires forall k :: 0 <= k < |picked| ==> picked[k] < |s|
  {
    seq(|picked|, k requires 0 <= k < |picked| => s[picked[k]])
  }

  lemma AtOneMore<T>(s: seq<T>, picked: seq<nat>)
    requires s != [] && forall k :: 0 <= k < |picked| ==> picked[k] < |s| - 1
    ensures At(s, picked) == At(s[..|s| - 1], picked)
    ensures At(s, picked + [|s| - 1]) == At(s, picked) + [s[|s| - 1]]
  {
  }
}
