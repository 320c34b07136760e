/** Small datatypes shared by every module. */
module Common {
  datatype Option<+T> = None | Some(value: T)

  /** The value a Go map holds under a key, with None for an absent key. */
  function Get<K, V>(m: map<K, V>, k: K): Option<V> {
    if k in m then Some(m[k]) else None
  }

  function Same<T>(x: T): T {
    x
  }

  /** `picked` are the elements of `all` to keep, each once and in order: the ones at the indices `at`. */
  ghost predicate Selects<T, U>(all: seq<T>, picked: seq<U>, at: seq<nat>, keep: T -> bool, out: T -> U) {
    && |at| == |picked|
    && (forall i, j :: 0 <= i < j < |at| ==> at[i] < at[j])
    && (forall i :: 0 <= i < |at| ==> at[i] < |all| && picked[i] == out(all[at[i]]))
    && (forall j :: 0 <= j < |all| ==> (keep(all[j]) <==> j in at))
  }

  lemma SelectsOneMore<T, U>(all: seq<T>, picked: seq<U>, at: seq<nat>, keep: T -> bool, out: T -> U, last: T)
    requires Selects(all, picked, at, keep, out)
    ensures keep(last) ==> Selects(all + [last], picked + [out(last)], at + [|all|], keep, out)
    ensures !keep(last) ==> Selects(all + [last], picked, at, keep, out)
  {
    var all' := all + [last];
    assert forall j :: 0 <= j < |all| ==> all'[j] == all[j];
    var at' := at + [|all|];
    assert forall i :: 0 <= i < |at| ==> at'[i] == at[i];
    forall j | 0 <= j < |all|
      ensures j in at' <==> j in at
    {
      if j in at { var i :| 0 <= i < |at| && at[i] == j; assert at'[i] == j; }
    }
    assert at'[|at|] == |all| && |all| !in at;
  }
}
