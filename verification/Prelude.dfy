/** Options, results, the store's error sentinels, searches over rows and sums of weights. */
module Prelude {

  datatype Option<+T> = None | Some(value: T)

  /** The sentinels every store operation reports (`internal/store/open.go`). */
  datatype Error = Invalid | Conflict | Storage | NoWork | LeaseLost | Saturated

  datatype Result<+T> = Ok(value: T) | Err(error: Error) {
    predicate IsFailure() {
      Err?
    }

    function PropagateFailure<U>(): Result<U>
      requires Err?
    {
      Err(error)
    }

    function Extract(): T
      requires Ok?
    {
      value
    }
  }

  function Max(a: int, b: int): int {
    if a < b then b else a
  }

  /** The first position of a row that satisfies `p`: `SELECT ... ORDER BY id LIMIT 1`. */
  function FirstIndex<T>(s: seq<T>, p: T -> bool, from: nat := 0): (r: Option<nat>)
    requires from <= |s|
    ensures r.Some? ==> from <= r.value < |s| && p(s[r.value])
    ensures r.Some? ==> forall j :: from <= j < r.value ==> !p(s[j])
    ensures r.None? ==> forall j :: from <= j < |s| ==> !p(s[j])
    decreases |s| - from
  {
    if from == |s| then None
    else if p(s[from]) then Some(from)
    else FirstIndex(s, p, from + 1)
  }

  function Total(weights: seq<nat>): nat {
    if weights == [] then 0
    else Total(weights[..|weights| - 1]) + weights[|weights| - 1]
  }

  lemma TotalAppend(weights: seq<nat>, w: nat)
    ensures Total(weights + [w]) == Total(weights) + w
  {
    assert (weights + [w])[..|weights|] == weights;
  }

  lemma {:induction false} TotalMonotone(a: seq<nat>, b: seq<nat>)
    requires |a| == |b|
    requires forall i :: 0 <= i < |a| ==> b[i] <= a[i]
    ensures Total(b) <= Total(a)
  {
    if a != [] {
      TotalMonotone(a[..|a| - 1], b[..|b| - 1]);
    }
  }
}
