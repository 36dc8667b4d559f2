// Small shared vocabulary: optional values, results, sets visited in some order, powers of two, and runs of steps.
module Prelude {

  datatype Option<+T> = None | Some(value: T)

  datatype Result<+T> = Ok(value: T) | Err(reason: string)

  /** The list holds just these elements: one of the orders in which ranging over a map may yield its keys. */
  predicate Lists<T(==)>(order: seq<T>, keys: set<T>) {
    (forall k :: k in order ==> k in keys) && (forall k :: k in keys ==> k in order)
  }

  /** The same, each element once. */
  predicate Enumerates<T(==)>(order: seq<T>, keys: set<T>) {
    Lists(order, keys) && forall i, j :: 0 <= i < j < |order| ==> order[i] != order[j]
  }

  function Pow2(n: nat): (p: nat)
    ensures p > 0
  {
    if n == 0 then 1 else 2 * Pow2(n - 1)
  }

  /** What a run of steps leaves. */
  function Fold<S, A>(step: (S, A) -> S, s: S, steps: seq<A>): S {
    if steps == [] then s else step(Fold(step, s, steps[..|steps| - 1]), steps[|steps| - 1])
  }

  lemma FoldLast<S, A>(step: (S, A) -> S, s: S, steps: seq<A>, a: A)
    ensures Fold(step, s, steps + [a]) == step(Fold(step, s, steps), a)
  {
    assert (steps + [a])[..|steps|] == steps;
  }

  lemma {:induction false} FoldAll<S, A>(step: (S, A) -> S, s: S, first: seq<A>, second: seq<A>)
    ensures Fold(step, s, first + second) == Fold(step, Fold(step, s, first), second)
    decreases |second|
  {
    if second == [] {
      assert first + second == first;
    } else {
      var n := |second| - 1;
      FoldAll(step, s, first, second[..n]);
      assert (first + second)[..|first| + n] == first + second[..n];
    }
  }
}
