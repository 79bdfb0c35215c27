/** Definitions shared by every component of the model. */
module Prelude {

  datatype Option<+T> = None | Some(value: T)

  /** No element occurs twice. */
  predicate NoDup<T(==)>(s: seq<T>) {
    forall i, j :: 0 <= i < j < |s| ==> s[i] != s[j]
  }

  lemma NoDupPrepend<T>(x: T, s: seq<T>)
    requires NoDup(s) && x !in s
    ensures NoDup([x] + s)
    ensures forall y :: y in [x] + s <==> y == x || y in s
  {
  }

  function Min(a: int, b: int): int {
    if a <= b then a else b
  }

  function Max(a: int, b: int): int {
    if a <= b then b else a
  }

  /** The sum of the first k values of w. */
  ghost function SumTo(w: nat -> int, k: nat): int {
    if k == 0 then 0 else SumTo(w, k - 1) + w(k - 1)
  }

  /** Sums agree when the summands do. */
  lemma {:induction false} SumSame(w: nat -> int, w': nat -> int, k: nat)
    requires forall i :: 0 <= i < k ==> w(i) == w'(i)
    ensures SumTo(w, k) == SumTo(w', k)
  {
    if k > 0 {
      SumSame(w, w', k - 1);
    }
  }

  /** Changing one summand changes the sum by the same amount. */
  lemma {:induction false} SumChange(w: nat -> int, w': nat -> int, k: nat, g: nat)
    requires g < k
    requires forall i :: 0 <= i < k && i != g ==> w(i) == w'(i)
    ensures SumTo(w', k) == SumTo(w, k) - w(g) + w'(g)
  {
    if g == k - 1 {
      SumSame(w, w', k - 1);
    } else {
      SumChange(w, w', k - 1, g);
    }
  }

  /** A sum of non-negative terms is not negative. */
  lemma {:induction false} SumNonNegative(w: nat -> int, k: nat)
    requires forall i :: 0 <= i < k ==> w(i) >= 0
    ensures SumTo(w, k) >= 0
  {
    if k > 0 {
      SumNonNegative(w, k - 1);
    }
  }
}
