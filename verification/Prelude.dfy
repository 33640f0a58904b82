/** Small shared datatypes and sums over sequences. */
module Prelude {
  datatype Option<+T> = None | Some(value: T)

  datatype Result<+T, +E> = Ok(value: T) | Err(error: E)

  /** The sum of the first k elements. */
  function SumTo(s: seq<nat>, k: nat): nat
    requires k <= |s|
  {
    if k == 0 then 0 else SumTo(s, k - 1) + s[k - 1]
  }

  function Sum(s: seq<nat>): nat {
    SumTo(s, |s|)
  }

  lemma {:induction false} SumToAgrees(a: seq<nat>, b: seq<nat>, k: nat)
    requires k <= |a| && k <= |b|
    requires forall i :: 0 <= i < k ==> a[i] == b[i]
    ensures SumTo(a, k) == SumTo(b, k)
  {
    if k > 0 { SumToAgrees(a, b, k - 1); }
  }

  lemma SumSnoc(a: seq<nat>, x: nat)
    ensures Sum(a + [x]) == Sum(a) + x
  {
    SumToAgrees(a + [x], a, |a|);
  }

  lemma {:induction false} SumAppend(a: seq<nat>, b: seq<nat>)
    ensures Sum(a + b) == Sum(a) + Sum(b)
  {
    if b == [] {
      assert a + b == a;
    } else {
      var init, x := b[..|b| - 1], b[|b| - 1];
      assert a + b == (a + init) + [x] && b == init + [x];
      SumAppend(a, init);
      SumSnoc(a + init, x);
      SumSnoc(init, x);
    }
  }

  lemma {:induction false} SumToLe(s: seq<nat>, k: nat, n: nat)
    requires k <= n <= |s|
    ensures SumTo(s, k) <= SumTo(s, n)
  {
    if k < n { SumToLe(s, k, n - 1); }
  }

  lemma {:induction false} SumToMonotone(a: seq<nat>, b: seq<nat>, k: nat)
    requires k <= |a| == |b|
    requires forall i :: 0 <= i < |a| ==> a[i] <= b[i]
    ensures SumTo(a, k) <= SumTo(b, k)
  {
    if k > 0 { SumToMonotone(a, b, k - 1); }
  }

  lemma {:induction false} SumToZero(s: seq<nat>, k: nat)
    requires k <= |s|
    requires forall i :: 0 <= i < k ==> s[i] == 0
    ensures SumTo(s, k) == 0
  {
    if k > 0 { SumToZero(s, k - 1); }
  }

  lemma {:induction false} SumToAdd(a: seq<nat>, b: seq<nat>, d: seq<nat>, k: nat)
    requires k <= |a| == |b| == |d|
    requires forall i :: 0 <= i < |a| ==> a[i] == b[i] + d[i]
    ensures SumTo(a, k) == SumTo(b, k) + SumTo(d, k)
  {
    if k > 0 { SumToAdd(a, b, d, k - 1); }
  }

  /** Raising one element raises the sum by as much. */
  lemma {:induction false} SumToBump(a: seq<nat>, b: seq<nat>, at: nat, x: nat, k: nat)
    requires at < |a| == |b| && k <= |a| && b[at] == a[at] + x
    requires forall i :: 0 <= i < |a| && i != at ==> a[i] == b[i]
    ensures SumTo(b, k) == SumTo(a, k) + (if at < k then x else 0)
  {
    if k > 0 { SumToBump(a, b, at, x, k - 1); }
  }

  lemma {:induction false} EachAtMostSum(s: seq<nat>, i: nat, k: nat)
    requires i < k <= |s|
    ensures s[i] <= SumTo(s, k)
  {
    if i < k - 1 { EachAtMostSum(s, i, k - 1); }
  }
}
