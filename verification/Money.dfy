/** Money figures are unsigned 64-bit integers; where the program wraps, so does the model. */
module Money {
  import opened Prelude

  const U64: nat := 0x1_0000_0000_0000_0000
  const I64_LIMIT: nat := 0x8000_0000_0000_0000
  const U32: nat := 0x1_0000_0000

  /** uint64 arithmetic keeps the low 64 bits. */
  function Wrap64(x: nat): nat {
    x % U64
  }

  lemma WrapAdd(a: nat, b: nat)
    ensures Wrap64(Wrap64(a) + b) == Wrap64(a + b)
  {
  }

  /** uint64 subtraction wraps below zero. */
  function Minus64(x: int): nat {
    x % U64
  }

  /** floor(a*b/c) in exact integers; 0 for a zero divisor and for a quotient no uint64 holds. */
  function MulDiv(a: nat, b: nat, c: nat): nat {
    if c == 0 then 0
    else if a * b / c >= U64 then 0
    else a * b / c
  }

  // ---- integer facts ----

  lemma MulLe(a: nat, b: nat, c: nat)
    requires b <= c
    ensures a * b <= a * c && b * a <= c * a
  {
    assert a * (c - b) == a * c - a * b;
  }

  lemma MulLt(a: nat, b: nat, c: nat)
    requires a < b && c > 0
    ensures a * c < b * c
  {
    MulLe(c, 1, b - a);
    assert (b - a) * c == b * c - a * c;
  }

  /** A positive factor cancels out of an inequality. */
  lemma MulCancel(a: nat, b: nat, c: nat)
    requires c > 0
    ensures a * c <= b * c ==> a <= b
    ensures a * c < b * c ==> a < b
  {
    if a > b {
      MulLt(b, a, c);
    }
  }

  /** The quotient as a number of its own, so that no proof mixes division and products. */
  lemma Quotient(x: nat, c: nat) returns (q: nat)
    requires c > 0
    ensures q == x / c
    ensures q * c <= x < (q + 1) * c
  {
    q := x / c;
    assert (q + 1) * c == q * c + c;
  }

  lemma DivLe(x: nat, y: nat, c: nat)
    requires c > 0 && x <= y
    ensures x / c <= y / c
  {
    var p := Quotient(x, c);
    var q := Quotient(y, c);
    MulCancel(p, q + 1, c);
  }

  /** A share b of a whole c of a uint64 amount a always fits, and is floor(a*b/c). */
  lemma Share(a: nat, b: nat, c: nat) returns (q: nat)
    requires a < U64 && b <= c && c > 0
    ensures q == MulDiv(a, b, c) == a * b / c
    ensures q <= a
    ensures q * c <= a * b < (q + 1) * c
  {
    q := Quotient(a * b, c);
    MulLe(a, b, c);
    MulCancel(q, a, c);
  }

  /** Growing a factor never shrinks the quotient, as long as the larger one fits. */
  lemma MulDivMonotone(a: nat, b: nat, b': nat, c: nat)
    requires c > 0 && b <= b' && a * b' / c < U64
    ensures MulDiv(a, b, c) <= MulDiv(a, b', c)
  {
    MulLe(a, b, b');
    DivLe(a * b, a * b', c);
  }

  // ---- apportioning a total over weights ----

  /** Floor shares of total, one per weight, out of whole. */
  function Shares(total: nat, weights: seq<nat>, whole: nat): (r: seq<nat>)
    ensures |r| == |weights|
    ensures forall i :: 0 <= i < |r| ==> r[i] == MulDiv(total, weights[i], whole)
  {
    seq(|weights|, i requires 0 <= i < |weights| => MulDiv(total, weights[i], whole))
  }

  /** Floor shares use no more than their weights are worth and lose less than one unit each. */
  lemma {:induction false} SharesBound(total: nat, weights: seq<nat>, whole: nat, k: nat)
    requires total < U64 && whole > 0 && k <= |weights|
    requires forall i :: 0 <= i < |weights| ==> weights[i] <= whole
    ensures SumTo(Shares(total, weights, whole), k) * whole <= total * SumTo(weights, k)
    ensures total * SumTo(weights, k) <= (SumTo(Shares(total, weights, whole), k) + k) * whole
    ensures k > 0 ==> total * SumTo(weights, k) < (SumTo(Shares(total, weights, whole), k) + k) * whole
  {
    if k > 0 {
      var s := Shares(total, weights, whole);
      SharesBound(total, weights, whole, k - 1);
      var q := Share(total, weights[k - 1], whole);
      assert q == s[k - 1];
      Distribute(SumTo(s, k - 1), q, whole);
      Distribute(SumTo(weights, k - 1), weights[k - 1], total);
      Distribute(SumTo(s, k - 1) + (k - 1), q + 1, whole);
    }
  }

  lemma Distribute(a: nat, b: nat, c: nat)
    ensures (a + b) * c == a * c + b * c == c * (a + b)
    ensures c * a == a * c && c * b == b * c
  {
  }

  /** When the weights make up the whole, the shares never overspend the total
      and the dust is smaller than the number of shares. */
  lemma SharesConserve(total: nat, weights: seq<nat>, whole: nat)
    requires total < U64 && whole > 0 && whole == Sum(weights)
    ensures weights != []
    ensures Sum(Shares(total, weights, whole)) <= total
    ensures total < Sum(Shares(total, weights, whole)) + |weights|
  {
    forall i | 0 <= i < |weights| ensures weights[i] <= whole {
      EachAtMostSum(weights, i, |weights|);
    }
    SharesBound(total, weights, whole, |weights|);
    MulCancel(Sum(Shares(total, weights, whole)), total, whole);
    MulCancel(total, Sum(Shares(total, weights, whole)) + |weights|, whole);
  }
}
