/** The order in which a close delivers, and when it stops. Subscriptions are named by
    their position in the close; tried gives the phase each one's attempt would end in. */
module CloseLoop {
  import opened EscrowProtocol

  /** Whether a release of these subscriptions could be built: fixed while coins, fees and rate are. */
  type Feasible = seq<nat> -> bool

  /** Positions from i to n. */
  function From(i: nat, n: nat): (r: seq<nat>)
    requires i <= n
    ensures |r| == n - i && forall k :: 0 <= k < |r| ==> r[k] == i + k
  {
    seq(n - i, k requires 0 <= k => i + k)
  }

  /** Those among the first i attempts that are delivered and await release. */
  function Awaiting(tried: seq<Phase>, i: nat): seq<nat>
    requires i <= |tried|
  {
    if i == 0 then []
    else Awaiting(tried, i - 1) + (if tried[i - 1] == AwaitingRelease then [i - 1] else [])
  }

  lemma {:induction false} AwaitingIs(tried: seq<Phase>, i: nat)
    requires i <= |tried|
    ensures forall k: nat :: k in Awaiting(tried, i) <==> (k < i && tried[k] == AwaitingRelease)
  {
    if i > 0 { AwaitingIs(tried, i - 1); }
  }

  /** What the check before attempt i asks a release for: the delivered so far and all from i on. */
  function Rest(tried: seq<Phase>, i: nat): seq<nat>
    requires i <= |tried|
  {
    Awaiting(tried, i) + From(i, |tried|)
  }

  predicate FailedBefore(tried: seq<Phase>, i: nat)
    requires i <= |tried|
  {
    exists k :: 0 <= k < i && tried[k] == DeliveryFailed
  }

  /** How many of the first k are attempted before the loop stops. */
  function Attempts(tried: seq<Phase>, feasible: Feasible, k: nat): (n: nat)
    requires k <= |tried|
    ensures n <= k
  {
    if k == 0 then 0
    else
      var before := Attempts(tried, feasible, k - 1);
      if before < k - 1 || (FailedBefore(tried, k - 1) && !feasible(Rest(tried, k - 1))) then before
      else k
  }

  /** The check before attempt i is over those delivered by then and all still to try, each once. */
  lemma RestIs(tried: seq<Phase>, i: nat)
    requires i <= |tried|
    ensures forall k: nat :: k in Rest(tried, i) <==> (k < i && tried[k] == AwaitingRelease) || i <= k < |tried|
    ensures forall a, b :: 0 <= a < b < |Rest(tried, i)| ==> Rest(tried, i)[a] < Rest(tried, i)[b]
  {
    AwaitingIs(tried, i);
    AwaitingInOrder(tried, i);
    assert forall k: nat :: k in From(i, |tried|) <==> i <= k < |tried| by {
      forall k: nat | i <= k < |tried| ensures k in From(i, |tried|) {
        assert From(i, |tried|)[k - i] == k;
      }
    }
  }

  lemma {:induction false} AwaitingInOrder(tried: seq<Phase>, i: nat)
    requires i <= |tried|
    ensures forall a :: 0 <= a < |Awaiting(tried, i)| ==> Awaiting(tried, i)[a] < i
    ensures forall a, b :: 0 <= a < b < |Awaiting(tried, i)| ==> Awaiting(tried, i)[a] < Awaiting(tried, i)[b]
  {
    if i > 0 { AwaitingInOrder(tried, i - 1); }
  }

  /** The loop stops before attempt n if and only if that is the first before which a delivery had
      failed and a release of the rest could not be built; else it goes on to the end. */
  lemma {:induction false} StopsFirst(tried: seq<Phase>, feasible: Feasible, k: nat)
    requires k <= |tried|
    ensures var n := Attempts(tried, feasible, k);
            && (forall i :: 0 <= i < n ==> (forall j :: 0 <= j < i ==> tried[j] != DeliveryFailed) || feasible(Rest(tried, i)))
            && (n < k ==> (exists j :: 0 <= j < n && tried[j] == DeliveryFailed) && !feasible(Rest(tried, n)))
  {
    hide Rest;
    if k > 0 { StopsFirst(tried, feasible, k - 1); }
  }

  /** Every attempt is made only when a release over the delivered so far and all still to
      try could be built. */
  ghost predicate Guarded(tried: seq<Phase>, feasible: Feasible) {
    forall i :: 0 <= i < Attempts(tried, feasible, |tried|) ==> feasible(Rest(tried, i))
  }

  /** An interrupted delivery that stays so is neither delivered nor still to try, and before
      the first failure nothing is checked again. */
  predicate Unaccounted(tried: seq<Phase>, i: nat)
    requires i <= |tried|
  {
    !FailedBefore(tried, i) && exists k :: 0 <= k < i && tried[k] != AwaitingRelease
  }

  lemma {:induction false} AttemptsPrefix(tried: seq<Phase>, feasible: Feasible, k: nat)
    requires k <= |tried|
    ensures forall i :: 0 <= i < Attempts(tried, feasible, k) ==> !FailedBefore(tried, i) || feasible(Rest(tried, i))
  {
    if k > 0 { AttemptsPrefix(tried, feasible, k - 1); }
  }

  lemma FromSplits(i: nat, n: nat)
    requires i < n
    ensures From(i, n) == [i] + From(i + 1, n)
    ensures From(i, n) == From(i, n - 1) + [n - 1]
  {
  }

  /** While everything tried so far is delivered, the rest is everything. */
  lemma {:induction false} AllAwaiting(tried: seq<Phase>, i: nat)
    requires i <= |tried| && forall k :: 0 <= k < i ==> tried[k] == AwaitingRelease
    ensures Rest(tried, i) == From(0, |tried|)
  {
    if i > 0 {
      AllAwaiting(tried, i - 1);
      FromSplits(i - 1, |tried|);
      Regroup(Awaiting(tried, i - 1), i - 1, From(i, |tried|));
    } else {
      assert [] + From(0, |tried|) == From(0, |tried|);
    }
  }

  lemma Regroup(a: seq<nat>, x: nat, b: seq<nat>)
    ensures a + ([x] + b) == (a + [x]) + b
  {
  }

  lemma AccountedIsGuarded(tried: seq<Phase>, feasible: Feasible)
    requires feasible(From(0, |tried|)) && forall i :: 0 <= i < |tried| ==> !Unaccounted(tried, i)
    ensures Guarded(tried, feasible)
  {
    AttemptsPrefix(tried, feasible, |tried|);
    forall i | 0 <= i < Attempts(tried, feasible, |tried|) ensures feasible(Rest(tried, i)) {
      if !FailedBefore(tried, i) {
        assert !Unaccounted(tried, i);
        AllAwaiting(tried, i);
      }
    }
  }

  lemma {:induction false} NoFailureNoStop(tried: seq<Phase>, feasible: Feasible, k: nat)
    requires k <= |tried| && (k > 0 ==> !FailedBefore(tried, k - 1))
    ensures Attempts(tried, feasible, k) == k
  {
    if k > 0 {
      NoFailureNoStop(tried, feasible, k - 1);
    }
  }

  lemma {:induction false} AttemptsGrow(tried: seq<Phase>, feasible: Feasible, k: nat, n: nat)
    requires k <= n <= |tried|
    ensures Attempts(tried, feasible, k) <= Attempts(tried, feasible, n)
  {
    if k < n { AttemptsGrow(tried, feasible, k, n - 1); }
  }

  /** Nothing is checked before such an attempt, so it is made even when the check would fail. */
  lemma UnaccountedIsUnguarded(tried: seq<Phase>, feasible: Feasible, i: nat)
    requires i < |tried| && Unaccounted(tried, i) && !feasible(Rest(tried, i))
    ensures !Guarded(tried, feasible)
  {
    NoFailureNoStop(tried, feasible, i + 1);
    AttemptsGrow(tried, feasible, i + 1, |tried|);
  }

  lemma LeftOutOfRest(tried: seq<Phase>, i: nat, k: nat)
    requires k < i <= |tried| && tried[k] != AwaitingRelease
    ensures k !in Rest(tried, i)
  {
    AwaitingIs(tried, i);
  }

  /** If the loop runs to the end and nothing fails or stays interrupted from its last check
      on, the release over everything delivered is the one that was checked. */
  lemma FinalReleaseExists(tried: seq<Phase>, feasible: Feasible, checked: nat)
    requires checked <= |tried| && feasible(Rest(tried, checked))
    requires forall k :: checked <= k < |tried| ==> tried[k] == AwaitingRelease
    ensures feasible(Awaiting(tried, |tried|))
  {
    TailAwaits(tried, checked, |tried|);
  }

  lemma {:induction false} TailAwaits(tried: seq<Phase>, checked: nat, n: nat)
    requires checked <= n <= |tried| && forall k :: checked <= k < n ==> tried[k] == AwaitingRelease
    ensures Awaiting(tried, n) == Awaiting(tried, checked) + From(checked, n)
  {
    if checked == n {
      assert From(checked, n) == [];
    } else {
      TailAwaits(tried, checked, n - 1);
      FromSplits(checked, n);
      AwaitingOne(tried, n - 1);
      Append(Awaiting(tried, checked), From(checked, n - 1), n - 1);
    }
  }

  lemma AwaitingOne(tried: seq<Phase>, i: nat)
    requires i < |tried| && tried[i] == AwaitingRelease
    ensures Awaiting(tried, i + 1) == Awaiting(tried, i) + [i]
  {
  }

  lemma Append(a: seq<nat>, b: seq<nat>, x: nat)
    ensures (a + b) + [x] == a + (b + [x])
  {
  }
}
