/** What a built release does with the money, and that the covenant admits it. */
module ReleaseFacts {
  import opened Prelude
  import opened Money
  import opened Chain
  import opened Covenant

  // ---- what subscribers overpaid ----

  datatype Subscriber = Subscriber(id: SubId, payAmount: nat, refundScript: Script)

  predicate Distinct(subs: seq<Subscriber>) {
    forall i, j :: 0 <= i < j < |subs| ==> subs[i].id != subs[j].id
  }

  /** The part of a payment above the subscription's amount; nothing when no amount was set. */
  function Above(paid: nat, payAmount: nat): nat {
    if payAmount > 0 && paid > payAmount then paid - payAmount else 0
  }

  function Ids(subs: seq<Subscriber>): (r: seq<SubId>)
    ensures |r| == |subs| && forall i :: 0 <= i < |r| ==> r[i] == subs[i].id
  {
    seq(|subs|, i requires 0 <= i < |subs| => subs[i].id)
  }

  function Overpayments(coins: seq<Coin>, subs: seq<Subscriber>): (r: seq<nat>)
    ensures |r| == |subs|
    ensures forall i :: 0 <= i < |r| ==> r[i] == Above(PaidIn(coins, |coins|, subs[i].id), subs[i].payAmount)
  {
    seq(|subs|, i requires 0 <= i < |subs| => Above(PaidIn(coins, |coins|, subs[i].id), subs[i].payAmount))
  }

  /** What each subscription's own price comes to: what was paid, less what is returned. */
  function Prices(coins: seq<Coin>, subs: seq<Subscriber>): (r: seq<nat>)
    ensures |r| == |subs|
    ensures forall i :: 0 <= i < |r| ==>
              r[i] + Overpayments(coins, subs)[i] == PaidIn(coins, |coins|, subs[i].id)
  {
    seq(|subs|, i requires 0 <= i < |subs| =>
      PaidIn(coins, |coins|, subs[i].id) - Overpayments(coins, subs)[i])
  }

  function Lookup(m: map<SubId, nat>, sub: SubId): nat {
    if sub in m then m[sub] else 0
  }

  /** What the program makes of them, adding up in uint64. */
  function Owed(coins: seq<Coin>, subs: seq<Subscriber>): (r: seq<nat>)
    ensures |r| == |subs|
    ensures forall i :: 0 <= i < |r| ==> r[i] == Above(Wrap64(PaidIn(coins, |coins|, subs[i].id)), subs[i].payAmount)
  {
    seq(|subs|, i requires 0 <= i < |subs| => Above(Wrap64(PaidIn(coins, |coins|, subs[i].id)), subs[i].payAmount))
  }

  /** It is what they overpaid as long as the coins' total fits. */
  lemma OwedIsOverpaid(coins: seq<Coin>, subs: seq<Subscriber>)
    requires Sum(Atoms(coins)) < U64
    ensures Owed(coins, subs) == Overpayments(coins, subs)
  {
    forall i | 0 <= i < |subs| ensures Owed(coins, subs)[i] == Overpayments(coins, subs)[i] {
      PaidInAtMost(coins, |coins|, subs[i].id);
    }
  }

  /** Totals the coins of each subscription. */
  method TotalPerSubscription(coins: seq<Coin>) returns (paid: map<SubId, nat>)
    ensures forall sub :: Lookup(paid, sub) == Wrap64(PaidIn(coins, |coins|, sub))
  {
    paid := map[];
    for i := 0 to |coins|
      invariant forall sub :: Lookup(paid, sub) == Wrap64(PaidIn(coins, i, sub))
    {
      var c := coins[i];
      WrapAdd(PaidIn(coins, i, c.sub), c.atoms);
      paid := paid[c.sub := Wrap64(Lookup(paid, c.sub) + c.atoms)];
    }
  }

  /** What is due to one of the first k subscribers: their own total above their price, if one is
      set, to their own script. */
  predicate IsDue(subs: seq<Subscriber>, coins: seq<Coin>, k: nat, e: Excess)
    requires k <= |subs|
  {
    exists i :: 0 <= i < k && DueTo(subs[i], PaidIn(coins, |coins|, subs[i].id) % U64, e)
  }

  predicate DueTo(sub: Subscriber, paid: nat, e: Excess) {
    sub.payAmount > 0 && paid > sub.payAmount && e == Excess(sub.id, sub.refundScript, paid - sub.payAmount)
  }

  /** Lists what each subscriber paid above their subscription, in order. */
  method ExcessOver(subs: seq<Subscriber>, coins: seq<Coin>) returns (excess: seq<Excess>)
    ensures excess == Listed(subs, Owed(coins, subs), |subs|)
    ensures forall e :: e in excess <==> IsDue(subs, coins, |subs|, e)
  {
    var paid := TotalPerSubscription(coins);
    excess := [];
    for i := 0 to |subs|
      invariant excess == Listed(subs, Owed(coins, subs), i)
      invariant forall e :: e in excess <==> IsDue(subs, coins, i, e)
    {
      var sub := subs[i];
      var sum := Lookup(paid, sub.id);
      if sum > sub.payAmount && sub.payAmount > 0 {
        excess := excess + [Excess(sub.id, sub.refundScript, sum - sub.payAmount)];
      }
    }
  }

  /** The positive amounts among the first k, beside the subscriber each is due to. */
  function Listed(subs: seq<Subscriber>, amounts: seq<nat>, k: nat): seq<Excess>
    requires k <= |subs| == |amounts|
  {
    if k == 0 then []
    else Listed(subs, amounts, k - 1)
         + (if amounts[k - 1] == 0 then [] else [Excess(subs[k - 1].id, subs[k - 1].refundScript, amounts[k - 1])])
  }

  lemma {:induction false} ListedTotal(subs: seq<Subscriber>, amounts: seq<nat>, k: nat)
    requires k <= |subs| == |amounts|
    ensures Sum(ExcessAtoms(Listed(subs, amounts, k))) == SumTo(amounts, k)
  {
    if k > 0 {
      ListedTotal(subs, amounts, k - 1);
      var init, all := Listed(subs, amounts, k - 1), Listed(subs, amounts, k);
      if amounts[k - 1] > 0 {
        assert ExcessAtoms(all) == ExcessAtoms(init) + [amounts[k - 1]];
        SumSnoc(ExcessAtoms(init), amounts[k - 1]);
      } else {
        assert all == init;
      }
    }
  }

  lemma {:induction false} ExcessDueAgrees(a: seq<Excess>, b: seq<Excess>, k: nat, sub: SubId)
    requires k <= |a| && k <= |b| && forall i :: 0 <= i < k ==> a[i] == b[i]
    ensures ExcessDue(a, k, sub) == ExcessDue(b, k, sub)
  {
    if k > 0 { ExcessDueAgrees(a, b, k - 1, sub); }
  }

  /** The list owes each subscriber their own amount and nothing else. */
  lemma {:induction false} ListedDue(subs: seq<Subscriber>, amounts: seq<nat>, k: nat, j: nat)
    requires k <= |subs| == |amounts| && j < |subs| && Distinct(subs)
    ensures var l := Listed(subs, amounts, k);
            ExcessDue(l, |l|, subs[j].id) == if j < k then amounts[j] else 0
  {
    if k > 0 {
      ListedDue(subs, amounts, k - 1, j);
      var init, all := Listed(subs, amounts, k - 1), Listed(subs, amounts, k);
      ExcessDueAgrees(all, init, |init|, subs[j].id);
    }
  }

  // ---- the release transaction ----

  lemma {:induction false} ExcessOutsTotal(t: Terms, excess: seq<Excess>, k: nat)
    requires k <= |excess|
    ensures Sum(OutAtoms(ExcessOuts(t, excess, k))) == SumTo(ExcessAtoms(excess), k)
  {
    if k > 0 {
      ExcessOutsTotal(t, excess, k - 1);
      var init, all := OutAtoms(ExcessOuts(t, excess, k - 1)), OutAtoms(ExcessOuts(t, excess, k));
      if excess[k - 1].atoms > 0 {
        assert all == init + [excess[k - 1].atoms];
        SumSnoc(init, excess[k - 1].atoms);
      } else {
        assert ExcessOuts(t, excess, k) == ExcessOuts(t, excess, k - 1);
      }
    }
  }

  lemma ReleaseOutsTotal(t: Terms, coins: seq<Coin>, excess: seq<Excess>, escrowFee: nat, platform: Script,
                         toIssuer: nat, networkFee: nat)
    ensures Sum(OutAtoms(ReleaseTx(t, coins, excess, escrowFee, platform, toIssuer, networkFee).outs))
            == toIssuer + escrowFee + Sum(ExcessAtoms(excess)) + networkFee
  {
    var outs := ReleaseTx(t, coins, excess, escrowFee, platform, toIssuer, networkFee).outs;
    var mid := OutAtoms(ExcessOuts(t, excess, |excess|));
    var front := if escrowFee > 0 then [toIssuer, escrowFee] else [toIssuer];
    assert OutAtoms(outs) == front + mid + [networkFee];
    SumSnoc(front + mid, networkFee);
    SumAppend(front, mid);
    ExcessOutsTotal(t, excess, |excess|);
    SumSnoc([], toIssuer);
    SumSnoc([toIssuer], escrowFee);
    assert [] + [toIssuer] == [toIssuer] && [toIssuer] + [escrowFee] == [toIssuer, escrowFee];
  }

  /** The wrapping subtraction is exact when nothing wrapped before it. */
  lemma RemainderExact(total: nat, back: nat, escrowFee: nat, networkFee: nat)
    requires total < U64 && back + escrowFee + networkFee < U64
    requires Wrap64(Wrap64(back) + escrowFee + networkFee) <= Wrap64(total)
    ensures Minus64(Wrap64(total) - Wrap64(back) - escrowFee - networkFee) == total - back - escrowFee - networkFee
  {
    assert Wrap64(back) == back && Wrap64(total) == total;
  }

  lemma BalanceIff(total: nat, back: nat, escrowFee: nat, networkFee: nat)
    requires total < U64 && back < U64
    requires Wrap64(Wrap64(back) + escrowFee + networkFee) <= Wrap64(total)
    ensures Minus64(Wrap64(total) - Wrap64(back) - escrowFee - networkFee) + escrowFee + back + networkFee == total
            <==> back + escrowFee + networkFee < U64
  {
    if back + escrowFee + networkFee < U64 {
      RemainderExact(total, back, escrowFee, networkFee);
    }
  }

  /** A release that can be built spends exactly its coins if and only if what it
      pays besides the issuer stays below 2^64, where the coverage test is sound. */
  lemma ReleaseConservesIff(t: Terms, coins: seq<Coin>, instances: set<SubId>, excess: seq<Excess>, escrowFee: nat,
                            platform: Script, networkFee: nat)
    requires Releasable(t, coins, instances, excess, escrowFee, platform, networkFee)
    requires Sum(Atoms(coins)) < U64 && Sum(ExcessAtoms(excess)) < U64
    ensures var tx := ReleaseTx(t, coins, excess, escrowFee, platform,
                                ReleaseToIssuer(coins, excess, escrowFee, networkFee), networkFee);
            Sum(OutAtoms(tx.outs)) == Sum(Atoms(coins))
            <==> Sum(ExcessAtoms(excess)) + escrowFee + networkFee < U64
  {
    ReleaseOutsTotal(t, coins, excess, escrowFee, platform,
                     ReleaseToIssuer(coins, excess, escrowFee, networkFee), networkFee);
    BalanceIff(Sum(Atoms(coins)), Sum(ExcessAtoms(excess)), escrowFee, networkFee);
  }

  const ONE_COIN := [Coin(Outpoint(1, 0), 1000, 5, 7)]
  const SMALL_TERMS := Terms(5, 3, 1, 10, 20, 100)
  const HUGE_FEE: nat := U64 - 100

  /** One coin of 1000: an escrow fee just under 2^64 and a network fee of 300 wrap to 200 and pass as
      covered, and the transaction pays out 2^64 more than it takes in. */
  lemma AWrappedFeePassesAsCovered()
    ensures Releasable(SMALL_TERMS, ONE_COIN, {7}, [], HUGE_FEE, 4, 300)
    ensures ReleaseToIssuer(ONE_COIN, [], HUGE_FEE, 300) == 800
    ensures Sum(OutAtoms(ReleaseTx(SMALL_TERMS, ONE_COIN, [], HUGE_FEE, 4, 800, 300).outs)) == 1000 + U64
  {
    assert Atoms(ONE_COIN) == [1000] && Sum([1000]) == 1000 && ExcessAtoms([]) == [] && Sum([]) == 0;
    assert Wrap64(HUGE_FEE + 300) == 200 && Minus64(1000 - HUGE_FEE - 300) == 800;
    ReleaseOutsTotal(SMALL_TERMS, ONE_COIN, [], HUGE_FEE, 4, 800, 300);
  }

  /** A release over some subscriptions' coins pays each subscriber exactly what
      they paid above their amount, and shares out exactly the subscriptions'
      prices between the issuer, who gets at least the minimum, and the two fees. */
  lemma ReleasePaysOut(t: Terms, coins: seq<Coin>, instances: set<SubId>, subs: seq<Subscriber>,
                       escrowFee: nat, platform: Script, networkFee: nat)
    requires Distinct(subs) && OwnedBy(coins, Ids(subs))
    requires var excess := Listed(subs, Overpayments(coins, subs), |subs|);
             && Releasable(t, coins, instances, excess, escrowFee, platform, networkFee)
             && Sum(Atoms(coins)) < U64 && Sum(ExcessAtoms(excess)) + escrowFee + networkFee < U64
    ensures var excess := Listed(subs, Overpayments(coins, subs), |subs|);
            var toIssuer := ReleaseToIssuer(coins, excess, escrowFee, networkFee);
            && toIssuer + escrowFee + networkFee == Sum(Prices(coins, subs))
            && toIssuer >= t.minimum
            && forall i :: 0 <= i < |subs| ==>
                 ExcessDue(excess, |excess|, subs[i].id) == Overpayments(coins, subs)[i]
  {
    var over := Overpayments(coins, subs);
    RemainderExact(Sum(Atoms(coins)), Sum(ExcessAtoms(Listed(subs, over, |subs|))), escrowFee, networkFee);
    PricesMakeCoins(coins, subs);
    forall i | 0 <= i < |subs|
      ensures var excess := Listed(subs, over, |subs|); ExcessDue(excess, |excess|, subs[i].id) == over[i]
    {
      ListedDue(subs, over, |subs|, i);
    }
  }

  lemma PricesMakePayments(coins: seq<Coin>, subs: seq<Subscriber>)
    ensures Sum(Prices(coins, subs)) + Sum(Overpayments(coins, subs)) == Sum(PaidAmounts(coins, |coins|, Ids(subs)))
  {
    SumToAdd(PaidAmounts(coins, |coins|, Ids(subs)), Overpayments(coins, subs), Prices(coins, subs), |subs|);
  }

  lemma PaymentsMakeCoins(coins: seq<Coin>, subs: seq<Subscriber>)
    requires Distinct(subs) && OwnedBy(coins, Ids(subs))
    ensures Sum(PaidAmounts(coins, |coins|, Ids(subs))) == Sum(Atoms(coins))
  {
    CoinsSplit(coins, Ids(subs), |coins|);
  }

  /** Prices and overpayments share out the coins exactly. */
  lemma PricesMakeCoins(coins: seq<Coin>, subs: seq<Subscriber>)
    requires Distinct(subs) && OwnedBy(coins, Ids(subs))
    ensures Sum(Prices(coins, subs)) + Sum(ExcessAtoms(Listed(subs, Overpayments(coins, subs), |subs|)))
            == Sum(Atoms(coins))
  {
    var over := Overpayments(coins, subs);
    assert Sum(Prices(coins, subs)) + Sum(over) == Sum(Atoms(coins)) by {
      PricesMakePayments(coins, subs);
      PaymentsMakeCoins(coins, subs);
    }
    ListedTotal(subs, over, |subs|);
  }

  /** One release satisfies the release leaf of every coin it spends at once, if
      and only if output 0 carries the minimum. */
  lemma ReleaseMeetsEveryLeaf(t: Terms, coins: seq<Coin>, excess: seq<Excess>, escrowFee: nat, platform: Script,
                              toIssuer: nat, networkFee: nat)
    ensures var tx := ReleaseTx(t, coins, excess, escrowFee, platform, toIssuer, networkFee);
            forall k :: 0 <= k < |tx.ins| ==> (ReleaseLeaf(t, tx, k) <==> toIssuer >= t.minimum)
  {
    var tx := ReleaseTx(t, coins, excess, escrowFee, platform, toIssuer, networkFee);
    assert tx.outs[0] == PlainOut(t.payAsset, toIssuer, t.issuerScript);
  }

  /** A release can be mined next exactly when the platform's close test passes. */
  lemma ReleaseMinableIff(t: Terms, coins: seq<Coin>, excess: seq<Excess>, escrowFee: nat, platform: Script,
                          toIssuer: nat, networkFee: nat, tip: nat, mtp: int)
    requires coins != []
    ensures FinalInNextBlock(ReleaseTx(t, coins, excess, escrowFee, platform, toIssuer, networkFee), tip, mtp)
            <==> LockReached(t.closeLock, tip, mtp)
  {
    var tx := ReleaseTx(t, coins, excess, escrowFee, platform, toIssuer, networkFee);
    assert tx.ins[0].sequence == ESCROW_SEQUENCE;
  }
}
