/** Cancels and refunds: every coin back to its subscriber, the network fee spread over the coins. */
module ReturnSpend {
  import opened Prelude
  import opened Money
  import opened Chain
  import opened Covenant

  type Refunds = map<SubId, Script>

  function RefundScript(refunds: Refunds, sub: SubId): Script {
    if sub in refunds then refunds[sub] else NO_SCRIPT
  }

  /** Coin i's share of a fee spread over n coins, the remainder on the first ones. */
  function Keep(fee: nat, n: nat, i: nat): nat
    requires n > 0
  {
    fee / n + (if i < fee % n then 1 else 0)
  }

  function Keeps(fee: nat, n: nat, upto: nat): (r: seq<nat>)
    requires n > 0
    ensures |r| == upto
    ensures forall i :: 0 <= i < upto ==> r[i] == Keep(fee, n, i)
  {
    seq(upto, i requires 0 <= i => Keep(fee, n, i))
  }

  function ReturnLock(kind: Kind, t: Terms): nat {
    if kind == Refund then t.deadlineLock else 0
  }

  function ReturnSequence(kind: Kind): nat {
    if kind == Refund then ESCROW_SEQUENCE else FINAL_SEQUENCE
  }

  /** Output k pays coin k's subscriber; the last output is the fee. keep is what each coin gives up. */
  function ReturnTx(kind: Kind, t: Terms, coins: seq<Coin>, refunds: Refunds, kept: seq<nat>, networkFee: nat): Tx
    requires |kept| == |coins|
    requires forall i :: 0 <= i < |coins| ==> kept[i] <= coins[i].atoms
  {
    Tx(ReturnLock(kind, t), Inputs(coins, ReturnSequence(kind)),
       seq(|coins|, i requires 0 <= i < |coins| =>
         PlainOut(coins[i].asset, coins[i].atoms - kept[i], RefundScript(refunds, coins[i].sub)))
       + [PlainOut(t.payAsset, networkFee, NO_SCRIPT)])
  }

  function Nothing(n: nat): (r: seq<nat>)
    ensures |r| == n && forall i :: 0 <= i < n ==> r[i] == 0
  {
    seq(n, i => 0)
  }

  function ReturnFee(kind: Kind, t: Terms, coins: seq<Coin>, refunds: Refunds, rate: nat, size: Sizer): nat {
    FeeForVsize(size(ReturnTx(kind, t, coins, refunds, Nothing(|coins|), 0)), rate)
  }

  /** A built return as its network fee is measured: every coin in full, and nothing for the network. */
  function ReturnMeasured(tx: Tx, coins: seq<Coin>): Tx
    requires |tx.outs| == |coins| + 1
  {
    tx.(outs := seq(|coins|, i requires 0 <= i < |coins| => tx.outs[i].(value := Explicit(coins[i].atoms)))
                + [tx.outs[|coins|].(value := Explicit(0))])
  }

  /** The network fee is the price of the very transaction built, before the fee is taken out of it. */
  lemma ReturnFeeIs(kind: Kind, t: Terms, coins: seq<Coin>, refunds: Refunds, rate: nat, size: Sizer, kept: seq<nat>,
                    networkFee: nat)
    requires |kept| == |coins| && forall i :: 0 <= i < |coins| ==> kept[i] <= coins[i].atoms
    ensures PricedFor(ReturnFee(kind, t, coins, refunds, rate, size),
                      size(ReturnMeasured(ReturnTx(kind, t, coins, refunds, kept, networkFee), coins)), rate)
  {
    var open := ReturnTx(kind, t, coins, refunds, Nothing(|coins|), 0);
    assert ReturnMeasured(ReturnTx(kind, t, coins, refunds, kept, networkFee), coins).outs == open.outs;
    var vsize := size(open);
    if vsize * rate + 999 < U64 { FeeRoundsUp(vsize, rate); }
  }

  predicate WellFormed(t: Terms, coins: seq<Coin>, instances: set<SubId>, refunds: Refunds) {
    WellFormedCoins(t, coins, instances)
    && forall i :: 0 <= i < |coins| ==> RefundScript(refunds, coins[i].sub) != NO_SCRIPT
  }

  /** Every share is within the covenant's cap and smaller than its coin. */
  predicate SharesFit(t: Terms, coins: seq<Coin>, fee: nat) {
    coins != [] ==>
      forall i :: 0 <= i < |coins| ==> Keep(fee, |coins|, i) <= t.feeCap && Keep(fee, |coins|, i) < coins[i].atoms
  }

  predicate Returnable(kind: Kind, t: Terms, coins: seq<Coin>, instances: set<SubId>, refunds: Refunds, fee: nat) {
    && kind != Release
    && coins != []
    && WellFormed(t, coins, instances, refunds)
    && SharesFit(t, coins, fee)
  }

  /** The first coin the builder refuses to return, and why. */
  predicate FirstUnreturnable(t: Terms, coins: seq<Coin>, instances: set<SubId>, refunds: Refunds, i: nat, why: BuildError) {
    && i < |coins|
    && (forall k :: 0 <= k < i ==>
          coins[k].asset == t.payAsset && coins[k].sub in instances && RefundScript(refunds, coins[k].sub) != NO_SCRIPT)
    && (if coins[i].asset != t.payAsset then why == WrongAsset
        else if coins[i].sub !in instances then why == NoInstance
        else RefundScript(refunds, coins[i].sub) == NO_SCRIPT && why == NoRefundScript)
  }

  /** The first share that does not fit, and why. */
  predicate FirstUnfit(t: Terms, coins: seq<Coin>, fee: nat, i: nat, why: BuildError) {
    && i < |coins|
    && (forall k :: 0 <= k < i ==> Keep(fee, |coins|, k) <= t.feeCap && Keep(fee, |coins|, k) < coins[k].atoms)
    && (if Keep(fee, |coins|, i) > t.feeCap then why == ShareAboveCap
        else Keep(fee, |coins|, i) >= coins[i].atoms && why == CoinTooSmall)
  }

  /** Why a return is refused: of what is wrong, the first the builder comes to. */
  predicate ReturnRefused(kind: Kind, t: Terms, coins: seq<Coin>, instances: set<SubId>, refunds: Refunds, fee: nat,
                          why: BuildError) {
    if kind == Release then why == UnknownKind
    else if coins == [] then why == NoCoins
    else
      || (exists i :: 0 <= i < |coins| && FirstUnreturnable(t, coins, instances, refunds, i, why))
      || (WellFormed(t, coins, instances, refunds) && exists i :: 0 <= i < |coins| && FirstUnfit(t, coins, fee, i, why))
  }

  method BuildReturn(kind: Kind, t: Terms, coins: seq<Coin>, instances: set<SubId>, refunds: Refunds,
                     rate: nat, size: Sizer)
    returns (r: Result<Build, BuildError>)
    ensures r.Ok? <==>
            Returnable(kind, t, coins, instances, refunds, ReturnFee(kind, t, coins, refunds, rate, size))
    ensures r.Ok? ==>
              var b := r.value;
              && b.networkFee == ReturnFee(kind, t, coins, refunds, rate, size)
              && b.toIssuer == 0 && b.escrowFee == 0
              && b.tx == ReturnTx(kind, t, coins, refunds, Keeps(b.networkFee, |coins|, |coins|), b.networkFee)
              && Describes(b.outputs, b.tx)
              && (forall k :: 0 <= k < |coins| ==> b.outputs[k].payee == ToSubscriber(coins[k].sub))
              && b.outputs[|coins|].payee == NetworkFee
              && PricedFor(b.networkFee, size(ReturnMeasured(b.tx, coins)), rate)
    ensures r.Err? ==>
              ReturnRefused(kind, t, coins, instances, refunds, ReturnFee(kind, t, coins, refunds, rate, size), r.error)
  {
    if kind == Release {
      return Err(UnknownKind);
    }
    if coins == [] {
      return Err(NoCoins);
    }
    var outs, bad := PlaceReturns(t, coins, instances, refunds);
    if bad.Some? {
      return Err(bad.value);
    }
    var tx := Tx(ReturnLock(kind, t), Inputs(coins, ReturnSequence(kind)), outs);
    assert tx == ReturnTx(kind, t, coins, refunds, Nothing(|coins|), 0);
    var fee := FeeForVsize(size(tx), rate);
    var finalOuts, described, unfit := SpreadFee(t, coins, refunds, fee);
    if unfit.Some? {
      return Err(unfit.value);
    }
    tx := tx.(outs := finalOuts);
    ReturnFeeIs(kind, t, coins, refunds, rate, size, Keeps(fee, |coins|, |coins|), fee);
    assert tx == ReturnTx(kind, t, coins, refunds, Keeps(fee, |coins|, |coins|), fee);
    return Ok(Build(tx, described, fee, 0, 0));
  }

  /** One output per coin at its full amount, and the fee output at zero, to measure by. */
  method PlaceReturns(t: Terms, coins: seq<Coin>, instances: set<SubId>, refunds: Refunds)
    returns (outs: seq<TxOut>, bad: Option<BuildError>)
    ensures bad == None <==> WellFormed(t, coins, instances, refunds)
    ensures bad.Some? ==> exists i :: 0 <= i < |coins| && FirstUnreturnable(t, coins, instances, refunds, i, bad.value)
    ensures bad == None ==>
              && |outs| == |coins| + 1
              && outs[|coins|] == PlainOut(t.payAsset, 0, NO_SCRIPT)
              && forall k :: 0 <= k < |coins| ==>
                   outs[k] == PlainOut(coins[k].asset, coins[k].atoms, RefundScript(refunds, coins[k].sub))
  {
    outs, bad := [], None;
    for i := 0 to |coins|
      invariant bad == None && WellFormed(t, coins[..i], instances, refunds)
      invariant |outs| == i
      invariant forall k :: 0 <= k < i ==>
                  outs[k] == PlainOut(coins[k].asset, coins[k].atoms, RefundScript(refunds, coins[k].sub))
    {
      var c := coins[i];
      assert forall k :: 0 <= k < i ==> coins[..i][k] == coins[k];
      if c.asset != t.payAsset {
        assert FirstUnreturnable(t, coins, instances, refunds, i, WrongAsset);
        return outs, Some(WrongAsset);
      }
      if c.sub !in instances {
        assert FirstUnreturnable(t, coins, instances, refunds, i, NoInstance);
        return outs, Some(NoInstance);
      }
      if RefundScript(refunds, c.sub) == NO_SCRIPT {
        assert FirstUnreturnable(t, coins, instances, refunds, i, NoRefundScript);
        return outs, Some(NoRefundScript);
      }
      outs := outs + [PlainOut(c.asset, c.atoms, RefundScript(refunds, c.sub))];
    }
    assert coins[..|coins|] == coins;
    outs := outs + [PlainOut(t.payAsset, 0, NO_SCRIPT)];
  }

  /** Takes each coin's share of the fee, refusing a share over the cap or not below its coin. */
  method SpreadFee(t: Terms, coins: seq<Coin>, refunds: Refunds, fee: nat)
    returns (outs: seq<TxOut>, described: seq<Described>, unfit: Option<BuildError>)
    requires coins != []
    ensures unfit.Some? <==> !SharesFit(t, coins, fee)
    ensures unfit.Some? ==> exists i :: 0 <= i < |coins| && FirstUnfit(t, coins, fee, i, unfit.value)
    ensures unfit == None ==>
              && |outs| == |described| == |coins| + 1
              && outs[|coins|] == PlainOut(t.payAsset, fee, NO_SCRIPT)
              && described[|coins|] == Described(|coins|, NetworkFee, fee, NO_SCRIPT)
              && forall k :: 0 <= k < |coins| ==>
                   && Keep(fee, |coins|, k) <= coins[k].atoms
                   && outs[k] == PlainOut(coins[k].asset, coins[k].atoms - Keep(fee, |coins|, k),
                                          RefundScript(refunds, coins[k].sub))
                   && described[k] == Described(k, ToSubscriber(coins[k].sub),
                                                coins[k].atoms - Keep(fee, |coins|, k),
                                                RefundScript(refunds, coins[k].sub))
  {
    var n := |coins|;
    var share, rem := fee / n, fee % n;
    outs, described, unfit := [], [], None;
    for i := 0 to n
      invariant unfit == None && |outs| == |described| == i
      invariant forall k :: 0 <= k < i ==>
                  && Keep(fee, n, k) <= t.feeCap && Keep(fee, n, k) < coins[k].atoms
                  && outs[k] == PlainOut(coins[k].asset, coins[k].atoms - Keep(fee, n, k),
                                         RefundScript(refunds, coins[k].sub))
                  && described[k] == Described(k, ToSubscriber(coins[k].sub), coins[k].atoms - Keep(fee, n, k),
                                               RefundScript(refunds, coins[k].sub))
    {
      var c := coins[i];
      var keep := if i < rem then share + 1 else share;
      assert keep == Keep(fee, n, i);
      if keep > t.feeCap {
        assert FirstUnfit(t, coins, fee, i, ShareAboveCap);
        return outs, described, Some(ShareAboveCap);
      }
      if keep >= c.atoms {
        assert FirstUnfit(t, coins, fee, i, CoinTooSmall);
        return outs, described, Some(CoinTooSmall);
      }
      outs := outs + [PlainOut(c.asset, c.atoms - keep, RefundScript(refunds, c.sub))];
      described := described + [Described(i, ToSubscriber(c.sub), c.atoms - keep, RefundScript(refunds, c.sub))];
    }
    outs := outs + [PlainOut(t.payAsset, fee, NO_SCRIPT)];
    described := described + [Described(n, NetworkFee, fee, NO_SCRIPT)];
  }

  // ---- what a return does with the money ----

  lemma {:induction false} KeepsTotal(fee: nat, n: nat, k: nat)
    requires n > 0 && k <= n
    ensures SumTo(Keeps(fee, n, n), k) == k * (fee / n) + (if k < fee % n then k else fee % n)
  {
    if k > 0 {
      KeepsTotal(fee, n, k - 1);
      assert k * (fee / n) == (k - 1) * (fee / n) + fee / n;
    }
  }

  /** The shares add up to the fee exactly, and no two differ by more than one. */
  lemma SharesMakeTheFee(fee: nat, n: nat)
    requires n > 0
    ensures Sum(Keeps(fee, n, n)) == fee
    ensures forall i, j :: 0 <= i < n && 0 <= j < n ==> Keep(fee, n, i) <= Keep(fee, n, j) + 1
  {
    KeepsTotal(fee, n, n);
  }

  /** A share breaks the cap only when no split of the fee over these coins could keep to it. */
  lemma CapIsHopelessIff(fee: nat, n: nat, cap: nat)
    requires n > 0
    ensures (exists i :: 0 <= i < n && Keep(fee, n, i) > cap) <==> fee > cap * n
  {
    var q := Quotient(fee, n);
    var r := fee % n;
    assert fee == q * n + r by { assert fee == (fee / n) * n + fee % n; }
    if fee > cap * n {
      RemainderBreaksCap(q, r, n, cap);
      assert Keep(fee, n, 0) > cap;
    } else {
      ShareWithinCap(q, r, n, cap);
    }
  }

  lemma RemainderBreaksCap(q: nat, r: nat, n: nat, cap: nat)
    requires n > 0 && q * n + r > cap * n && r < n
    ensures q + (if 0 < r then 1 else 0) > cap
  {
    assert (q + 1) * n == q * n + n;
    MulCancel(cap, q + 1, n);
    MulCancel(cap, q, n);
  }

  lemma ShareWithinCap(q: nat, r: nat, n: nat, cap: nat)
    requires n > 0 && q * n + r <= cap * n
    ensures q <= cap
    ensures q == cap ==> r == 0
  {
    MulCancel(q, cap, n);
  }

  lemma ReturnConserves(kind: Kind, t: Terms, coins: seq<Coin>, refunds: Refunds, fee: nat)
    requires coins != [] && SharesFit(t, coins, fee)
    ensures var tx := ReturnTx(kind, t, coins, refunds, Keeps(fee, |coins|, |coins|), fee);
            && Sum(OutAtoms(tx.outs)) == Sum(Atoms(coins))
            && forall k :: 0 <= k < |coins| ==>
                 && tx.ins[k].prevout == coins[k].outpoint
                 && tx.outs[k].script == RefundScript(refunds, coins[k].sub)
                 && 0 < tx.outs[k].value.atoms <= coins[k].atoms <= tx.outs[k].value.atoms + t.feeCap
  {
    var kept := Keeps(fee, |coins|, |coins|);
    var tx := ReturnTx(kind, t, coins, refunds, kept, fee);
    var outs := OutAtoms(tx.outs)[..|coins|];
    assert OutAtoms(tx.outs) == outs + [fee];
    SumSnoc(outs, fee);
    SumToAdd(Atoms(coins), outs, kept, |coins|);
    SharesMakeTheFee(fee, |coins|);
  }

  /** Each coin's cancel leaf admits a built cancel, and its refund leaf a built
      refund, exactly when the leaf's 64-bit addition does not overflow. */
  lemma ReturnMeetsLeafIff(kind: Kind, t: Terms, coins: seq<Coin>, refunds: Refunds, fee: nat, k: nat)
    requires kind != Release && coins != [] && SharesFit(t, coins, fee) && k < |coins|
    ensures var tx := ReturnTx(kind, t, coins, refunds, Keeps(fee, |coins|, |coins|), fee);
            var script := RefundScript(refunds, coins[k].sub);
            (if kind == Cancel then CancelLeaf(t, coins[k], script, tx, k)
             else RefundLeaf(t, coins[k], script, tx, k))
            <==> coins[k].atoms - Keep(fee, |coins|, k) + t.feeCap < I64_LIMIT
  {
    var tx := ReturnTx(kind, t, coins, refunds, Keeps(fee, |coins|, |coins|), fee);
    assert tx.outs[k] == PlainOut(coins[k].asset, coins[k].atoms - Keep(fee, |coins|, k),
                                  RefundScript(refunds, coins[k].sub));
  }

  /** A cancel can be mined at any time; a refund exactly once the deadline test passes. */
  lemma ReturnMinableIff(kind: Kind, t: Terms, coins: seq<Coin>, refunds: Refunds, fee: nat, tip: nat, mtp: int)
    requires kind != Release && coins != [] && SharesFit(t, coins, fee)
    ensures var tx := ReturnTx(kind, t, coins, refunds, Keeps(fee, |coins|, |coins|), fee);
            FinalInNextBlock(tx, tip, mtp) <==> kind == Cancel || LockReached(t.deadlineLock, tip, mtp)
  {
    var tx := ReturnTx(kind, t, coins, refunds, Keeps(fee, |coins|, |coins|), fee);
    assert tx.ins[0].sequence == ReturnSequence(kind);
  }
}
