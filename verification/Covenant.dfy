/** Building the transactions that spend the subscription escrow covenant. */
module Covenant {
  import opened Prelude
  import opened Money
  import opened Chain

  // ---- data ----

  datatype Terms = Terms(
    payAsset: Asset, issuerScript: Script, minimum: nat, closeLock: nat, deadlineLock: nat, feeCap: nat)

  /** One coin at a subscription's escrow address. */
  datatype Coin = Coin(outpoint: Outpoint, atoms: nat, asset: Asset, sub: SubId)

  datatype Kind = Release | Cancel | Refund

  datatype Excess = Excess(sub: SubId, refundScript: Script, atoms: nat)

  datatype Payee = ToIssuer | ToPlatform | ToSubscriber(sub: SubId) | NetworkFee

  /** What an output pays, beside the output itself. */
  datatype Described = Described(n: nat, payee: Payee, atoms: nat, script: Script)

  datatype Build = Build(tx: Tx, outputs: seq<Described>, networkFee: nat, toIssuer: nat, escrowFee: nat)

  datatype BuildError =
    | UnknownKind
    | NoCoins
    | WrongAsset
    | NoInstance
    | NoPlatformScript
    | NoRefundScript
    | FeesNotCovered
    | BelowMinimum
    | ShareAboveCap
    | CoinTooSmall

  /** The virtual size of a transaction once its witnesses are in place. */
  type Sizer = Tx -> nat

  function Atoms(coins: seq<Coin>): (r: seq<nat>)
    ensures |r| == |coins|
    ensures forall i :: 0 <= i < |r| ==> r[i] == coins[i].atoms
  {
    seq(|coins|, i requires 0 <= i < |coins| => coins[i].atoms)
  }

  function Subs(coins: seq<Coin>): set<SubId> {
    set k | 0 <= k < |coins| :: coins[k].sub
  }

  function ExcessAtoms(excess: seq<Excess>): (r: seq<nat>)
    ensures |r| == |excess|
    ensures forall i :: 0 <= i < |r| ==> r[i] == excess[i].atoms
  {
    seq(|excess|, i requires 0 <= i < |excess| => excess[i].atoms)
  }

  /** vsize * rate / 1000 rounded up, at least one atom, in wrapping uint64. */
  function FeeForVsize(vsize: nat, rate: nat): (fee: nat)
    ensures 1 <= fee < U64
  {
    var f := Wrap64(vsize * rate + 999) / 1000;
    if f == 0 then 1 else f
  }

  /** It is the price of the size in thousandths, rounded up, and at least one atom, as long as
      the product fits. */
  lemma FeeRoundsUp(vsize: nat, rate: nat)
    requires vsize * rate + 999 < U64
    ensures var fee := FeeForVsize(vsize, rate);
            vsize * rate <= fee * 1000 && (fee > 1 ==> (fee - 1) * 1000 < vsize * rate)
  {
    var x := vsize * rate;
    assert Wrap64(x + 999) == x + 999;
  }

  /** What a transaction of this size costs, as long as the product fits. */
  predicate PricedFor(fee: nat, vsize: nat, rate: nat) {
    fee >= 1 && (vsize * rate + 999 < U64 ==> vsize * rate <= fee * 1000 && (fee > 1 ==> (fee - 1) * 1000 < vsize * rate))
  }

  // ---- the covenant's three leaves, as predicates on the spending transaction ----

  /** Explicit, no nonce. */
  predicate PlainPayment(o: TxOut, asset: Asset, script: Script) {
    o.asset == asset && o.value.Explicit? && o.nonce == NULL_NONCE && o.script == script
  }

  /** Output 0 pays the issuer the minimum, once CLOSE has passed. */
  predicate ReleaseLeaf(t: Terms, tx: Tx, k: nat)
    requires k < |tx.ins|
  {
    && CheckLockTime(t.closeLock, tx, k)
    && |tx.outs| > 0
    && PlainPayment(tx.outs[0], t.payAsset, t.issuerScript)
    && tx.outs[0].value.atoms >= t.minimum
  }

  /** Output k returns coin k to its subscriber, less at most FEE_CAP. The sum is
      the interpreter's 64-bit signed addition, which fails on overflow. */
  predicate ReturnLeaf(t: Terms, coin: Coin, refundScript: Script, tx: Tx, k: nat)
    requires k < |tx.ins|
  {
    && k < |tx.outs|
    && PlainPayment(tx.outs[k], coin.asset, refundScript)
    && tx.outs[k].value.atoms + t.feeCap < I64_LIMIT
    && tx.outs[k].value.atoms + t.feeCap >= coin.atoms
  }

  predicate CancelLeaf(t: Terms, coin: Coin, refundScript: Script, tx: Tx, k: nat)
    requires k < |tx.ins|
  {
    ReturnLeaf(t, coin, refundScript, tx, k)
  }

  predicate RefundLeaf(t: Terms, coin: Coin, refundScript: Script, tx: Tx, k: nat)
    requires k < |tx.ins|
  {
    CheckLockTime(t.deadlineLock, tx, k) && ReturnLeaf(t, coin, refundScript, tx, k)
  }

  /** Each described output is the transaction's output of that number. */
  predicate Describes(outputs: seq<Described>, tx: Tx) {
    && |outputs| == |tx.outs|
    && forall i :: 0 <= i < |outputs| ==>
         && outputs[i].n == i
         && tx.outs[i].value == Explicit(outputs[i].atoms)
         && tx.outs[i].script == outputs[i].script
  }

  /** What the first k described outputs pay one subscriber. */
  function PaidTo(outputs: seq<Described>, k: nat, sub: SubId): nat
    requires k <= |outputs|
  {
    if k == 0 then 0
    else PaidTo(outputs, k - 1, sub)
         + (if outputs[k - 1].payee == ToSubscriber(sub) then outputs[k - 1].atoms else 0)
  }

  lemma {:induction false} PaidToAgrees(a: seq<Described>, b: seq<Described>, k: nat, sub: SubId)
    requires k <= |a| && k <= |b|
    requires forall i :: 0 <= i < k ==> a[i] == b[i]
    ensures PaidTo(a, k, sub) == PaidTo(b, k, sub)
  {
    if k > 0 { PaidToAgrees(a, b, k - 1, sub); }
  }

  /** What the first k excesses owe one subscriber. */
  function ExcessDue(excess: seq<Excess>, k: nat, sub: SubId): nat
    requires k <= |excess|
  {
    if k == 0 then 0
    else ExcessDue(excess, k - 1, sub) + (if excess[k - 1].sub == sub then excess[k - 1].atoms else 0)
  }

  // ---- coins by subscription ----

  /** What the first k coins bring a subscription. */
  function PaidIn(coins: seq<Coin>, k: nat, sub: SubId): nat
    requires k <= |coins|
  {
    if k == 0 then 0
    else PaidIn(coins, k - 1, sub) + (if coins[k - 1].sub == sub then coins[k - 1].atoms else 0)
  }

  function PaidAmounts(coins: seq<Coin>, k: nat, ids: seq<SubId>): (r: seq<nat>)
    requires k <= |coins|
    ensures |r| == |ids|
    ensures forall i :: 0 <= i < |r| ==> r[i] == PaidIn(coins, k, ids[i])
  {
    seq(|ids|, i requires 0 <= i < |ids| => PaidIn(coins, k, ids[i]))
  }

  lemma {:induction false} PaidInAtMost(coins: seq<Coin>, k: nat, sub: SubId)
    requires k <= |coins|
    ensures PaidIn(coins, k, sub) <= SumTo(Atoms(coins), k)
  {
    if k > 0 { PaidInAtMost(coins, k - 1, sub); }
  }

  predicate OwnedBy(coins: seq<Coin>, ids: seq<SubId>) {
    forall k :: 0 <= k < |coins| ==> coins[k].sub in ids
  }

  /** Every coin belongs to exactly one of a list of distinct subscriptions that covers them. */
  lemma {:induction false} CoinsSplit(coins: seq<Coin>, ids: seq<SubId>, k: nat)
    requires k <= |coins| && OwnedBy(coins, ids)
    requires forall i, j :: 0 <= i < j < |ids| ==> ids[i] != ids[j]
    ensures Sum(PaidAmounts(coins, k, ids)) == SumTo(Atoms(coins), k)
  {
    if k == 0 {
      SumToZero(PaidAmounts(coins, 0, ids), |ids|);
    } else {
      CoinsSplit(coins, ids, k - 1);
      assert coins[k - 1].sub in ids;
      var i :| 0 <= i < |ids| && ids[i] == coins[k - 1].sub;
      SumToBump(PaidAmounts(coins, k - 1, ids), PaidAmounts(coins, k, ids), i, coins[k - 1].atoms, |ids|);
    }
  }

  // ---- the inputs ----

  function Inputs(coins: seq<Coin>, sequence: nat): (r: seq<TxIn>)
    ensures |r| == |coins|
    ensures forall i :: 0 <= i < |r| ==> r[i] == TxIn(coins[i].outpoint, sequence)
  {
    seq(|coins|, i requires 0 <= i < |coins| => TxIn(coins[i].outpoint, sequence))
  }

  predicate WellFormedCoins(t: Terms, coins: seq<Coin>, instances: set<SubId>) {
    forall i :: 0 <= i < |coins| ==> coins[i].asset == t.payAsset && coins[i].sub in instances
  }

  // ---- the release ----

  /** The outputs returning the first k excesses, none for an excess of zero. */
  function ExcessOuts(t: Terms, excess: seq<Excess>, k: nat): (outs: seq<TxOut>)
    requires k <= |excess|
  {
    if k == 0 then []
    else ExcessOuts(t, excess, k - 1)
         + (if excess[k - 1].atoms == 0 then []
            else [PlainOut(t.payAsset, excess[k - 1].atoms, excess[k - 1].refundScript)])
  }

  /** The same outputs as the issuer is shown them, numbered from base. */
  function ExcessDescribed(t: Terms, excess: seq<Excess>, k: nat, base: nat): (d: seq<Described>)
    requires k <= |excess|
    ensures DescribesFrom(d, ExcessOuts(t, excess, k), base)
  {
    if k == 0 then []
    else
      var init, e := ExcessDescribed(t, excess, k - 1, base), excess[k - 1];
      init + (if e.atoms == 0 then [] else [Described(base + |init|, ToSubscriber(e.sub), e.atoms, e.refundScript)])
  }

  /** d describes outs, numbered from base. */
  predicate DescribesFrom(d: seq<Described>, outs: seq<TxOut>, base: nat) {
    && |d| == |outs|
    && forall i :: 0 <= i < |d| ==>
         && d[i].n == base + i
         && outs[i].value == Explicit(d[i].atoms)
         && outs[i].script == d[i].script
  }

  function ReleaseTx(t: Terms, coins: seq<Coin>, excess: seq<Excess>, escrowFee: nat, platform: Script,
                     toIssuer: nat, networkFee: nat): Tx
  {
    Tx(t.closeLock, Inputs(coins, ESCROW_SEQUENCE),
       [PlainOut(t.payAsset, toIssuer, t.issuerScript)]
       + (if escrowFee > 0 then [PlainOut(t.payAsset, escrowFee, platform)] else [])
       + ExcessOuts(t, excess, |excess|)
       + [PlainOut(t.payAsset, networkFee, NO_SCRIPT)])
  }

  /** The network fee, measured on the transaction with its two open amounts at zero. */
  function ReleaseFee(t: Terms, coins: seq<Coin>, excess: seq<Excess>, escrowFee: nat, platform: Script,
                      rate: nat, size: Sizer): nat
  {
    FeeForVsize(size(ReleaseTx(t, coins, excess, escrowFee, platform, 0, 0)), rate)
  }

  /** A built release as its network fee is measured: what it pays the issuer and the network at zero. */
  function ReleaseMeasured(tx: Tx): Tx
    requires |tx.outs| >= 2
  {
    tx.(outs := tx.outs[0 := tx.outs[0].(value := Explicit(0))]
                       [|tx.outs| - 1 := tx.outs[|tx.outs| - 1].(value := Explicit(0))])
  }

  /** The network fee is the price of the very transaction built, its two open amounts at zero. */
  lemma ReleaseFeeIs(t: Terms, coins: seq<Coin>, excess: seq<Excess>, escrowFee: nat, platform: Script, rate: nat,
                     size: Sizer, toIssuer: nat, networkFee: nat)
    ensures var tx := ReleaseTx(t, coins, excess, escrowFee, platform, toIssuer, networkFee);
            |tx.outs| >= 2
            && PricedFor(ReleaseFee(t, coins, excess, escrowFee, platform, rate, size), size(ReleaseMeasured(tx)), rate)
  {
    var tx, open := ReleaseTx(t, coins, excess, escrowFee, platform, toIssuer, networkFee),
                    ReleaseTx(t, coins, excess, escrowFee, platform, 0, 0);
    assert ReleaseMeasured(tx).outs == open.outs;
    var vsize := size(open);
    if vsize * rate + 999 < U64 { FeeRoundsUp(vsize, rate); }
  }

  predicate PayableExcess(excess: seq<Excess>) {
    forall i :: 0 <= i < |excess| && excess[i].atoms > 0 ==> excess[i].refundScript != NO_SCRIPT
  }

  /** What is left for the issuer, in the program's wrapping arithmetic. */
  function ReleaseToIssuer(coins: seq<Coin>, excess: seq<Excess>, escrowFee: nat, networkFee: nat): nat {
    Minus64(Wrap64(Sum(Atoms(coins))) - Wrap64(Sum(ExcessAtoms(excess))) - escrowFee - networkFee)
  }

  /** Exactly when a release can be built. */
  predicate Releasable(t: Terms, coins: seq<Coin>, instances: set<SubId>, excess: seq<Excess>, escrowFee: nat,
                       platform: Script, networkFee: nat)
  {
    && coins != []
    && WellFormedCoins(t, coins, instances)
    && (escrowFee > 0 ==> platform != NO_SCRIPT)
    && PayableExcess(excess)
    && Wrap64(Wrap64(Sum(ExcessAtoms(excess))) + escrowFee + networkFee) <= Wrap64(Sum(Atoms(coins)))
    && t.minimum <= ReleaseToIssuer(coins, excess, escrowFee, networkFee)
  }

  /** The first coin that cannot be spent, and why. */
  predicate FirstBadCoin(t: Terms, coins: seq<Coin>, instances: set<SubId>, i: nat, why: BuildError) {
    && i < |coins| && (forall k :: 0 <= k < i ==> coins[k].asset == t.payAsset && coins[k].sub in instances)
    && (if coins[i].asset != t.payAsset then why == WrongAsset else coins[i].sub !in instances && why == NoInstance)
  }

  /** Why a release is refused: of what is wrong, the first the builder comes to. */
  predicate ReleaseRefused(t: Terms, coins: seq<Coin>, instances: set<SubId>, excess: seq<Excess>, escrowFee: nat,
                           platform: Script, networkFee: nat, why: BuildError)
  {
    if coins == [] then why == NoCoins
    else if exists i :: 0 <= i < |coins| && (coins[i].asset != t.payAsset || coins[i].sub !in instances)
    then exists i :: 0 <= i < |coins| && FirstBadCoin(t, coins, instances, i, why)
    else if escrowFee > 0 && platform == NO_SCRIPT then why == NoPlatformScript
    else if exists i :: 0 <= i < |excess| && excess[i].atoms > 0 && excess[i].refundScript == NO_SCRIPT then why == NoRefundScript
    else if (Sum(ExcessAtoms(excess)) + escrowFee + networkFee) % U64 > Sum(Atoms(coins)) % U64 then why == FeesNotCovered
    else why == BelowMinimum
  }

  lemma NoCoinsRefused(t: Terms, instances: set<SubId>, excess: seq<Excess>, escrowFee: nat, platform: Script, networkFee: nat)
    ensures ReleaseRefused(t, [], instances, excess, escrowFee, platform, networkFee, NoCoins)
  {
  }

  lemma CoinRefused(t: Terms, coins: seq<Coin>, instances: set<SubId>, excess: seq<Excess>, escrowFee: nat, platform: Script,
                    networkFee: nat, why: BuildError)
    requires exists i :: 0 <= i < |coins| && FirstBadCoin(t, coins, instances, i, why)
    ensures ReleaseRefused(t, coins, instances, excess, escrowFee, platform, networkFee, why)
  {
  }

  /** What a release of well-formed coins is refused for, step by step. */
  lemma OtherwiseRefused(t: Terms, coins: seq<Coin>, instances: set<SubId>, excess: seq<Excess>, escrowFee: nat, platform: Script,
                         networkFee: nat)
    requires coins != [] && WellFormedCoins(t, coins, instances)
    ensures var why := if escrowFee > 0 && platform == NO_SCRIPT then NoPlatformScript
                       else if !PayableExcess(excess) then NoRefundScript
                       else if Wrap64(Sum(Atoms(coins))) < Wrap64(Wrap64(Sum(ExcessAtoms(excess))) + escrowFee + networkFee)
                       then FeesNotCovered else BelowMinimum;
            ReleaseRefused(t, coins, instances, excess, escrowFee, platform, networkFee, why)
  {
    WrapAdd(Sum(ExcessAtoms(excess)), escrowFee + networkFee);
  }

  method BuildRelease(t: Terms, coins: seq<Coin>, instances: set<SubId>, excess: seq<Excess>, escrowFee: nat,
                      platform: Script, rate: nat, size: Sizer)
    returns (r: Result<Build, BuildError>)
    ensures var net := ReleaseFee(t, coins, excess, escrowFee, platform, rate, size);
            r.Ok? <==> Releasable(t, coins, instances, excess, escrowFee, platform, net)
    ensures r.Ok? ==>
              var b := r.value;
              && b.networkFee == ReleaseFee(t, coins, excess, escrowFee, platform, rate, size)
              && b.escrowFee == escrowFee
              && b.toIssuer == ReleaseToIssuer(coins, excess, escrowFee, b.networkFee)
              && b.tx == ReleaseTx(t, coins, excess, escrowFee, platform, b.toIssuer, b.networkFee)
              && b.outputs == ReleaseDescribed(t, excess, escrowFee, platform, b.toIssuer, b.networkFee)
              && |b.tx.outs| >= 2 && PricedFor(b.networkFee, size(ReleaseMeasured(b.tx)), rate)
    ensures r.Err? ==> ReleaseRefused(t, coins, instances, excess, escrowFee, platform,
                                      ReleaseFee(t, coins, excess, escrowFee, platform, rate, size), r.error)
  {
    hide ReleaseRefused, FirstBadCoin, PricedFor, ReleaseMeasured;
    NoCoinsRefused(t, instances, excess, escrowFee, platform, ReleaseFee(t, coins, excess, escrowFee, platform, rate, size));
    if coins == [] {
      return Err(NoCoins);
    }
    var total, bad := TakeCoins(t, coins, instances);
    if bad.Some? {
      CoinRefused(t, coins, instances, excess, escrowFee, platform,
                  ReleaseFee(t, coins, excess, escrowFee, platform, rate, size), bad.value);
      return Err(bad.value);
    }
    OtherwiseRefused(t, coins, instances, excess, escrowFee, platform,
                     ReleaseFee(t, coins, excess, escrowFee, platform, rate, size));
    var outs, back, returned, missing := PlaceOutputs(t, coins, excess, escrowFee, platform);
    if missing.Some? {
      return Err(missing.value);
    }
    var tx := Tx(t.closeLock, Inputs(coins, ESCROW_SEQUENCE), outs);
    var networkFee := FeeForVsize(size(tx), rate);
    if total < Wrap64(returned + escrowFee + networkFee) {
      return Err(FeesNotCovered);
    }
    var toIssuer := Minus64(total - returned - escrowFee - networkFee);
    if toIssuer < t.minimum {
      return Err(BelowMinimum);
    }
    outs := outs[0 := PlainOut(t.payAsset, toIssuer, t.issuerScript)]
                [|outs| - 1 := PlainOut(t.payAsset, networkFee, NO_SCRIPT)];
    FillAmounts(t, coins, excess, escrowFee, platform, toIssuer, networkFee);
    ReleaseFeeIs(t, coins, excess, escrowFee, platform, rate, size, toIssuer, networkFee);
    tx := tx.(outs := outs);
    var front := [Described(0, ToIssuer, toIssuer, t.issuerScript)]
                 + (if escrowFee > 0 then [Described(1, ToPlatform, escrowFee, platform)] else []);
    var described := front + back + [Described(|outs| - 1, NetworkFee, networkFee, NO_SCRIPT)];
    return Ok(Build(tx, described, networkFee, toIssuer, escrowFee));
  }

  /** The outputs with the two open amounts at zero, to measure the transaction by. */
  method PlaceOutputs(t: Terms, coins: seq<Coin>, excess: seq<Excess>, escrowFee: nat, platform: Script)
    returns (outs: seq<TxOut>, back: seq<Described>, returned: nat, missing: Option<BuildError>)
    ensures missing == None <==> (escrowFee > 0 ==> platform != NO_SCRIPT) && PayableExcess(excess)
    ensures missing.Some? ==> missing.value == if escrowFee > 0 && platform == NO_SCRIPT then NoPlatformScript else NoRefundScript
    ensures missing == None ==>
              && outs == ReleaseTx(t, coins, excess, escrowFee, platform, 0, 0).outs
              && returned == Wrap64(Sum(ExcessAtoms(excess)))
              && back == ExcessDescribed(t, excess, |excess|, if escrowFee > 0 then 2 else 1)
  {
    outs, back, returned, missing := [PlainOut(t.payAsset, 0, t.issuerScript)], [], 0, None;
    if escrowFee > 0 {
      if platform == NO_SCRIPT {
        missing := Some(NoPlatformScript);
        return;
      }
      outs := outs + [PlainOut(t.payAsset, escrowFee, platform)];
    }
    var backOuts, described, total, unpayable := ReturnExcess(t, excess, |outs|);
    if unpayable {
      missing := Some(NoRefundScript);
      return;
    }
    outs, back, returned := outs + backOuts + [PlainOut(t.payAsset, 0, NO_SCRIPT)], described, total;
  }

  function ReleaseDescribed(t: Terms, excess: seq<Excess>, escrowFee: nat, platform: Script, toIssuer: nat,
                            networkFee: nat): seq<Described>
  {
    var front := [Described(0, ToIssuer, toIssuer, t.issuerScript)]
                 + (if escrowFee > 0 then [Described(1, ToPlatform, escrowFee, platform)] else []);
    var back := ExcessDescribed(t, excess, |excess|, |front|);
    front + back + [Described(|front| + |back|, NetworkFee, networkFee, NO_SCRIPT)]
  }

  lemma FillAmounts(t: Terms, coins: seq<Coin>, excess: seq<Excess>, escrowFee: nat, platform: Script,
                    toIssuer: nat, networkFee: nat)
    ensures var outs := ReleaseTx(t, coins, excess, escrowFee, platform, 0, 0).outs;
            |outs| >= 2 &&
            ReleaseTx(t, coins, excess, escrowFee, platform, toIssuer, networkFee).outs
            == outs[0 := PlainOut(t.payAsset, toIssuer, t.issuerScript)]
                   [|outs| - 1 := PlainOut(t.payAsset, networkFee, NO_SCRIPT)]
  {
  }

  /** Checks each coin and totals them; bad says why a coin cannot be spent. */
  method TakeCoins(t: Terms, coins: seq<Coin>, instances: set<SubId>) returns (total: nat, bad: Option<BuildError>)
    ensures bad == None <==> WellFormedCoins(t, coins, instances)
    ensures bad == None ==> total == Wrap64(Sum(Atoms(coins)))
    ensures bad.Some? ==> exists i :: 0 <= i < |coins| && FirstBadCoin(t, coins, instances, i, bad.value)
  {
    total, bad := 0, None;
    for i := 0 to |coins|
      invariant forall k :: 0 <= k < i ==> coins[k].asset == t.payAsset && coins[k].sub in instances
      invariant total == Wrap64(SumTo(Atoms(coins), i))
    {
      if coins[i].asset != t.payAsset {
        assert FirstBadCoin(t, coins, instances, i, WrongAsset);
        return total, Some(WrongAsset);
      }
      if coins[i].sub !in instances {
        assert FirstBadCoin(t, coins, instances, i, NoInstance);
        return total, Some(NoInstance);
      }
      WrapAdd(SumTo(Atoms(coins), i), coins[i].atoms);
      total := Wrap64(total + coins[i].atoms);
    }
  }

  lemma ExcessStep(t: Terms, excess: seq<Excess>, k: nat, base: nat)
    requires k < |excess|
    ensures |ExcessOuts(t, excess, k)| == |ExcessDescribed(t, excess, k, base)|
    ensures var e, outs, d := excess[k], ExcessOuts(t, excess, k), ExcessDescribed(t, excess, k, base);
            if e.atoms > 0 then
              && ExcessOuts(t, excess, k + 1) == outs + [PlainOut(t.payAsset, e.atoms, e.refundScript)]
              && ExcessDescribed(t, excess, k + 1, base)
                 == d + [Described(base + |outs|, ToSubscriber(e.sub), e.atoms, e.refundScript)]
              && Wrap64(SumTo(ExcessAtoms(excess), k + 1)) == Wrap64(Wrap64(SumTo(ExcessAtoms(excess), k)) + e.atoms)
            else
              && ExcessOuts(t, excess, k + 1) == outs
              && ExcessDescribed(t, excess, k + 1, base) == d
              && SumTo(ExcessAtoms(excess), k + 1) == SumTo(ExcessAtoms(excess), k)
  {
    WrapAdd(SumTo(ExcessAtoms(excess), k), excess[k].atoms);
    if excess[k].atoms == 0 {
      assert ExcessOuts(t, excess, k) + [] == ExcessOuts(t, excess, k);
      assert ExcessDescribed(t, excess, k, base) + [] == ExcessDescribed(t, excess, k, base);
    }
  }

  /** Appends one output per positive excess, numbered from base. */
  method ReturnExcess(t: Terms, excess: seq<Excess>, base: nat)
    returns (outs: seq<TxOut>, back: seq<Described>, returned: nat, unpayable: bool)
    ensures unpayable <==> !PayableExcess(excess)
    ensures !unpayable ==>
              && outs == ExcessOuts(t, excess, |excess|)
              && back == ExcessDescribed(t, excess, |excess|, base)
              && returned == Wrap64(Sum(ExcessAtoms(excess)))
  {
    outs, back, returned, unpayable := [], [], 0, false;
    assert ExcessOuts(t, excess, 0) == [] && ExcessDescribed(t, excess, 0, base) == [];
    assert Wrap64(SumTo(ExcessAtoms(excess), 0)) == 0;
    hide ExcessOuts, ExcessDescribed, DescribesFrom, SumTo, Wrap64, ExcessAtoms;
    for i := 0 to |excess|
      invariant !unpayable
      invariant forall k :: 0 <= k < i && excess[k].atoms > 0 ==> excess[k].refundScript != NO_SCRIPT
      invariant outs == ExcessOuts(t, excess, i)
      invariant back == ExcessDescribed(t, excess, i, base)
      invariant returned == Wrap64(SumTo(ExcessAtoms(excess), i))
    {
      var e := excess[i];
      ExcessStep(t, excess, i, base);
      if e.atoms > 0 {
        if e.refundScript == NO_SCRIPT {
          return outs, back, returned, true;
        }
        back := back + [Described(base + |outs|, ToSubscriber(e.sub), e.atoms, e.refundScript)];
        outs := outs + [PlainOut(t.payAsset, e.atoms, e.refundScript)];
        returned := Wrap64(returned + e.atoms);
      }
    }
  }

  /** The figures the issuer is shown are the transaction's own outputs. */
  lemma DescribedAsBuilt(t: Terms, coins: seq<Coin>, excess: seq<Excess>, escrowFee: nat, platform: Script,
                         toIssuer: nat, networkFee: nat)
    ensures Describes(ReleaseDescribed(t, excess, escrowFee, platform, toIssuer, networkFee),
                      ReleaseTx(t, coins, excess, escrowFee, platform, toIssuer, networkFee))
  {
    var d := ReleaseDescribed(t, excess, escrowFee, platform, toIssuer, networkFee);
    var outs := ReleaseTx(t, coins, excess, escrowFee, platform, toIssuer, networkFee).outs;
    var base := if escrowFee > 0 then 2 else 1;
    var mid, midOuts := ExcessDescribed(t, excess, |excess|, base), ExcessOuts(t, excess, |excess|);
    assert |d| == |outs| == base + |mid| + 1;
    forall i | base <= i < base + |mid| ensures d[i] == mid[i - base] && outs[i] == midOuts[i - base] {
    }
  }

  /** The excess outputs pay each subscriber exactly what the excesses owe them. */
  lemma {:induction false} ExcessDescribedPays(t: Terms, excess: seq<Excess>, k: nat, base: nat, sub: SubId)
    requires k <= |excess|
    ensures var d := ExcessDescribed(t, excess, k, base);
            PaidTo(d, |d|, sub) == ExcessDue(excess, k, sub)
  {
    if k > 0 {
      ExcessDescribedPays(t, excess, k - 1, base, sub);
      var init, d := ExcessDescribed(t, excess, k - 1, base), ExcessDescribed(t, excess, k, base);
      PaidToAgrees(d, init, |init|, sub);
    }
  }

  lemma {:induction false} PaidToShift(front: seq<Described>, mid: seq<Described>, all: seq<Described>, k: nat, sub: SubId)
    requires k <= |mid| && |front| + k <= |all|
    requires forall i :: 0 <= i < |front| ==> all[i] == front[i] && !front[i].payee.ToSubscriber?
    requires forall i :: 0 <= i < k ==> all[|front| + i] == mid[i]
    ensures PaidTo(all, |front| + k, sub) == PaidTo(mid, k, sub)
  {
    if k > 0 {
      PaidToShift(front, mid, all, k - 1, sub);
    } else {
      NotToSubscribers(all, |front|, sub);
    }
  }

  lemma {:induction false} NotToSubscribers(outputs: seq<Described>, k: nat, sub: SubId)
    requires k <= |outputs|
    requires forall i :: 0 <= i < k ==> !outputs[i].payee.ToSubscriber?
    ensures PaidTo(outputs, k, sub) == 0
  {
    if k > 0 { NotToSubscribers(outputs, k - 1, sub); }
  }

  lemma PaidToFramed(front: seq<Described>, mid: seq<Described>, last: Described, sub: SubId)
    requires forall i :: 0 <= i < |front| ==> !front[i].payee.ToSubscriber?
    requires !last.payee.ToSubscriber?
    ensures var all := front + mid + [last];
            PaidTo(all, |all|, sub) == PaidTo(mid, |mid|, sub)
  {
    var all := front + mid + [last];
    PaidToShift(front, mid, all, |mid|, sub);
    assert all[|all| - 1] == last;
  }

  /** A built release pays each subscriber exactly the excess it was given for them. */
  lemma ReleasePaysBack(t: Terms, excess: seq<Excess>, escrowFee: nat, platform: Script, toIssuer: nat,
                        networkFee: nat, sub: SubId)
    ensures var d := ReleaseDescribed(t, excess, escrowFee, platform, toIssuer, networkFee);
            PaidTo(d, |d|, sub) == ExcessDue(excess, |excess|, sub)
  {
    var front := [Described(0, ToIssuer, toIssuer, t.issuerScript)]
                 + (if escrowFee > 0 then [Described(1, ToPlatform, escrowFee, platform)] else []);
    var back := ExcessDescribed(t, excess, |excess|, |front|);
    PaidToFramed(front, back, Described(|front| + |back|, NetworkFee, networkFee, NO_SCRIPT), sub);
    ExcessDescribedPays(t, excess, |excess|, |front|, sub);
  }
}
