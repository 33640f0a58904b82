/** The checks between a close's deliveries, against the release builder itself: where they
    guard each delivery, and inputs on which they do not. */
module CloseChecks {
  import opened Prelude
  import opened Money
  import opened Chain
  import opened Covenant
  import opened ReleaseFacts
  import opened EscrowTerms
  import opened EscrowProtocol
  import opened EscrowLedger
  import opened CloseLoop
  import opened EscrowPlans

  // ---- one subscription holds the only coin ----

  /** A txid no recorded spend takes a coin of. */
  function UnusedIn(coins: seq<Coin>, k: nat): (t: Txid)
    requires k <= |coins|
    ensures forall i :: 0 <= i < k ==> coins[i].outpoint.txid < t
  {
    if k == 0 then 0
    else
      var t := UnusedIn(coins, k - 1);
      if coins[k - 1].outpoint.txid < t then t else coins[k - 1].outpoint.txid + 1
  }

  function Unused(spends: seq<Spend>, k: nat): (t: Txid)
    requires k <= |spends|
    ensures forall i :: 0 <= i < k ==> UnusedIn(spends[i].coins, |spends[i].coins|) <= t
  {
    if k == 0 then 0
    else
      var t, u := Unused(spends, k - 1), UnusedIn(spends[k - 1].coins, |spends[k - 1].coins|);
      if u <= t then t else u
  }

  function LoneCoin(t: Terms, spends: seq<Spend>, owner: SubId): Coin {
    Coin(Outpoint(Unused(spends, |spends|), 0), t.minimum + 1, t.payAsset, owner)
  }

  /** Only one subscription has a coin, of one atom more than the least a release may pay;
      nothing is charged but the smallest network fee. */
  function Lone(t: Terms, spends: seq<Spend>, owner: SubId): World {
    World(sub => if sub == owner
                 then [Utxo(LoneCoin(t, spends, owner).outpoint, t.minimum + 1, t.payAsset)] else [],
          sub => 1, sub => 0, 1, sub => 0, 0, tx => 0, tx => 0)
  }

  lemma LoneFound(t: Terms, spends: seq<Spend>, owner: SubId, sub: SubId)
    ensures var found := Lone(t, spends, owner).utxosAt(sub);
            Mine(found, t.payAsset, sub, |found|) == if sub == owner then [LoneCoin(t, spends, owner)] else []
  {
    hide Unused;
    var found := Lone(t, spends, owner).utxosAt(sub);
    assert Mine(found, t.payAsset, sub, 0) == [];
  }

  lemma {:induction false} LoneCoins(t: Terms, spends: seq<Spend>, owner: SubId, subs: seq<SubId>, k: nat)
    requires k <= |subs| && NoneTwice(subs)
    ensures CoinsOf(Lone(t, spends, owner), t.payAsset, subs, k)
            == if owner in subs[..k] then [LoneCoin(t, spends, owner)] else []
  {
    hide Lone, LoneCoin, Mine, NoneTwice, CoinsOf;
    CoinsStep(Lone(t, spends, owner), t.payAsset, subs, k);
    if k > 0 {
      LoneCoins(t, spends, owner, subs, k - 1);
      LoneFound(t, spends, owner, subs[k - 1]);
      NamedOnce(subs, k, owner);
      var fore := CoinsOf(Lone(t, spends, owner), t.payAsset, subs, k - 1);
      assert fore + [] == fore && [] + [LoneCoin(t, spends, owner)] == [LoneCoin(t, spends, owner)];
    } else {
      assert subs[..0] == [];
    }
  }

  lemma CoinsStep(w: World, asset: Asset, subs: seq<SubId>, k: nat)
    requires k <= |subs|
    ensures k == 0 ==> CoinsOf(w, asset, subs, k) == []
    ensures k > 0 ==>
              var found := w.utxosAt(subs[k - 1]);
              CoinsOf(w, asset, subs, k) == CoinsOf(w, asset, subs, k - 1) + Mine(found, asset, subs[k - 1], |found|)
  {
  }

  lemma NamedOnce(subs: seq<SubId>, k: nat, owner: SubId)
    requires 0 < k <= |subs| && NoneTwice(subs)
    ensures owner in subs[..k] <==> owner in subs[..k - 1] || subs[k - 1] == owner
    ensures subs[k - 1] !in subs[..k - 1]
  {
    assert subs[..k] == subs[..k - 1] + [subs[k - 1]];
  }

  lemma LoneCoinIsFree(t: Terms, spends: seq<Spend>, owner: SubId)
    ensures CoinsFree(spends, Release, [LoneCoin(t, spends, owner)])
  {
  }

  lemma LoneFigures(t: Terms, spends: seq<Spend>, owner: SubId, subs: seq<SubId>)
    requires t.minimum + 1 < U64 && owner in subs
    ensures var coin := LoneCoin(t, spends, owner);
            Releasable(t, [coin], Named(subs), [], 0, 1, 1)
  {
    var coin := LoneCoin(t, spends, owner);
    assert Atoms([coin]) == [coin.atoms] && ExcessAtoms([]) == [];
    SumSnoc([], coin.atoms);
    assert [] + [coin.atoms] == [coin.atoms];
  }

  lemma {:induction false} NothingOverpaid(w: World, coins: seq<Coin>, subs: seq<SubId>, k: nat)
    requires k <= |subs| && forall sub :: w.payAmount(sub) == 0
    ensures var who := Subscribers(w, subs); Listed(who, Owed(coins, who), k) == []
  {
    if k > 0 { NothingOverpaid(w, coins, subs, k - 1); }
  }

  lemma {:induction false} NothingCharged(subs: seq<SubId>, quote: Quote, k: nat)
    requires k <= |subs| && forall sub :: quote(sub) == 0
    ensures FeesTogether([], subs, quote, k) == 0
  {
    if k > 0 {
      NothingCharged(subs, quote, k - 1);
      assert FeeOf([], subs[k - 1], quote) == 0;
    }
  }

  lemma LoneReleases(t: Terms, spends: seq<Spend>, owner: SubId, subs: seq<SubId>)
    requires t.minimum + 1 < U64 && NoneTwice(subs) && owner in subs
    ensures MayRelease(Lone(t, spends, owner), t, spends, subs, 0)
  {
    var w := Lone(t, spends, owner);
    var coins := [LoneCoin(t, spends, owner)];
    LoneCoins(t, spends, owner, subs, |subs|);
    assert subs[..|subs|] == subs;
    NothingOverpaid(w, coins, subs, |subs|);
    LoneCoinIsFree(t, spends, owner);
    LoneFigures(t, spends, owner, subs);
    assert ExcessOf(w, coins, subs) == [];
    hide CoinsOf, Releasable, CoinsFree, LoneCoin, NoneTwice, ReleaseTx, ExcessOf;
    assert ReleaseFeeNow(w, t, subs, 0) == 1;
  }

  /** Then a release can be built exactly of those lists that name the owner. */
  lemma LoneReleaseIff(t: Terms, spends: seq<Spend>, owner: SubId, subs: seq<SubId>)
    requires t.minimum + 1 < U64 && NoneTwice(subs)
    ensures var w := Lone(t, spends, owner);
            MayRelease(w, t, spends, subs, FeesTogether([], subs, w.quote, |subs|)) <==> owner in subs
  {
    NothingCharged(subs, Lone(t, spends, owner).quote, |subs|);
    if owner in subs {
      hide MayRelease;
      LoneReleases(t, spends, owner, subs);
    } else {
      LoneCoins(t, spends, owner, subs, |subs|);
      assert subs[..|subs|] == subs;
    }
  }

  // ---- what the checks guard ----

  /** Nobody to be released has failed, been cancelled or refunded before. */
  predicate NoneDropped(rows: Rows, covenant: seq<SubId>) {
    forall i :: 0 <= i < |covenant| ==> !Dropped(rows, covenant[i])
  }

  lemma {:induction false} AllStillSold(rows: Rows, covenant: seq<SubId>, k: nat)
    requires k <= |covenant|
    requires forall i :: 0 <= i < k ==> !Dropped(rows, covenant[i])
    ensures StillSold(rows, covenant, k) == covenant[..k]
  {
    if k > 0 {
      AllStillSold(rows, covenant, k - 1);
      assert covenant[..k] == covenant[..k - 1] + [covenant[k - 1]];
    }
  }

  /** The first check counts everyone. */
  lemma NoneDroppedAreSold(rows: Rows, covenant: seq<SubId>)
    requires NoneDropped(rows, covenant)
    ensures StillSold(rows, covenant, |covenant|) == covenant == NamesOf(covenant, From(0, |covenant|))
  {
    AllStillSold(rows, covenant, |covenant|);
    assert covenant[..|covenant|] == covenant;
  }

  /** While coins, fees and rate stay as they are: a close of subscriptions none of which has
      failed before attempts each delivery only if a release over those already delivered and
      all still to try could be built -- as long as no attempt follows an interrupted one. */
  lemma CloseGuardsItsDeliveries(r: Rules, b: Books, ledger: seq<Entry>, covenant: seq<SubId>, w: World,
                                 p: SubId -> Policy)
    requires MayClose(r, b, ledger, covenant, w) && NoneDropped(b.settlements, covenant)
    requires var tried := Tried(b.settlements, covenant, p);
             forall i :: 0 <= i < |covenant| ==> !Unaccounted(tried, i)
    ensures Guarded(Tried(b.settlements, covenant, p), FeasibleNow(w, r.terms, b.spends, ledger, covenant))
  {
    if covenant != [] {
      hide MayRelease, Unaccounted, Guarded, Tried, NoneDropped, StillSold, FeesTogether;
      NoneDroppedAreSold(b.settlements, covenant);
      AccountedIsGuarded(Tried(b.settlements, covenant, p), FeasibleNow(w, r.terms, b.spends, ledger, covenant));
    }
  }

  lemma {:induction false} ReadyAreAwaiting(rows: Rows, covenant: seq<SubId>, tried: seq<Phase>, k: nat)
    requires k <= |covenant| == |tried|
    requires forall j :: 0 <= j < k ==> PhaseIs(rows, covenant[j], tried[j])
    ensures Ready(rows, covenant, k) == NamesOf(covenant, Awaiting(tried, k))
  {
    if k > 0 {
      ReadyAreAwaiting(rows, covenant, tried, k - 1);
      NamesTogether(covenant, Awaiting(tried, k - 1), [k - 1]);
    }
  }

  lemma RowsAsTried(b: Books, covenant: seq<SubId>, p: SubId -> Policy, j: nat)
    requires j < |covenant| && Paid(b, covenant)
    ensures PhaseIs(AfterDeliveries(b, covenant, p, |covenant|).settlements, covenant[j], Tried(b.settlements, covenant, p)[j])
  {
    hide Attempt, Delivered, AfterDeliveries;
    DeliveriesAre(b, covenant, p, |covenant|, j);
  }

  /** Everything awaiting release can be released together. */
  predicate CanReleaseReady(w: World, t: Terms, d: Books, ledger: seq<Entry>, covenant: seq<SubId>) {
    var ready := Ready(d.settlements, covenant, |covenant|);
    MayRelease(w, t, d.spends, ready, FeesTogether(ledger, ready, w.quote, |ready|))
  }

  /** A close that ran to the end, and in which nothing failed or stayed interrupted since its
      last check, can build the release of everything it delivered. */
  lemma FinalReleaseCanBeBuilt(r: Rules, b: Books, ledger: seq<Entry>, covenant: seq<SubId>, w: World,
                               p: SubId -> Policy, checked: nat)
    requires Paid(b, covenant) && checked <= |covenant|
    requires FeasibleNow(w, r.terms, b.spends, ledger, covenant)(Rest(Tried(b.settlements, covenant, p), checked))
    requires forall k :: checked <= k < |covenant| ==> Tried(b.settlements, covenant, p)[k] == AwaitingRelease
    ensures CanReleaseReady(w, r.terms, AfterDeliveries(b, covenant, p, |covenant|), ledger, covenant)
  {
    hide MayRelease, Attempt, Delivered, AfterDeliveries, PhaseIs, Tried, Rest;
    var d, tried := AfterDeliveries(b, covenant, p, |covenant|), Tried(b.settlements, covenant, p);
    forall j | 0 <= j < |covenant| ensures PhaseIs(d.settlements, covenant[j], tried[j]) {
      RowsAsTried(b, covenant, p, j);
    }
    ReadyAreAwaiting(d.settlements, covenant, tried, |covenant|);
    DeliveriesTouchRows(b, covenant, p, |covenant|);
    FinalReleaseExists(tried, FeasibleNow(w, r.terms, b.spends, ledger, covenant), checked);
  }

  // ---- and exactly when ----

  /** Positions in rising order, all below n. */
  predicate Rising(at: seq<nat>, n: nat) {
    && (forall i :: 0 <= i < |at| ==> at[i] < n)
    && forall i, j :: 0 <= i < j < |at| ==> at[i] < at[j]
  }

  lemma {:induction false} AwaitingRises(tried: seq<Phase>, i: nat)
    requires i <= |tried|
    ensures Rising(Awaiting(tried, i), i)
  {
    if i > 0 { AwaitingRises(tried, i - 1); }
  }

  lemma RestRises(tried: seq<Phase>, i: nat)
    requires i <= |tried|
    ensures Rising(Rest(tried, i), |tried|)
  {
    AwaitingRises(tried, i);
  }

  /** Distinct positions name distinct subscriptions, and only those. */
  lemma NamesOfRising(covenant: seq<SubId>, at: seq<nat>, k: nat)
    requires NoneTwice(covenant) && Rising(at, |covenant|) && k < |covenant|
    ensures NoneTwice(NamesOf(covenant, at))
    ensures covenant[k] in NamesOf(covenant, at) <==> k in at
  {
    if k in at {
      var i :| 0 <= i < |at| && at[i] == k;
      assert NamesOf(covenant, at)[i] == covenant[k];
    }
  }

  lemma LoneFeasibleIff(t: Terms, spends: seq<Spend>, covenant: seq<SubId>, k: nat, at: seq<nat>)
    requires t.minimum + 1 < U64 && NoneTwice(covenant) && k < |covenant| && Rising(at, |covenant|)
    ensures FeasibleNow(Lone(t, spends, covenant[k]), t, spends, [], covenant)(at) <==> k in at
  {
    NamesOfRising(covenant, at, k);
    LoneReleaseIff(t, spends, covenant[k], NamesOf(covenant, at));
  }

  /** Whenever the close may go ahead, each delivery is attempted only if a release over those
      delivered and all still to try could be built. */
  ghost predicate AlwaysGuarded(r: Rules, b: Books, covenant: seq<SubId>, tried: seq<Phase>)
    requires |tried| == |covenant|
  {
    forall w: World, ledger: seq<Entry> :: MayClose(r, b, ledger, covenant, w) ==>
      Guarded(tried, FeasibleNow(w, r.terms, b.spends, ledger, covenant))
  }

  lemma LoneMayClose(r: Rules, b: Books, covenant: seq<SubId>, k: nat)
    requires r.terms.minimum + 1 < U64 && CloseGate(r.terms, r.blocksPerDay, b.tip, b.mtp)
    requires NoneTwice(covenant) && NoneDropped(b.settlements, covenant) && k < |covenant|
    ensures MayClose(r, b, [], covenant, Lone(r.terms, b.spends, covenant[k]))
  {
    hide MayRelease;
    AllStillSold(b.settlements, covenant, |covenant|);
    assert covenant[..|covenant|] == covenant;
    LoneReleaseIff(r.terms, b.spends, covenant[k], covenant);
  }

  /** Whatever coins, fees and rate it finds, a close of subscriptions none of which failed before
      guards each of its deliveries, if and only if none follows an interrupted one with no
      failure between. */
  lemma CloseGuardsIff(r: Rules, b: Books, covenant: seq<SubId>, p: SubId -> Policy)
    requires r.terms.minimum + 1 < U64 && CloseGate(r.terms, r.blocksPerDay, b.tip, b.mtp)
    requires NoneTwice(covenant) && NoneDropped(b.settlements, covenant)
    ensures AlwaysGuarded(r, b, covenant, Tried(b.settlements, covenant, p))
            <==> forall i :: 0 <= i < |covenant| ==> !Unaccounted(Tried(b.settlements, covenant, p), i)
  {
    hide MayClose, FeasibleNow, Guarded, Unaccounted;
    var tried := Tried(b.settlements, covenant, p);
    if forall i :: 0 <= i < |covenant| ==> !Unaccounted(tried, i) {
      forall w: World, ledger: seq<Entry> | MayClose(r, b, ledger, covenant, w)
        ensures Guarded(tried, FeasibleNow(w, r.terms, b.spends, ledger, covenant))
      {
        CloseGuardsItsDeliveries(r, b, ledger, covenant, w, p);
      }
    } else {
      var i :| 0 <= i < |covenant| && Unaccounted(tried, i);
      var k := LoneIsUnguarded(r.terms, b.spends, covenant, tried, i);
      LoneMayClose(r, b, covenant, k);
    }
  }

  lemma LoneIsUnguarded(t: Terms, spends: seq<Spend>, covenant: seq<SubId>, tried: seq<Phase>, i: nat) returns (k: nat)
    requires t.minimum + 1 < U64 && NoneTwice(covenant) && i < |covenant| == |tried| && Unaccounted(tried, i)
    ensures k < |covenant| && !Guarded(tried, FeasibleNow(Lone(t, spends, covenant[k]), t, spends, [], covenant))
  {
    k :| 0 <= k < i && tried[k] != AwaitingRelease;
    RestRises(tried, i);
    LeftOutOfRest(tried, i, k);
    LoneFeasibleIff(t, spends, covenant, k, Rest(tried, i));
    UnaccountedIsUnguarded(tried, FeasibleNow(Lone(t, spends, covenant[k]), t, spends, [], covenant), i);
  }

  // ---- the recheck and those who failed before ----

  /** Positions from i to k the first check counts. */
  function SoldFrom(rows: Rows, covenant: seq<SubId>, i: nat, k: nat): (r: seq<nat>)
    requires i <= k <= |covenant|
    ensures forall j :: 0 <= j < |r| ==> i <= r[j] < k && !Dropped(rows, covenant[r[j]])
  {
    if k == i then []
    else SoldFrom(rows, covenant, i, k - 1) + (if Dropped(rows, covenant[k - 1]) then [] else [k - 1])
  }

  /** What the recheck before attempt i would ask if it left out those the first check left out. */
  function SoldRest(rows: Rows, covenant: seq<SubId>, tried: seq<Phase>, i: nat): seq<nat>
    requires i <= |tried| == |covenant|
  {
    Awaiting(tried, i) + SoldFrom(rows, covenant, i, |covenant|)
  }

  lemma {:induction false} SoldFromRises(rows: Rows, covenant: seq<SubId>, i: nat, k: nat)
    requires i <= k <= |covenant|
    ensures Rising(SoldFrom(rows, covenant, i, k), k)
  {
    if k > i { SoldFromRises(rows, covenant, i, k - 1); }
  }

  lemma {:induction false} SoldFromAll(rows: Rows, covenant: seq<SubId>, i: nat, k: nat)
    requires i <= k <= |covenant| && forall j :: i <= j < k ==> !Dropped(rows, covenant[j])
    ensures SoldFrom(rows, covenant, i, k) == From(i, k)
  {
    if k > i {
      SoldFromAll(rows, covenant, i, k - 1);
      FromSplits(i, k);
    }
  }

  /** The recheck gives the answer it would give without them, whatever it finds. */
  ghost predicate RecheckAgrees(t: Terms, spends: seq<Spend>, rows: Rows, covenant: seq<SubId>, tried: seq<Phase>, i: nat)
    requires i <= |tried| == |covenant|
  {
    forall w: World, ledger: seq<Entry> ::
      var feasible := FeasibleNow(w, t, spends, ledger, covenant);
      feasible(Rest(tried, i)) <==> feasible(SoldRest(rows, covenant, tried, i))
  }

  /** The recheck before an attempt means what the first check meant if and only if nobody still to
      come failed, was cancelled or refunded before the close. */
  lemma RecheckAgreesIff(t: Terms, spends: seq<Spend>, rows: Rows, covenant: seq<SubId>, tried: seq<Phase>, i: nat)
    requires t.minimum + 1 < U64 && NoneTwice(covenant) && i <= |tried| == |covenant|
    ensures RecheckAgrees(t, spends, rows, covenant, tried, i)
            <==> forall j :: i <= j < |covenant| ==> !Dropped(rows, covenant[j])
  {
    hide FeasibleNow, Dropped, NoneTwice;
    if forall j :: i <= j < |covenant| ==> !Dropped(rows, covenant[j]) {
      SoldFromAll(rows, covenant, i, |covenant|);
    } else {
      var j :| i <= j < |covenant| && Dropped(rows, covenant[j]);
      DroppedDecides(t, spends, rows, covenant, tried, i, j);
    }
  }

  lemma DroppedDecides(t: Terms, spends: seq<Spend>, rows: Rows, covenant: seq<SubId>, tried: seq<Phase>, i: nat, j: nat)
    requires t.minimum + 1 < U64 && NoneTwice(covenant) && i <= j < |covenant| == |tried| && Dropped(rows, covenant[j])
    ensures var feasible := FeasibleNow(Lone(t, spends, covenant[j]), t, spends, [], covenant);
            feasible(Rest(tried, i)) && !feasible(SoldRest(rows, covenant, tried, i))
  {
    hide FeasibleNow, NoneTwice, Lone;
    RestRises(tried, i);
    AwaitingRises(tried, i);
    SoldFromRises(rows, covenant, i, |covenant|);
    AwaitingIs(tried, i);
    assert Rest(tried, i)[|Awaiting(tried, i)| + (j - i)] == j;
    LoneFeasibleIff(t, spends, covenant, j, Rest(tried, i));
    LoneFeasibleIff(t, spends, covenant, j, SoldRest(rows, covenant, tried, i));
  }

  // ---- inputs on which the checks do not guard ----

  /** A release must pay the issuer 500; subscription 2 has 100 atoms, every other 1000. */
  const FIVE_HUNDRED := Terms(1, 2, 500, 10, 20, 100)
  const CLOSING_RULES := Rules(FIVE_HUNDRED, 1)

  function AtomsAt(sub: SubId): nat {
    if sub == 2 then 100 else 1000
  }

  const UNEVEN := World((sub: SubId) => [Utxo(Outpoint(sub, 0), AtomsAt(sub), 1)], sub => 3, sub => 0, 4, sub => 0, 0,
                        tx => 0, tx => 0)

  function CoinAt(sub: SubId): Coin {
    Coin(Outpoint(sub, 0), AtomsAt(sub), 1, sub)
  }

  function CoinsAt(subs: seq<SubId>): (r: seq<Coin>)
    ensures |r| == |subs| && forall i :: 0 <= i < |r| ==> r[i] == CoinAt(subs[i])
  {
    seq(|subs|, i requires 0 <= i < |subs| => CoinAt(subs[i]))
  }

  lemma UnevenFound(sub: SubId)
    ensures var found := UNEVEN.utxosAt(sub); Mine(found, 1, sub, |found|) == [CoinAt(sub)]
  {
    var found := UNEVEN.utxosAt(sub);
    assert Mine(found, 1, sub, 0) == [];
  }

  lemma {:induction false} UnevenCoins(subs: seq<SubId>, k: nat)
    requires k <= |subs|
    ensures CoinsOf(UNEVEN, 1, subs, k) == CoinsAt(subs[..k])
  {
    hide Mine;
    if k > 0 {
      UnevenCoins(subs, k - 1);
      UnevenFound(subs[k - 1]);
      assert subs[..k] == subs[..k - 1] + [subs[k - 1]];
      assert CoinsAt(subs[..k]) == CoinsAt(subs[..k - 1]) + [CoinAt(subs[k - 1])];
    }
  }

  lemma UnevenFiguresIff(subs: seq<SubId>)
    requires subs != [] && Sum(Atoms(CoinsAt(subs))) < U64
    ensures Releasable(FIVE_HUNDRED, CoinsAt(subs), Named(subs), [], 0, 4, 1) <==> Sum(Atoms(CoinsAt(subs))) >= 501
  {
    var coins := CoinsAt(subs);
    assert Wrap64(Sum(Atoms(coins))) == Sum(Atoms(coins)) && Sum(ExcessAtoms([])) == 0;
    assert WellFormedCoins(FIVE_HUNDRED, coins, Named(subs));
    hide CoinsAt, Sum, WellFormedCoins;
  }

  /** A release of some of them needs 501 atoms: the least for the issuer, and the network fee. */
  lemma UnevenReleaseIff(subs: seq<SubId>)
    requires subs != [] && Sum(Atoms(CoinsAt(subs))) < U64
    ensures MayRelease(UNEVEN, FIVE_HUNDRED, [], subs, FeesTogether([], subs, UNEVEN.quote, |subs|))
            <==> Sum(Atoms(CoinsAt(subs))) >= 501
  {
    NothingCharged(subs, UNEVEN.quote, |subs|);
    UnevenCoins(subs, |subs|);
    assert subs[..|subs|] == subs;
    var coins := CoinsAt(subs);
    NothingOverpaid(UNEVEN, coins, subs, |subs|);
    assert ExcessOf(UNEVEN, coins, subs) == [];
    UnevenFiguresIff(subs);
    hide CoinsOf, ReleaseTx, ExcessOf, CoinsAt, Releasable, Sum;
    assert ReleaseFeeNow(UNEVEN, FIVE_HUNDRED, subs, 0) == 1;
  }

  lemma UnevenTotals()
    ensures Sum(Atoms(CoinsAt([2]))) == 100
    ensures forall sub :: sub != 2 ==> Sum(Atoms(CoinsAt([sub, 2]))) == Sum(Atoms(CoinsAt([2, sub]))) == 1100
  {
    assert Atoms(CoinsAt([2])) == [100];
    assert SumTo([100], 0) == 0;
    forall sub: SubId | sub != 2 ensures Sum(Atoms(CoinsAt([sub, 2]))) == Sum(Atoms(CoinsAt([2, sub]))) == 1100 {
      assert Atoms(CoinsAt([sub, 2])) == [1000, 100] && Atoms(CoinsAt([2, sub])) == [100, 1000];
      assert SumTo([1000, 100], 1) == 1000 && SumTo([100, 1000], 1) == 100;
    }
  }

  /** What the builder answers for the lists that matter below. */
  lemma UnevenAnswers()
    ensures forall subs :: subs == [1, 2] || subs == [2, 3] ==>
              MayRelease(UNEVEN, FIVE_HUNDRED, [], subs, FeesTogether([], subs, UNEVEN.quote, |subs|))
    ensures !MayRelease(UNEVEN, FIVE_HUNDRED, [], [2], FeesTogether([], [2], UNEVEN.quote, 1))
  {
    hide MayRelease, FeesTogether, CoinsAt, Sum;
    UnevenTotals();
    UnevenReleaseIff([1, 2]);
    UnevenReleaseIff([2, 3]);
    UnevenReleaseIff([2]);
  }

  function BooksFor(covenant: set<SubId>, rows: Rows): Books {
    Books(map sub | sub in covenant :: InEscrow, rows, [], [], Nobody, None, None, 10, 0)
  }

  /** Subscription 1's delivery was interrupted, and its tokens have not arrived. */
  const INTERRUPTED := BooksFor({1, 2}, map[1 := NEW_SETTLEMENT.(phase := Delivering)])

  function NotLanded(sub: SubId): Policy {
    Policy(true, Some(100), false)
  }

  lemma InterruptedTried()
    ensures Tried(INTERRUPTED.settlements, [1, 2], NotLanded) == [Delivering, AwaitingRelease]
    ensures Rest([Delivering, AwaitingRelease], 1) == [1]
    ensures forall f: Feasible :: Attempts([Delivering, AwaitingRelease], f, 2) == 2
  {
    var tried := [Delivering, AwaitingRelease];
    assert Awaiting(tried, 0) == [] && Awaiting(tried, 1) == [] && From(1, 2) == [1];
    assert !FailedBefore(tried, 0) && !FailedBefore(tried, 1);
    forall f: Feasible ensures Attempts(tried, f, 2) == 2 {
      assert Attempts(tried, f, 1) == 1;
    }
  }

  lemma InterruptedReady()
    ensures Ready(AfterDeliveries(INTERRUPTED, [1, 2], NotLanded, 2).settlements, [1, 2], 2) == [2]
    ensures AfterDeliveries(INTERRUPTED, [1, 2], NotLanded, 2).spends == []
    ensures 2 in AfterDeliveries(INTERRUPTED, [1, 2], NotLanded, 2).asked
  {
    var one := AfterDeliveries(INTERRUPTED, [1, 2], NotLanded, 1);
    assert AfterDeliveries(INTERRUPTED, [1, 2], NotLanded, 0) == INTERRUPTED;
    assert one == INTERRUPTED;
    var rows := AfterDeliveries(INTERRUPTED, [1, 2], NotLanded, 2).settlements;
    assert Ready(rows, [1, 2], 0) == [] && Ready(rows, [1, 2], 1) == [];
  }

  lemma InterruptedSold()
    ensures StillSold(INTERRUPTED.settlements, [1, 2], 2) == [1, 2]
  {
    assert StillSold(INTERRUPTED.settlements, [1, 2], 0) == [];
    assert StillSold(INTERRUPTED.settlements, [1, 2], 1) == [1];
  }

  /** An interrupted delivery lets the next one through unchecked: subscription 2's tokens are asked
      for although a release of what is delivered and to try cannot be built, before or after. */
  lemma InterruptedIsUnguarded()
    ensures MayClose(CLOSING_RULES, INTERRUPTED, [], [1, 2], UNEVEN)
    ensures var feasible := FeasibleNow(UNEVEN, FIVE_HUNDRED, [], [], [1, 2]);
            var tried := Tried(INTERRUPTED.settlements, [1, 2], NotLanded);
            Attempts(tried, feasible, 2) == 2 && !feasible(Rest(tried, 1))
    ensures var d := AfterDeliveries(INTERRUPTED, [1, 2], NotLanded, 2);
            2 in d.asked && !CanReleaseReady(UNEVEN, FIVE_HUNDRED, d, [], [1, 2])
  {
    InterruptedSold();
    InterruptedTried();
    InterruptedReady();
    hide MayRelease, FeesTogether, AfterDeliveries, Tried, Rest, Attempts, StillSold;
    UnevenAnswers();
    assert NamesOf([1, 2], [1]) == [2];
  }

  /** Subscription 3's delivery failed in an earlier close; its coin is still there. */
  const FAILED_BEFORE := BooksFor({1, 2, 3}, map[3 := NEW_SETTLEMENT.(phase := DeliveryFailed)])

  /** Subscription 1's transfer is refused. */
  function RefusesFirst(sub: SubId): Policy {
    Policy(true, if sub == 1 then None else Some(100), false)
  }

  const FAILED_TRIED := [DeliveryFailed, AwaitingRelease, DeliveryFailed]

  lemma FailedTried()
    ensures Tried(FAILED_BEFORE.settlements, [1, 2, 3], RefusesFirst) == FAILED_TRIED
  {
  }

  lemma FailedRest()
    ensures FailedBefore(FAILED_TRIED, 1) && Rest(FAILED_TRIED, 1) == [1, 2]
    ensures SoldRest(FAILED_BEFORE.settlements, [1, 2, 3], FAILED_TRIED, 1) == [1]
  {
    assert FAILED_TRIED[0] == DeliveryFailed;
    assert Awaiting(FAILED_TRIED, 0) == [] && Awaiting(FAILED_TRIED, 1) == [] && From(1, 3) == [1, 2];
    var rows := FAILED_BEFORE.settlements;
    assert SoldFrom(rows, [1, 2, 3], 1, 1) == [] && SoldFrom(rows, [1, 2, 3], 1, 2) == [1];
  }

  lemma FailedSold()
    ensures StillSold(FAILED_BEFORE.settlements, [1, 2, 3], 3) == [1, 2]
  {
    var rows := FAILED_BEFORE.settlements;
    assert StillSold(rows, [1, 2, 3], 0) == [] && StillSold(rows, [1, 2, 3], 1) == [1];
    assert StillSold(rows, [1, 2, 3], 2) == [1, 2];
  }

  lemma FailedReady()
    ensures var d := AfterDeliveries(FAILED_BEFORE, [1, 2, 3], RefusesFirst, 2);
            Ready(d.settlements, [1, 2, 3], 3) == [2] && d.spends == [] && 2 in d.asked
  {
    var one := AfterDeliveries(FAILED_BEFORE, [1, 2, 3], RefusesFirst, 1);
    assert AfterDeliveries(FAILED_BEFORE, [1, 2, 3], RefusesFirst, 0) == FAILED_BEFORE;
    assert PhaseIs(one.settlements, 1, DeliveryFailed);
    var rows := AfterDeliveries(FAILED_BEFORE, [1, 2, 3], RefusesFirst, 2).settlements;
    assert Ready(rows, [1, 2, 3], 0) == [] && Ready(rows, [1, 2, 3], 1) == [] && Ready(rows, [1, 2, 3], 2) == [2];
  }

  /** After a failure the recheck passes on a subscription that failed before the close, and the
      tokens delivered on it cannot be released: without it the recheck would have stopped. */
  lemma RecheckCountsTheFailed()
    ensures MayClose(CLOSING_RULES, FAILED_BEFORE, [], [1, 2, 3], UNEVEN) && IsUnready(FAILED_BEFORE.settlements, 3)
    ensures var feasible := FeasibleNow(UNEVEN, FIVE_HUNDRED, [], [], [1, 2, 3]);
            var tried := Tried(FAILED_BEFORE.settlements, [1, 2, 3], RefusesFirst);
            && FailedBefore(tried, 1) && feasible(Rest(tried, 1))
            && !feasible(SoldRest(FAILED_BEFORE.settlements, [1, 2, 3], tried, 1))
    ensures var d := AfterDeliveries(FAILED_BEFORE, [1, 2, 3], RefusesFirst, 2);
            2 in d.asked && !CanReleaseReady(UNEVEN, FIVE_HUNDRED, d, [], [1, 2, 3])
  {
    FailedSold();
    FailedTried();
    FailedRest();
    FailedReady();
    hide MayRelease, FeesTogether, AfterDeliveries, Tried, Rest, SoldRest, FailedBefore, StillSold, Ready;
    UnevenAnswers();
    assert NamesOf([1, 2, 3], [1, 2]) == [2, 3] && NamesOf([1, 2, 3], [1]) == [2];
  }
}
