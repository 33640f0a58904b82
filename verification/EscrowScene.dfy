/** One offering with one subscription, small enough to work out what the builders make of it. */
module EscrowScene {
  import opened Prelude
  import opened Chain
  import opened Covenant
  import opened ReturnSpend
  import opened ReleaseFacts
  import opened EscrowProtocol
  import opened EscrowPlans

  /** Closes at block 10, refunds from block 20, one block a day. */
  const TERMS := Terms(1, 2, 1, 10, 20, 100)
  const RULES := Rules(TERMS, 1)

  const FIRST := Coin(Outpoint(50, 0), 1000, 1, 7)
  const LATE := Coin(Outpoint(51, 0), 500, 1, 7)

  /** A release is locked until the close; a cancel is not. */
  function TxidOf(tx: Tx): Txid {
    if tx.lockTime == 10 then 60 else 61
  }

  /** Subscription 7 costs 1000 and has one coin; no escrow fee, and the smallest network fee. */
  function Holding(coin: Coin): World {
    World(sub => if sub == 7 then [Utxo(coin.outpoint, coin.atoms, coin.asset)] else [],
          sub => 3, sub => 1000, 4, sub => 0, 0, tx => 0, tx => TxidOf(tx))
  }

  /** A coin of subscription 7 that pays no more than it costs. */
  predicate Sevens(coin: Coin) {
    coin.asset == 1 && coin.sub == 7 && 2 <= coin.atoms <= 1000
  }

  /** The release of the one coin. */
  function ReleaseOf(coin: Coin): Spend
    requires Sevens(coin)
  {
    Spend(Release, Built, 60, [coin], [7], [Described(0, ToIssuer, coin.atoms - 1, 2), Described(1, NetworkFee, 1, NO_SCRIPT)], 1)
  }

  /** The cancel of it. */
  function CancelOf(coin: Coin): Spend
    requires Sevens(coin)
  {
    Spend(Cancel, Built, 61, [coin], [7],
          [Described(0, ToSubscriber(7), coin.atoms - 1, 3), Described(1, NetworkFee, 1, NO_SCRIPT)], 1)
  }

  lemma HoldingCoins(coin: Coin)
    requires Sevens(coin)
    ensures CoinsOf(Holding(coin), 1, [7], 1) == [coin]
    ensures Subs([coin]) == {7} && Outpoints([coin]) == {coin.outpoint} && Atoms([coin]) == [coin.atoms]
              && Sum([coin.atoms]) == coin.atoms
  {
    var found := Holding(coin).utxosAt(7);
    assert Mine(found, 1, 7, 0) == [];
    assert Mine(found, 1, 7, 1) == [coin];
    assert CoinsOf(Holding(coin), 1, [7], 0) == [];
    assert [coin][0] == coin;
    assert SumTo([coin.atoms], 0) == 0;
  }

  // ---- the release ----

  lemma NoExcess(coin: Coin)
    requires Sevens(coin)
    ensures ExcessOf(Holding(coin), [coin], [7]) == []
  {
    var who := Subscribers(Holding(coin), [7]);
    assert PaidIn([coin], 0, 7) == 0;
    assert PaidIn([coin], 1, 7) == coin.atoms;
    assert Owed([coin], who)[0] == 0;
    assert Listed(who, Owed([coin], who), 0) == [];
  }

  lemma ReleaseFeeIsOne(coin: Coin)
    ensures ReleaseFeeNow(Holding(coin), TERMS, [7], 0) == 1
  {
    hide CoinsOf, ExcessOf, ReleaseTx;
  }

  lemma ReleaseFigures(coin: Coin)
    requires Sevens(coin)
    ensures Releasable(TERMS, [coin], {7}, [], 0, 4, 1)
    ensures ReleaseToIssuer([coin], [], 0, 1) == coin.atoms - 1
  {
    HoldingCoins(coin);
    assert ExcessAtoms([]) == [];
  }

  lemma ReleaseOutputs(toIssuer: nat)
    ensures ReleaseDescribed(TERMS, [], 0, 4, toIssuer, 1)
            == [Described(0, ToIssuer, toIssuer, 2), Described(1, NetworkFee, 1, NO_SCRIPT)]
  {
    assert ExcessDescribed(TERMS, [], 0, 1) == [];
  }

  lemma ReleaseBuilt(coin: Coin, spends: seq<Spend>)
    requires Sevens(coin)
    ensures MayRelease(Holding(coin), TERMS, spends, [7], 0) <==> CoinsFree(spends, Release, [coin])
    ensures forall sp :: Releases(Holding(coin), TERMS, [7], 0, sp) <==> sp == ReleaseOf(coin)
  {
    hide CoinsOf, ExcessOf, ReleaseFeeNow, Releasable, ReleaseToIssuer, ReleaseDescribed, CoinsFree;
    HoldingCoins(coin);
    NoExcess(coin);
    ReleaseFeeIsOne(coin);
    ReleaseFigures(coin);
    ReleaseOutputs(coin.atoms - 1);
    assert Named([7]) == {7};
  }

  // ---- the cancel ----

  lemma CancelFeeIsOne(coin: Coin)
    ensures ReturnFeeNow(Holding(coin), TERMS, Cancel, [7]) == 1
  {
    hide CoinsOf, ReturnTx;
  }

  lemma CancelFits(coin: Coin)
    requires Sevens(coin)
    ensures Returnable(Cancel, TERMS, [coin], {7}, RefundsOf(Holding(coin), [7]), 1) && SharesFit(TERMS, [coin], 1)
  {
    assert Keep(1, 1, 0) == 1;
    assert 7 in Named([7]);
  }

  lemma CancelTx(coin: Coin, refunds: Refunds, outputs: seq<Described>)
    requires Sevens(coin) && RefundScript(refunds, 7) == 3 && SharesFit(TERMS, [coin], 1)
    requires Describes(outputs, ReturnTx(Cancel, TERMS, [coin], refunds, Keeps(1, 1, 1), 1)) && PaysEachOwner(outputs, [coin])
    ensures TxidOf(ReturnTx(Cancel, TERMS, [coin], refunds, Keeps(1, 1, 1), 1)) == 61
    ensures outputs == CancelOf(coin).outputs
  {
    var tx := ReturnTx(Cancel, TERMS, [coin], refunds, Keeps(1, 1, 1), 1);
    assert Keep(1, 1, 0) == 1;
    assert tx.outs == [PlainOut(1, coin.atoms - 1, 3), PlainOut(1, 1, NO_SCRIPT)];
    assert outputs[0] == CancelOf(coin).outputs[0] && outputs[1] == CancelOf(coin).outputs[1];
  }

  lemma CancelBuilt(coin: Coin, spends: seq<Spend>)
    requires Sevens(coin)
    ensures MayReturn(Holding(coin), TERMS, spends, Cancel, [7]) <==> CoinsFree(spends, Cancel, [coin])
    ensures forall sp :: Returns(Holding(coin), TERMS, Cancel, [7], sp) ==> sp == CancelOf(coin)
  {
    hide CoinsOf, ReturnTx, Returnable, ReturnFeeNow, Describes, CoinsFree, PaysEachOwner;
    HoldingCoins(coin);
    CancelFeeIsOne(coin);
    CancelFits(coin);
    assert Named([7]) == {7};
    forall sp | Returns(Holding(coin), TERMS, Cancel, [7], sp) ensures sp == CancelOf(coin) {
      CancelTx(coin, RefundsOf(Holding(coin), [7]), sp.outputs);
    }
  }

  // ---- which coins are free ----

  lemma OtherCoinIsFree(sp: Spend, kind: Kind, held: Coin, coin: Coin)
    requires sp.coins == [held] && Sevens(held) && held.outpoint != coin.outpoint
    ensures CoinsFree([sp], kind, [coin])
  {
    HoldingCoins(held);
    assert LastHolder([sp], 0, Some(kind), coin.outpoint) == None;
  }

  lemma UnsentCoinIsFree(sp: Spend, coin: Coin)
    requires sp.state == Built
    ensures CoinsFree([sp], sp.kind, [coin])
  {
    assert LastHolder([sp], 0, Some(sp.kind), coin.outpoint) == None;
  }
}
