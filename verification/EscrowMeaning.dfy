/** What the plans come to, told by what the store, the node and the chain say, row by row. */
module EscrowMeaning {
  import opened Prelude
  import opened Money
  import opened Chain
  import opened Covenant
  import opened ReturnSpend
  import opened ReleaseFacts
  import opened EscrowProtocol
  import opened EscrowLedger
  import opened CloseLoop
  import opened EscrowPlans

  // ---- whom a request takes ----

  /** A settlement whose money is still the subscriber's: nothing delivered or on its way, or
      all of it returned. */
  predicate NoTokens(st: Settlement) {
    || st.phase == Phase.Refunded
    || (st.delivery == None && (st.phase == Pending || st.phase == DeliveryFailed || st.phase == AwaitingCancel))
  }

  /** Whom a cancel takes, of those listed and not settled: with nobody named, everyone no tokens
      went to; else those named, bar a delivery under way. */
  predicate TakenByCancel(b: Books, want: set<SubId>, all: seq<SubId>, sub: SubId) {
    && sub in all && sub in b.subs && (b.subs[sub] == Created || b.subs[sub] == InEscrow)
    && (if want == {} then sub in b.settlements ==> NoTokens(b.settlements[sub])
        else sub in want && (sub in b.settlements ==> b.settlements[sub].phase != Delivering))
  }

  lemma CancelTakes(b: Books, want: set<SubId>, all: seq<SubId>)
    ensures var subs := ToCancel(b.subs, b.settlements, want, all, |all|);
            && (forall sub :: sub in subs <==> TakenByCancel(b, want, all, sub))
            && (NoneTwice(all) ==> NoneTwice(subs))
  {
    if NoneTwice(all) { CancelTakesOnce(b, want, all, |all|); }
  }

  lemma {:induction false} CancelTakesOnce(b: Books, want: set<SubId>, all: seq<SubId>, k: nat)
    requires k <= |all| && NoneTwice(all)
    ensures NoneTwice(ToCancel(b.subs, b.settlements, want, all, k))
    ensures forall i :: 0 <= i < |ToCancel(b.subs, b.settlements, want, all, k)| ==>
              ToCancel(b.subs, b.settlements, want, all, k)[i] in all[..k]
  {
    if k > 0 { CancelTakesOnce(b, want, all, k - 1); }
  }

  // ---- which coins ----

  /** A place in the scan: whose address, and which coin at it. */
  datatype Place = Place(whose: nat, which: nat)

  predicate Before(p: Place, q: Place) {
    p.whose < q.whose || (p.whose == q.whose && p.which < q.which)
  }

  predicate IsCoinAt(w: World, asset: Asset, subs: seq<SubId>, p: Place) {
    p.whose < |subs| && p.which < |w.utxosAt(subs[p.whose])| && w.utxosAt(subs[p.whose])[p.which].asset == asset
  }

  function CoinAt(w: World, subs: seq<SubId>, p: Place): Coin
    requires p.whose < |subs| && p.which < |w.utxosAt(subs[p.whose])|
  {
    var u := w.utxosAt(subs[p.whose])[p.which];
    Coin(u.outpoint, u.atoms, u.asset, subs[p.whose])
  }

  /** The coins are those at these places, in this order, and no coin of the asset is at another. */
  ghost predicate Lists(w: World, asset: Asset, subs: seq<SubId>, coins: seq<Coin>, at: seq<Place>) {
    && |at| == |coins|
    && (forall i :: 0 <= i < |at| ==> IsCoinAt(w, asset, subs, at[i]) && coins[i] == CoinAt(w, subs, at[i]))
    && (forall i, j :: 0 <= i < j < |at| ==> Before(at[i], at[j]))
    && (forall p :: IsCoinAt(w, asset, subs, p) ==> p in at)
  }

  /** The same up to some coins of one address. */
  ghost predicate ListsMine(found: seq<Utxo>, asset: Asset, sub: SubId, k: nat, coins: seq<Coin>, at: seq<nat>) {
    && k <= |found| && |at| == |coins|
    && (forall i :: 0 <= i < |at| ==>
          && at[i] < k && found[at[i]].asset == asset
          && coins[i] == Coin(found[at[i]].outpoint, found[at[i]].atoms, found[at[i]].asset, sub))
    && (forall i, j :: 0 <= i < j < |at| ==> at[i] < at[j])
    && (forall j :: 0 <= j < k && found[j].asset == asset ==> j in at)
  }

  lemma {:induction false} MineAre(found: seq<Utxo>, asset: Asset, sub: SubId, k: nat) returns (at: seq<nat>)
    requires k <= |found|
    ensures ListsMine(found, asset, sub, k, Mine(found, asset, sub, k), at)
  {
    if k == 0 {
      at := [];
    } else {
      at := MineAre(found, asset, sub, k - 1);
      if found[k - 1].asset == asset { at := at + [k - 1]; }
    }
  }

  ghost predicate ListsFirst(w: World, asset: Asset, subs: seq<SubId>, k: nat, coins: seq<Coin>, at: seq<Place>) {
    && k <= |subs| && |at| == |coins|
    && (forall i :: 0 <= i < |at| ==>
          at[i].whose < k && IsCoinAt(w, asset, subs, at[i]) && coins[i] == CoinAt(w, subs, at[i]))
    && (forall i, j :: 0 <= i < j < |at| ==> Before(at[i], at[j]))
    && (forall p :: IsCoinAt(w, asset, subs, p) && p.whose < k ==> p in at)
  }

  function PlacesAt(whose: nat, which: seq<nat>): (r: seq<Place>)
    ensures |r| == |which| && forall i :: 0 <= i < |r| ==> r[i] == Place(whose, which[i])
  {
    seq(|which|, i requires 0 <= i < |which| => Place(whose, which[i]))
  }

  lemma {:induction false} CoinsAreUpTo(w: World, asset: Asset, subs: seq<SubId>, k: nat) returns (at: seq<Place>)
    requires k <= |subs|
    ensures ListsFirst(w, asset, subs, k, CoinsOf(w, asset, subs, k), at)
  {
    if k == 0 {
      at := [];
    } else {
      var before := CoinsAreUpTo(w, asset, subs, k - 1);
      var found := w.utxosAt(subs[k - 1]);
      var mine := MineAre(found, asset, subs[k - 1], |found|);
      at := before + PlacesAt(k - 1, mine);
      OneAddressMore(w, asset, subs, k, before, mine, at);
    }
  }

  lemma OneAddressMore(w: World, asset: Asset, subs: seq<SubId>, k: nat, before: seq<Place>, mine: seq<nat>, at: seq<Place>)
    requires 0 < k <= |subs| && at == before + PlacesAt(k - 1, mine)
    requires ListsFirst(w, asset, subs, k - 1, CoinsOf(w, asset, subs, k - 1), before)
    requires var found := w.utxosAt(subs[k - 1]);
             ListsMine(found, asset, subs[k - 1], |found|, Mine(found, asset, subs[k - 1], |found|), mine)
    ensures ListsFirst(w, asset, subs, k, CoinsOf(w, asset, subs, k), at)
  {
    hide Mine;
    var found := w.utxosAt(subs[k - 1]);
    var coins, fore, own := CoinsOf(w, asset, subs, k), CoinsOf(w, asset, subs, k - 1), Mine(found, asset, subs[k - 1], |found|);
    assert coins == fore + own;
    hide CoinsOf;
    forall i | 0 <= i < |at|
      ensures at[i].whose < k && IsCoinAt(w, asset, subs, at[i]) && coins[i] == CoinAt(w, subs, at[i])
    {
      if i >= |before| { OwnCoin(w, asset, subs, k, mine, own, i - |before|); }
    }
    InOrder(before, k - 1, mine);
    forall p | IsCoinAt(w, asset, subs, p) && p.whose < k ensures p in at {
      if p.whose == k - 1 {
        assert p.which in mine;
        var i :| 0 <= i < |mine| && mine[i] == p.which;
        assert at[|before| + i] == p;
      }
    }
  }

  lemma OwnCoin(w: World, asset: Asset, subs: seq<SubId>, k: nat, mine: seq<nat>, own: seq<Coin>, i: nat)
    requires 0 < k <= |subs| && i < |mine|
    requires var found := w.utxosAt(subs[k - 1]); ListsMine(found, asset, subs[k - 1], |found|, own, mine)
    ensures IsCoinAt(w, asset, subs, Place(k - 1, mine[i])) && own[i] == CoinAt(w, subs, Place(k - 1, mine[i]))
  {
  }

  lemma InOrder(before: seq<Place>, whose: nat, mine: seq<nat>)
    requires forall i :: 0 <= i < |before| ==> before[i].whose < whose
    requires forall i, j :: 0 <= i < j < |before| ==> Before(before[i], before[j])
    requires forall i, j :: 0 <= i < j < |mine| ==> mine[i] < mine[j]
    ensures var at := before + PlacesAt(whose, mine);
            forall i, j :: 0 <= i < j < |at| ==> Before(at[i], at[j])
  {
  }

  /** The coins taken are every coin of the payment asset the node finds at these subscriptions'
      addresses, each once, as the node tells it. */
  lemma CoinsAre(w: World, asset: Asset, subs: seq<SubId>) returns (at: seq<Place>)
    ensures Lists(w, asset, subs, CoinsOf(w, asset, subs, |subs|), at)
  {
    at := CoinsAreUpTo(w, asset, subs, |subs|);
  }

  lemma AddressHasCoinIff(w: World, asset: Asset, subs: seq<SubId>, sub: SubId)
    ensures HasCoin(CoinsOf(w, asset, subs, |subs|), |CoinsOf(w, asset, subs, |subs|)|, sub)
            <==> sub in subs && exists j :: 0 <= j < |w.utxosAt(sub)| && w.utxosAt(sub)[j].asset == asset
  {
    var coins := CoinsOf(w, asset, subs, |subs|);
    var at := CoinsAre(w, asset, subs);
    hide CoinsOf;
    if HasCoin(coins, |coins|, sub) {
      var i :| 0 <= i < |coins| && coins[i].sub == sub;
      assert IsCoinAt(w, asset, subs, at[i]);
    }
    if sub in subs && exists j :: 0 <= j < |w.utxosAt(sub)| && w.utxosAt(sub)[j].asset == asset {
      var j :| 0 <= j < |w.utxosAt(sub)| && w.utxosAt(sub)[j].asset == asset;
      var i := WhichCoin(w, asset, subs, coins, at, sub, j);
    }
  }

  // ---- which coins are free ----

  /** A spend the program counts a coin as taken by. */
  predicate Covering(sp: Spend, coin: Outpoint) {
    (sp.state == Built || sp.state == Broadcasting || sp.state == Broadcast) && HasInput(sp, coin)
  }

  predicate HasInput(sp: Spend, coin: Outpoint) {
    exists k :: 0 <= k < |sp.coins| && sp.coins[k].outpoint == coin
  }

  /** Spend i is the last that takes a coin, those built of one kind not counted. */
  predicate LastToCover(spends: seq<Spend>, except: Option<Kind>, coin: Outpoint, i: nat) {
    && i < |spends| && CoveringBar(spends[i], except, coin)
    && forall j :: i < j < |spends| ==> !CoveringBar(spends[j], except, coin)
  }

  predicate CoveringBar(sp: Spend, except: Option<Kind>, coin: Outpoint) {
    Covering(sp, coin) && !(sp.state == Built && Some(sp.kind) == except)
  }

  lemma {:induction false} HolderIs(spends: seq<Spend>, n: nat, except: Option<Kind>, coin: Outpoint)
    requires n <= |spends|
    ensures match LastHolder(spends, n, except, coin)
            case None => forall i :: 0 <= i < n ==> !CoveringBar(spends[i], except, coin)
            case Some(i) => i < n && CoveringBar(spends[i], except, coin)
                            && forall j :: i < j < n ==> !CoveringBar(spends[j], except, coin)
  {
    if n > 0 {
      HolderIs(spends, n - 1, except, coin);
      assert coin in Outpoints(spends[n - 1].coins) <==> HasInput(spends[n - 1], coin);
    }
  }

  /** A coin may be taken if and only if nothing covers it but unsigned spends of the new one's own
      kind -- or the last to cover it is an unsigned cancel, and the new one a refund. */
  lemma FreeIff(spends: seq<Spend>, kind: Kind, coin: Outpoint)
    ensures CoinFree(spends, kind, coin) <==>
            forall i :: 0 <= i < |spends| && LastToCover(spends, Some(kind), coin, i) ==>
              kind == Refund && spends[i].kind == Cancel && spends[i].state == Built
  {
    HolderIs(spends, |spends|, Some(kind), coin);
    var h := LastHolder(spends, |spends|, Some(kind), coin);
    hide CoveringBar;
    if h.Some? {
      assert LastToCover(spends, Some(kind), coin, h.value);
    }
    forall i | 0 <= i < |spends| && LastToCover(spends, Some(kind), coin, i) ensures h == Some(i) {
    }
  }

  /** On its way somewhere, in a spend that is not a cancel still waiting for a signature. */
  predicate OnItsWay(spends: seq<Spend>, coin: Outpoint) {
    exists i :: 0 <= i < |spends| && LastToCover(spends, None, coin, i) && !(spends[i].kind == Cancel && spends[i].state == Built)
  }

  lemma UnderwayIff(spends: seq<Spend>, coin: Outpoint)
    ensures Underway(spends, coin) <==> OnItsWay(spends, coin)
  {
    HolderIs(spends, |spends|, None, coin);
    var h := LastHolder(spends, |spends|, None, coin);
    if h.Some? { assert LastToCover(spends, None, coin, h.value); }
  }

  // ---- whom a pass after the deadline refunds ----

  predicate TakenByRefund(b: Books, asset: Asset, w: World, all: seq<SubId>, sub: SubId) {
    && sub in all
    && (sub in b.subs && (b.subs[sub] == Created || b.subs[sub] == InEscrow) && sub in b.settlements ==>
          NoTokens(b.settlements[sub]))
    && (exists j :: 0 <= j < |w.utxosAt(sub)| && w.utxosAt(sub)[j].asset == asset)
    && (forall j :: 0 <= j < |w.utxosAt(sub)| && w.utxosAt(sub)[j].asset == asset ==>
          !OnItsWay(b.spends, w.utxosAt(sub)[j].outpoint))
  }

  lemma {:induction false} DueAre(spends: seq<Spend>, coins: seq<Coin>, subs: seq<SubId>, k: nat)
    requires k <= |subs|
    ensures forall sub :: sub in DueOf(spends, coins, subs, k) <==>
              sub in subs[..k] && HasCoin(coins, |coins|, sub) && !HasHeldCoin(spends, coins, |coins|, sub)
    ensures NoneTwice(subs) ==> NoneTwice(DueOf(spends, coins, subs, k))
  {
    if k > 0 {
      DueAre(spends, coins, subs, k - 1);
      assert subs[..k] == subs[..k - 1] + [subs[k - 1]];
    }
  }

  lemma AddressHeldIff(w: World, asset: Asset, spends: seq<Spend>, subs: seq<SubId>, sub: SubId)
    requires sub in subs
    ensures HasHeldCoin(spends, CoinsOf(w, asset, subs, |subs|), |CoinsOf(w, asset, subs, |subs|)|, sub)
            <==> exists j :: 0 <= j < |w.utxosAt(sub)| && w.utxosAt(sub)[j].asset == asset
                             && OnItsWay(spends, w.utxosAt(sub)[j].outpoint)
  {
    var coins := CoinsOf(w, asset, subs, |subs|);
    var at := CoinsAre(w, asset, subs);
    hide CoinsOf, Underway, OnItsWay, LastToCover;
    if HasHeldCoin(spends, coins, |coins|, sub) {
      var i :| 0 <= i < |coins| && coins[i].sub == sub && Underway(spends, coins[i].outpoint);
      UnderwayIff(spends, coins[i].outpoint);
      assert IsCoinAt(w, asset, subs, at[i]);
    }
    if j: nat :| j < |w.utxosAt(sub)| && w.utxosAt(sub)[j].asset == asset && OnItsWay(spends, w.utxosAt(sub)[j].outpoint) {
      var i := WhichCoin(w, asset, subs, coins, at, sub, j);
      UnderwayIff(spends, coins[i].outpoint);
    }
  }

  lemma WhichCoin(w: World, asset: Asset, subs: seq<SubId>, coins: seq<Coin>, at: seq<Place>, sub: SubId, j: nat) returns (i: nat)
    requires Lists(w, asset, subs, coins, at) && sub in subs
    requires j < |w.utxosAt(sub)| && w.utxosAt(sub)[j].asset == asset
    ensures i < |coins| && coins[i].sub == sub && coins[i].outpoint == w.utxosAt(sub)[j].outpoint
  {
    var k :| 0 <= k < |subs| && subs[k] == sub;
    assert IsCoinAt(w, asset, subs, Place(k, j));
    i :| 0 <= i < |at| && at[i] == Place(k, j);
  }

  lemma UndeliveredAre(b: Books, all: seq<SubId>, sub: SubId)
    ensures sub in Undelivered(b.subs, b.settlements, all, |all|) <==>
            && sub in all
            && (sub in b.subs && (b.subs[sub] == Created || b.subs[sub] == InEscrow) && sub in b.settlements ==>
                  NoTokens(b.settlements[sub]))
  {
    UndeliveredUpTo(b, all, |all|, sub);
    assert all[..|all|] == all;
    hide Undelivered;
  }

  lemma {:induction false} UndeliveredUpTo(b: Books, all: seq<SubId>, k: nat, sub: SubId)
    requires k <= |all|
    ensures sub in Undelivered(b.subs, b.settlements, all, k) <==> sub in all[..k] && MayRefund(b.subs, b.settlements, sub)
  {
    hide MayRefund;
    if k > 0 {
      UndeliveredUpTo(b, all, k - 1, sub);
      assert all[..k] == all[..k - 1] + [all[k - 1]];
    }
  }

  /** A refund pass takes exactly those listed whose tokens are not delivered, or whose money is
      settled or refunded already, with a coin at their address and none of those on its way. */
  lemma RefundTakes(b: Books, asset: Asset, w: World, all: seq<SubId>, sub: SubId)
    ensures sub in RefundsDue(b, asset, w, all) <==> TakenByRefund(b, asset, w, all, sub)
  {
    hide Undelivered, OnItsWay, HasCoin, HasHeldCoin, CoinsOf, DueOf;
    var subs := Undelivered(b.subs, b.settlements, all, |all|);
    UndeliveredAre(b, all, sub);
    DueAre(b.spends, CoinsOf(w, asset, subs, |subs|), subs, |subs|);
    assert subs[..|subs|] == subs;
    AddressHasCoinIff(w, asset, subs, sub);
    if sub in subs { AddressHeldIff(w, asset, b.spends, subs, sub); }
  }

  lemma {:induction false} UndeliveredOnce(b: Books, all: seq<SubId>, k: nat)
    requires k <= |all| && NoneTwice(all)
    ensures NoneTwice(Undelivered(b.subs, b.settlements, all, k))
    ensures forall i :: 0 <= i < |Undelivered(b.subs, b.settlements, all, k)| ==>
              Undelivered(b.subs, b.settlements, all, k)[i] in all[..k]
  {
    if k > 0 { UndeliveredOnce(b, all, k - 1); }
  }

  lemma RefundTakesOnce(b: Books, asset: Asset, w: World, all: seq<SubId>)
    requires NoneTwice(all)
    ensures NoneTwice(RefundsDue(b, asset, w, all))
  {
    var subs := Undelivered(b.subs, b.settlements, all, |all|);
    UndeliveredOnce(b, all, |all|);
    DueAre(b.spends, CoinsOf(w, asset, subs, |subs|), subs, |subs|);
  }

  // ---- the spends and rows a recorded spend leaves ----

  /** The old spends, the unsigned ones of the new one's kind superseded, and the new one. */
  predicate Replaces(before: seq<Spend>, after: seq<Spend>, sp: Spend) {
    && |after| == |before| + 1 && after[|before|] == sp
    && forall i :: 0 <= i < |before| ==>
         after[i] == if before[i].kind == sp.kind && before[i].state == Built then before[i].(state := Superseded) else before[i]
  }

  lemma RecordingReplaces(b: Books, sp: Spend)
    ensures Replaces(b.spends, WithSpend(b, sp).spends, sp)
    ensures WithSpend(b, sp).subs == b.subs && WithSpend(b, sp).settlements == b.settlements
  {
  }

  /** Everyone taken is marked, and every other row is as it was. */
  predicate MarksOnly(before: Rows, after: Rows, who: set<SubId>) {
    && after.Keys == before.Keys + who
    && forall sub :: sub in after ==>
         after[sub] == if sub !in who then before[sub]
                       else (if sub in before then before[sub]
                           else Settlement(Pending, None, None, None)).(phase := AwaitingCancel)
  }

  lemma MarkingMarksOnly(rows: Rows, who: set<SubId>)
    ensures MarksOnly(rows, CancelRows(rows, who), who)
  {
  }

  /** What a cancel recorded and marked leaves of the books it found. */
  lemma CancelMeans(b: Books, sp: Spend, subs: seq<SubId>)
    ensures var b' := Stopped(CancelRecorded(Locked(b, Serving), sp, subs));
            && b'.subs == b.subs && Replaces(b.spends, b'.spends, sp) && MarksOnly(b.settlements, b'.settlements, Named(subs))
  {
    RecordingReplaces(Locked(b, Serving), sp);
    MarkingMarksOnly(b.settlements, Named(subs));
  }

  lemma NothingMarked(rows: Rows)
    ensures MarksOnly(rows, rows, {})
  {
  }

  /** One of the outputs but the fee's -- of the first, if there is no other -- is unspent. */
  predicate SeenUnspent(sp: Spend, node: Node) {
    exists n :: 0 <= n < (if |sp.outputs| < 2 then 1 else |sp.outputs| - 1) && node.unspent(Outpoint(sp.txid, n)) == There
  }

  predicate SeesCoinSpent(sp: Spend, node: Node) {
    exists k :: 0 <= k < |sp.coins| && node.unspent(sp.coins[k].outpoint) == Gone
  }

  /** What becomes of a spend sent: on chain if taken or seen there; failed if not, and a coin of
      it is spent; set back to wait for signatures if refused -- a refund, which has none, is set
      aside -- and else still under way. */
  function StateOnceSent(sp: Spend, node: Node): SpendState {
    if node.sent == Accepted || SeenUnspent(sp, node) then Broadcast
    else if SeesCoinSpent(sp, node) then SpendState.Failed
    else if node.sent == Refused then (if sp.kind == Refund then Superseded else Built)
    else Broadcasting
  }

  lemma FateIs(sp: Spend, node: Node)
    ensures match FateOf(sp, node)
            case Lands => StateOnceSent(sp, node) == Broadcast
            case Becomes(to) => StateOnceSent(sp, node) == to && to != Broadcast && to != Broadcasting
            case Waits => StateOnceSent(sp, node) == Broadcasting
  {
  }

  /** Sending changes one spend's state, as the node's answers say, and rows only if it landed. */
  lemma SendingIs(b: Books, at: nat, node: Node)
    requires at < |b.spends| && b.spends[at].state == Broadcasting
    ensures var b' := Finished(b, at, node);
            && b'.spends == b.spends[at := b.spends[at].(state := StateOnceSent(b.spends[at], node))]
            && (StateOnceSent(b.spends[at], node) != Broadcast ==> b'.subs == b.subs && b'.settlements == b.settlements)
            && (StateOnceSent(b.spends[at], node) == Broadcast ==> b' == Landed(b, at))
  {
    FateIs(b.spends[at], node);
    if FateOf(b.spends[at], node) == Waits { assert b.spends[at].(state := Broadcasting) == b.spends[at]; }
  }

  /** A refund pass supersedes every unsigned refund and cancel, and its own refund is as the node's
      answers leave it. */
  lemma RefundMeans(b: Books, sp: Spend, node: Node)
    requires sp.kind == Refund && sp.state == Built
    ensures var n, spends := |b.spends|, RefundSent(Locked(b, Serving), sp, node).spends;
            && |spends| == n + 1 && spends[n] == sp.(state := StateOnceSent(sp, node))
            && forall i :: 0 <= i < n ==>
                 spends[i] == if b.spends[i].state == Built && (b.spends[i].kind == Refund || b.spends[i].kind == Cancel)
                              then b.spends[i].(state := Superseded) else b.spends[i]
  {
    hide Finished, StateOnceSent, FateOf;
    var n := |b.spends|;
    var sent := Moved(Without(WithSpend(Locked(b, Serving), sp), Cancel, None), n, Broadcasting);
    assert sent.spends[n] == sp.(state := Broadcasting);
    SameAnswers(sp, node);
    SendingIs(sent, n, node);
  }

  lemma SameAnswers(sp: Spend, node: Node)
    ensures StateOnceSent(sp.(state := Broadcasting), node) == StateOnceSent(sp, node)
    ensures FateOf(sp.(state := Broadcasting), node) == FateOf(sp, node)
  {
    var sent := sp.(state := Broadcasting);
    assert StillThere(sent, node) <==> StillThere(sp, node);
    assert CoinGone(sent, node) <==> CoinGone(sp, node);
    FateIs(sp, node);
    FateIs(sent, node);
  }

  lemma AskedFor(w: World, t: Terms, kind: Kind, subs: seq<SubId>, sp: Spend)
    requires Returns(w, t, kind, subs, sp)
    ensures sp.subs == subs
  {
  }

  lemma SameDue(b: Books, asset: Asset, w: World, all: seq<SubId>)
    ensures RefundsDue(Locked(b, Serving), asset, w, all) == RefundsDue(b, asset, w, all)
  {
  }

  lemma RecordingKeepsSubs(b: Books, sp: Spend)
    ensures Without(WithSpend(b, sp), Cancel, None).subs == b.subs
  {
  }

  /** The ledger once a spend has landed. */
  function LedgerOfOne(sp: Spend, known: set<SubId>, ledger: seq<Entry>, quote: Quote): seq<Entry> {
    LandedLedger(ledger, known, sp.kind, sp.coins, sp.outputs, sp.networkFee, sp.txid, quote)
  }

  lemma SentAs(b: Books, at: nat, sp: Spend, node: Node, ledger: seq<Entry>, quote: Quote)
    requires at < |b.spends| && b.spends[at] == sp
    ensures LedgerOf(b, at, ledger, quote) == LedgerOfOne(sp, b.subs.Keys, ledger, quote)
    ensures FateOf(sp, node) == Lands <==> StateOnceSent(sp, node) == Broadcast
  {
    FateIs(sp, node);
  }

  // ---- what a landing does to the rows ----

  /** A landed release settles everyone it covers; a landed cancel or refund returns those neither
      settled nor refunded before, and nobody else changes. */
  lemma LandedIs(b: Books, at: nat, sub: SubId)
    requires at < |b.spends|
    ensures var sp, b' := b.spends[at], Landed(b, at);
            var covered := sub in b.subs && exists k :: 0 <= k < |sp.coins| && sp.coins[k].sub == sub;
            var row := if sub in b.settlements then b.settlements[sub] else Settlement(Pending, None, None, None);
            && b'.subs.Keys == b.subs.Keys
            && (!covered ==>
                  && (sub in b.subs ==> b'.subs[sub] == b.subs[sub])
                  && (sub in b'.settlements <==> sub in b.settlements)
                  && (sub in b.settlements ==> b'.settlements[sub] == row))
            && (covered && sp.kind == Release ==>
                  && b'.subs[sub] == SubState.Settled
                  && sub in b'.settlements
                  && b'.settlements[sub] == Settlement(Phase.Settled, row.delivery, Some(sp.txid), row.refund))
            && (covered && sp.kind != Release && (b.subs[sub] == Created || b.subs[sub] == InEscrow) ==>
                  && b'.subs[sub] == SubState.Refunded
                  && sub in b'.settlements
                  && b'.settlements[sub] == Settlement(Phase.Refunded, row.delivery, row.release, Some(sp.txid)))
            && (covered && sp.kind != Release && (b.subs[sub] == SubState.Settled || b.subs[sub] == SubState.Refunded) ==>
                  && b'.subs[sub] == b.subs[sub]
                  && sub in b'.settlements && b'.settlements[sub] == row)
            && b'.spends == b.spends[at := sp.(state := Broadcast)]
  {
    var sp := b.spends[at];
    assert sub in Subs(sp.coins) <==> exists k :: 0 <= k < |sp.coins| && sp.coins[k].sub == sub;
  }

  // ---- when a spend can be built ----

  /** A cancel or refund can be built if and only if there is a coin, all are free, each goes back
      to a script, and each keeps something after a share of the fee within the cap. */
  lemma ReturnBuiltIff(w: World, t: Terms, spends: seq<Spend>, kind: Kind, subs: seq<SubId>)
    requires kind != Release
    ensures var coins, fee := CoinsOf(w, t.payAsset, subs, |subs|), ReturnFeeNow(w, t, kind, subs);
            MayReturn(w, t, spends, kind, subs) <==>
              && coins != []
              && forall k :: 0 <= k < |coins| ==>
                   && CoinFree(spends, kind, coins[k].outpoint)
                   && w.refundScript(coins[k].sub) != NO_SCRIPT
                   && Keep(fee, |coins|, k) <= t.feeCap && Keep(fee, |coins|, k) < coins[k].atoms
  {
    var coins := CoinsOf(w, t.payAsset, subs, |subs|);
    forall k | 0 <= k < |coins| ensures RefundScript(RefundsOf(w, subs), coins[k].sub) == w.refundScript(coins[k].sub) {
      assert coins[k].sub in Named(subs);
    }
  }

  /** What a subscriber paid above the price, if a price was set. */
  function Overpaid(w: World, coins: seq<Coin>, sub: SubId): nat {
    var paid, price := PaidIn(coins, |coins|, sub), w.payAmount(sub);
    if price > 0 && paid > price then paid - price else 0
  }

  lemma {:induction false} ListedAre(who: seq<Subscriber>, amounts: seq<nat>, k: nat, e: Excess)
    requires k <= |who| == |amounts|
    ensures e in Listed(who, amounts, k) <==>
            exists i :: 0 <= i < k && amounts[i] > 0 && e == Excess(who[i].id, who[i].refundScript, amounts[i])
  {
    if k > 0 { ListedAre(who, amounts, k - 1, e); }
  }

  /** The excess list is of exactly those who overpaid, each with their own script and amount. */
  lemma ExcessIs(w: World, coins: seq<Coin>, subs: seq<SubId>, e: Excess)
    requires Sum(Atoms(coins)) < U64
    ensures e in ExcessOf(w, coins, subs) <==>
            && e.sub in subs && e.refundScript == w.refundScript(e.sub)
            && e.atoms == Overpaid(w, coins, e.sub) > 0
  {
    var who := Subscribers(w, subs);
    OwedIsOverpaid(coins, who);
    ListedAre(who, Owed(coins, who), |who|, e);
    if e.sub in subs {
      var i :| 0 <= i < |subs| && subs[i] == e.sub;
      assert who[i] == Subscriber(e.sub, w.payAmount(e.sub), w.refundScript(e.sub));
    }
  }

  /** A release can be built if and only if there is a coin, all are free, whoever is paid has a
      script, and the deductions leave the issuer the minimum, in the program's arithmetic. */
  lemma ReleaseBuiltIff(w: World, t: Terms, spends: seq<Spend>, subs: seq<SubId>, fee: nat)
    requires Sum(Atoms(CoinsOf(w, t.payAsset, subs, |subs|))) < U64
    ensures var coins, net := CoinsOf(w, t.payAsset, subs, |subs|), ReleaseFeeNow(w, t, subs, fee);
            var back := Sum(ExcessAtoms(ExcessOf(w, coins, subs)));
            MayRelease(w, t, spends, subs, fee) <==>
              && coins != [] && (forall k :: 0 <= k < |coins| ==> CoinFree(spends, Release, coins[k].outpoint))
              && (fee > 0 ==> w.platform != NO_SCRIPT)
              && (forall sub :: sub in subs && Overpaid(w, coins, sub) > 0 ==> w.refundScript(sub) != NO_SCRIPT)
              && (back + fee + net) % U64 <= Sum(Atoms(coins))
              && t.minimum <= (Sum(Atoms(coins)) - back - fee - net) % U64
  {
    hide CoinsOf, ExcessOf, ReleaseFeeNow, Overpaid, CoinFree;
    var coins := CoinsOf(w, t.payAsset, subs, |subs|);
    PayableIff(w, coins, subs);
    DeductionsWrap(Sum(Atoms(coins)), Sum(ExcessAtoms(ExcessOf(w, coins, subs))), fee, ReleaseFeeNow(w, t, subs, fee));
  }

  lemma PayableIff(w: World, coins: seq<Coin>, subs: seq<SubId>)
    requires Sum(Atoms(coins)) < U64
    ensures PayableExcess(ExcessOf(w, coins, subs))
            <==> forall sub :: sub in subs && Overpaid(w, coins, sub) > 0 ==> w.refundScript(sub) != NO_SCRIPT
  {
    var excess := ExcessOf(w, coins, subs);
    forall e ensures e in excess <==> e.sub in subs && e.refundScript == w.refundScript(e.sub)
                                      && e.atoms == Overpaid(w, coins, e.sub) > 0
    {
      ExcessIs(w, coins, subs, e);
    }
    hide ExcessOf, Overpaid;
    if PayableExcess(excess) {
      forall sub | sub in subs && Overpaid(w, coins, sub) > 0 ensures w.refundScript(sub) != NO_SCRIPT {
        var e := Excess(sub, w.refundScript(sub), Overpaid(w, coins, sub));
        assert e in excess;
      }
    }
  }

  lemma DeductionsWrap(total: nat, back: nat, fee: nat, net: nat)
    ensures Wrap64(Wrap64(back) + fee + net) == (back + fee + net) % U64
    ensures Minus64(Wrap64(total) - Wrap64(back) - fee - net) == (total - back - fee - net) % U64
  {
  }

  /** The escrow fee of several subscriptions is the sum of their fees, in uint64. */
  lemma {:induction false} FeesTogetherAre(ledger: seq<Entry>, subs: seq<SubId>, quote: Quote, k: nat)
    requires k <= |subs|
    ensures FeesTogether(ledger, subs, quote, k) == SumTo(FeeList(ledger, subs, quote), k) % U64
  {
    if k > 0 {
      FeesTogetherAre(ledger, subs, quote, k - 1);
      WrapAdd(SumTo(FeeList(ledger, subs, quote), k - 1), FeeOf(ledger, subs[k - 1], quote));
    }
  }

  // ---- one delivery, and what a close hands out ----

  /** An attempt leaves alone what is over; else it fails when the account is not known or the
      transfer is refused, and succeeds when a delivery is recorded, seen, or made. */
  lemma AttemptIs(st: Settlement, p: Policy)
    ensures var after := Attempt(st, p);
            && after.release == st.release && after.refund == st.refund
            && (st.phase != Pending && st.phase != Delivering ==> after == st)
            && (st.phase == Pending || st.phase == Delivering ==>
                  && (after.phase == DeliveryFailed <==>
                        !p.known || (st.delivery == None && st.phase == Pending && p.transfer == None))
                  && (after.phase == AwaitingRelease <==>
                        p.known && (st.delivery.Some? || (st.phase == Pending && p.transfer.Some?)
                            || (st.phase == Delivering && p.landed)))
                  && (after.phase == DeliveryFailed || after.phase == AwaitingRelease || after == st)
                  && (after.phase == AwaitingRelease ==>
                        after.delivery == if st.delivery.Some? then st.delivery
                                          else if st.phase == Pending then p.transfer else Some(0))
                  && (after.phase != AwaitingRelease ==> after.delivery == st.delivery))
    ensures Asks(st, p) <==> st.phase == Pending && st.delivery == None && p.known
  {
  }

  lemma {:induction false} ReadyAre(rows: Rows, covenant: seq<SubId>, k: nat)
    requires k <= |covenant|
    ensures forall sub ::
              sub in Ready(rows, covenant, k) <==> sub in covenant[..k] && sub in rows && rows[sub].phase == AwaitingRelease
    ensures forall sub :: sub in Unready(rows, covenant, k) <==>
              sub in covenant[..k] && sub in rows && (rows[sub].phase == DeliveryFailed || rows[sub].phase == AwaitingCancel)
    ensures NoneTwice(covenant) ==> NoneTwice(Ready(rows, covenant, k)) && NoneTwice(Unready(rows, covenant, k))
  {
    if k > 0 {
      ReadyAre(rows, covenant, k - 1);
      assert covenant[..k] == covenant[..k - 1] + [covenant[k - 1]];
    }
  }

  /** The first check is over all but those whose delivery failed, or whose money goes or went back. */
  lemma {:induction false} StillSoldAre(rows: Rows, covenant: seq<SubId>, k: nat)
    requires k <= |covenant|
    ensures forall sub :: sub in StillSold(rows, covenant, k) <==>
              sub in covenant[..k]
              && (sub in rows ==> rows[sub].phase == Pending || rows[sub].phase == Delivering
                                  || rows[sub].phase == AwaitingRelease || rows[sub].phase == Phase.Settled)
    ensures NoneTwice(covenant) ==> NoneTwice(StillSold(rows, covenant, k))
  {
    if k > 0 {
      StillSoldAre(rows, covenant, k - 1);
      assert covenant[..k] == covenant[..k - 1] + [covenant[k - 1]];
    }
  }

  /** A spend that can be handed out again: of that kind, for the same subscriptions, and neither
      superseded nor failed. */
  predicate Alike(sp: Spend, kind: Kind, subs: seq<SubId>) {
    sp.kind == kind && (sp.state == Built || sp.state == Broadcasting || sp.state == Broadcast)
        && multiset(sp.subs) == multiset(subs)
  }

  lemma {:induction false} LastLikeIs(spends: seq<Spend>, n: nat, kind: Kind, subs: seq<SubId>)
    requires n <= |spends|
    ensures match LastLike(spends, n, kind, subs)
            case None => forall i :: 0 <= i < n ==> !Alike(spends[i], kind, subs)
            case Some(i) => i < n && Alike(spends[i], kind, subs) && forall j :: i < j < n ==> !Alike(spends[j], kind, subs)
  {
    if n > 0 { LastLikeIs(spends, n - 1, kind, subs); }
  }

  /** A close releases exactly those of its subscriptions that are delivered, and cancels and marks
      exactly those whose delivery failed. */
  lemma CloseTakes(d: Books, t: Terms, ledger: seq<Entry>, covenant: seq<SubId>, w1: World, w2: World,
                   release: Option<Spend>, cancel: Option<Spend>, handed: bool)
    requires HandedOut(d, t, ledger, covenant, w1, w2, release, cancel, handed)
    ensures release.Some? ==>
              forall sub :: sub in release.value.subs <==> sub in covenant && PhaseIs(d.settlements, sub, AwaitingRelease)
    ensures cancel.Some? ==>
              forall sub :: sub in cancel.value.subs <==>
                sub in covenant && (PhaseIs(d.settlements, sub, DeliveryFailed) || PhaseIs(d.settlements, sub, AwaitingCancel))
  {
    hide MayRelease, MayReturn, LastLike, Ready, Unready;
    ReadyAre(d.settlements, covenant, |covenant|);
    assert covenant[..|covenant|] == covenant;
  }

  /** Once a cancel is handed out, every failed delivery of the close awaits it; no other row changes. */
  lemma CloseMarks(d: Books, covenant: seq<SubId>, release: Option<Spend>, cancel: Option<Spend>, handed: bool)
    ensures var rows := Closed(d, covenant, release, cancel, handed).settlements;
            && rows.Keys == d.settlements.Keys
            && forall sub :: sub in rows ==>
                 rows[sub] == if handed && sub in covenant && d.settlements[sub].phase == DeliveryFailed
                              then d.settlements[sub].(phase := AwaitingCancel) else d.settlements[sub]
  {
    hide Unready;
    ReadyAre(d.settlements, covenant, |covenant|);
    assert covenant[..|covenant|] == covenant;
  }

  /** Attempts touch no row but those of the subscriptions attempted. */
  lemma {:induction false} OthersUntouched(b: Books, covenant: seq<SubId>, p: SubId -> Policy, k: nat, sub: SubId)
    requires k <= |covenant| && sub !in covenant[..k]
    ensures var rows := AfterDeliveries(b, covenant, p, k).settlements;
            (sub in rows <==> sub in b.settlements) && (sub in rows ==> rows[sub] == b.settlements[sub])
  {
    hide Attempt, Asks;
    if k > 0 {
      assert covenant[..k] == covenant[..k - 1] + [covenant[k - 1]];
      OthersUntouched(b, covenant, p, k - 1, sub);
    }
  }

  /** The rows a close leaves: those it attempted as the attempt left them, once a cancel is handed
      out every failed one awaiting it, and every other row as it was. */
  ghost predicate ClosedRows(before: Rows, after: Rows, covenant: seq<SubId>, p: SubId -> Policy, done: nat, handed: bool) {
    && (forall sub :: sub !in covenant ==> (sub in after <==> sub in before) && (sub in after ==> after[sub] == before[sub]))
    && (forall j :: 0 <= j < |covenant| ==>
          && (covenant[j] in after <==> j < done || covenant[j] in before)
          && RowOf(after, covenant[j]) == ClosedRow(RowOf(before, covenant[j]), p(covenant[j]), j < done, handed))
  }

  function ClosedRow(st: Settlement, p: Policy, tried: bool, handed: bool): Settlement {
    var after := if tried then Attempt(st, p) else st;
    if handed && after.phase == DeliveryFailed then after.(phase := AwaitingCancel) else after
  }

  lemma {:induction false} AttemptedHaveRows(b: Books, covenant: seq<SubId>, p: SubId -> Policy, k: nat, sub: SubId)
    requires k <= |covenant|
    ensures sub in AfterDeliveries(b, covenant, p, k).settlements <==> sub in covenant[..k] || sub in b.settlements
  {
    hide Attempt, Asks;
    if k > 0 {
      assert covenant[..k] == covenant[..k - 1] + [covenant[k - 1]];
      AttemptedHaveRows(b, covenant, p, k - 1, sub);
    }
  }

  lemma CloseRowsAre(b: Books, covenant: seq<SubId>, p: SubId -> Policy, done: nat, release: Option<Spend>,
                     cancel: Option<Spend>, handed: bool)
    requires done <= |covenant| && Paid(b, covenant)
    ensures var b' := Closed(AfterDeliveries(b, covenant, p, done), covenant, release, cancel, handed);
            ClosedRows(b.settlements, b'.settlements, covenant, p, done, handed)
  {
    hide Attempt, Closed, AfterDeliveries;
    var d := AfterDeliveries(b, covenant, p, done);
    CloseMarks(d, covenant, release, cancel, handed);
    forall sub ensures sub in d.settlements <==> sub in covenant[..done] || sub in b.settlements {
      AttemptedHaveRows(b, covenant, p, done, sub);
    }
    forall sub | sub !in covenant ensures (sub in d.settlements <==> sub in b.settlements)
                                          && (sub in d.settlements ==> d.settlements[sub] == b.settlements[sub])
    {
      OthersUntouched(b, covenant, p, done, sub);
    }
    forall j | 0 <= j < |covenant|
      ensures RowOf(d.settlements, covenant[j])
              == if j < done then Attempt(RowOf(b.settlements, covenant[j]), p(covenant[j]))
                  else RowOf(b.settlements, covenant[j])
      ensures covenant[j] in covenant[..done] <==> j < done
    {
      DeliveriesAre(b, covenant, p, done, j);
      if j < done { assert covenant[..done][j] == covenant[j]; }
    }
  }

  /** A spend handed out covers exactly the close's subscriptions in this phase. */
  ghost predicate CoversThose(sp: Option<Spend>, covenant: seq<SubId>, rows: Rows, ph: Phase) {
    sp.Some? ==> forall sub :: sub in sp.value.subs <==> sub in covenant && PhaseIs(rows, sub, ph)
  }

  /** Among the rows a close leaves, those its release covers await it, and those its cancel covers
      await that. */
  lemma CloseCovers(b: Books, t: Terms, ledger: seq<Entry>, covenant: seq<SubId>, p: SubId -> Policy, done: nat,
                    w: World, w1: World, w2: World, release: Option<Spend>, cancel: Option<Spend>, handed: bool)
    requires done <= |covenant|
    requires Closes(b, t, ledger, covenant, w, w1, w2, p, done, release, cancel, handed)
    ensures var rows := Closed(AfterDeliveries(b, covenant, p, done), covenant, release, cancel, handed).settlements;
            && CoversThose(release, covenant, rows, AwaitingRelease)
            && CoversThose(cancel, covenant, rows, AwaitingCancel)
  {
    hide AfterDeliveries, Closed, PhaseIs, HandedOut, Attempts, Tried, FeasibleNow;
    var d := AfterDeliveries(b, covenant, p, done);
    CloseTakes(d, t, ledger, covenant, w1, w2, release, cancel, handed);
    CancelIsHanded(d, t, ledger, covenant, w1, w2, release, cancel, handed);
    hide Closes;
    CloseMarks(d, covenant, release, cancel, handed);
    var rows := Closed(d, covenant, release, cancel, handed).settlements;
    if release.Some? { StillAwaits(d.settlements, rows, covenant, handed, release.value.subs); }
    if cancel.Some? { NowAwaits(d.settlements, rows, covenant, cancel.value.subs); }
  }

  lemma StillAwaits(before: Rows, after: Rows, covenant: seq<SubId>, handed: bool, subs: seq<SubId>)
    requires after.Keys == before.Keys
    requires forall sub :: sub in after ==>
               after[sub] == if handed && sub in covenant && before[sub].phase == DeliveryFailed
                             then before[sub].(phase := AwaitingCancel) else before[sub]
    requires forall sub :: sub in subs <==> sub in covenant && PhaseIs(before, sub, AwaitingRelease)
    ensures forall sub :: sub in subs <==> sub in covenant && PhaseIs(after, sub, AwaitingRelease)
  {
  }

  lemma NowAwaits(before: Rows, after: Rows, covenant: seq<SubId>, subs: seq<SubId>)
    requires after.Keys == before.Keys
    requires forall sub :: sub in after ==>
               after[sub] == if sub in covenant && before[sub].phase == DeliveryFailed
                             then before[sub].(phase := AwaitingCancel) else before[sub]
    requires forall sub :: sub in subs <==>
               sub in covenant && (PhaseIs(before, sub, DeliveryFailed) || PhaseIs(before, sub, AwaitingCancel))
    ensures forall sub :: sub in subs <==> sub in covenant && PhaseIs(after, sub, AwaitingCancel)
  {
  }

  lemma CancelIsHanded(d: Books, t: Terms, ledger: seq<Entry>, covenant: seq<SubId>, w1: World, w2: World,
                       release: Option<Spend>, cancel: Option<Spend>, handed: bool)
    requires HandedOut(d, t, ledger, covenant, w1, w2, release, cancel, handed)
    ensures cancel.Some? ==> handed
  {
    hide MayRelease, MayReturn, LastLike, Ready, Unready, Releases, Returns;
  }
}
