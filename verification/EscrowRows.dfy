/** Exactly which ledger rows a landed spend adds, subscription by subscription, and what the
    rows of a cancel or refund come to. */
module EscrowRows {
  import opened Prelude
  import opened Chain
  import opened Covenant
  import opened ReturnSpend
  import opened EscrowLedger
  import opened EscrowProtocol
  import opened EscrowPlans

  /** The rows of one kind about one subscription, or about none, among the first k. */
  function RowsAbout(ledger: seq<Entry>, k: nat, kind: EntryKind, who: Option<SubId>): seq<Entry>
    requires k <= |ledger|
  {
    if k == 0 then []
    else RowsAbout(ledger, k - 1, kind, who)
         + (if ledger[k - 1].kind == kind && ledger[k - 1].sub == who then [ledger[k - 1]] else [])
  }

  function About(ledger: seq<Entry>, kind: EntryKind, who: Option<SubId>): seq<Entry> {
    RowsAbout(ledger, |ledger|, kind, who)
  }

  lemma {:induction false} AboutAgrees(a: seq<Entry>, b: seq<Entry>, k: nat, kind: EntryKind, who: Option<SubId>)
    requires k <= |a| && k <= |b| && forall i :: 0 <= i < k ==> a[i] == b[i]
    ensures RowsAbout(a, k, kind, who) == RowsAbout(b, k, kind, who)
  {
    if k > 0 { AboutAgrees(a, b, k - 1, kind, who); }
  }

  lemma AboutSnoc(ledger: seq<Entry>, e: Entry, kind: EntryKind, who: Option<SubId>)
    ensures About(ledger + [e], kind, who) == About(ledger, kind, who) + (if e.kind == kind && e.sub == who then [e] else [])
  {
    AboutAgrees(ledger + [e], ledger, |ledger|, kind, who);
  }

  /** The fee booked is that of the first fee row. */
  lemma {:induction false} BookedIsFirst(ledger: seq<Entry>, k: nat, sub: SubId)
    requires k <= |ledger|
    ensures var rows := RowsAbout(ledger, k, FeeRow, Some(sub));
            BookedFee(ledger, k, sub) == if rows == [] then None else Some(rows[0].amount)
  {
    if k > 0 { BookedIsFirst(ledger, k - 1, sub); }
  }

  /** What a subscription's fee is: the first one booked, else the one quoted. */
  lemma FeeIs(ledger: seq<Entry>, sub: SubId, quote: Quote)
    ensures var rows := About(ledger, FeeRow, Some(sub));
            FeeOf(ledger, sub, quote) == if rows == [] then quote(sub) else rows[0].amount
  {
    BookedIsFirst(ledger, |ledger|, sub);
  }

  /** The rows a landing adds about one subscription it covers: of a release the fee not booked
      yet, what it returned if anything, and what is left for the issuer, never below zero; of a
      cancel or refund what it returned, and nothing else. */
  function Added(booked: bool, kind: Kind, what: EntryKind, sub: SubId, taken: nat, back: nat, fee: nat, txid: Txid): seq<Entry> {
    match what
    case FeeRow => if kind == Release && !booked && fee > 0 then [Entry(FeeRow, Some(sub), fee, None)] else []
    case RefundRow => if kind != Release || back > 0 then [Entry(RefundRow, Some(sub), back, Some(txid))] else []
    case ReleaseRow =>
      if kind == Release
      then [Entry(ReleaseRow, Some(sub), if taken > back + fee then taken - back - fee else 0, Some(txid))]
      else []
    case NetworkFeeRow => []
  }

  lemma RowsForAdd(ledger: seq<Entry>, kind: Kind, sub: SubId, taken: nat, back: nat, txid: Txid, quote: Quote,
                   what: EntryKind, who: Option<SubId>)
    ensures About(RowsFor(ledger, kind, sub, taken, back, txid, quote), what, who)
            == About(ledger, what, who)
               + (if who == Some(sub)
                  then Added(About(ledger, FeeRow, Some(sub)) != [], kind, what, sub, taken, back,
                      FeeOf(ledger, sub, quote), txid)
                  else [])
  {
    hide RowsAbout;
    BookedIsFirst(ledger, |ledger|, sub);
    if kind == Release {
      var fee := Entry(FeeRow, Some(sub), quote(sub), None);
      AboutSnoc(ledger, fee, what, who);
      var charged := Charged(ledger, sub, quote);
      var refund := Entry(RefundRow, Some(sub), back, Some(txid));
      AboutSnoc(charged, refund, what, who);
      var mid := charged + (if back > 0 then [refund] else []);
      if back == 0 { assert mid == charged; }
      AboutSnoc(mid, Entry(ReleaseRow, Some(sub), MinusFee(MinusFee(taken, back), FeeOf(ledger, sub, quote)),
          Some(txid)), what, who);
    } else {
      AboutSnoc(ledger, Entry(RefundRow, Some(sub), back, Some(txid)), what, who);
    }
  }

  /** Some subscription among these that the store knows. */
  predicate Concerns(these: seq<SubId>, known: set<SubId>, who: Option<SubId>) {
    who.Some? && who.value in these && who.value in known
  }

  lemma OneMoreConcerned(these: seq<SubId>, sub: SubId, known: set<SubId>, who: Option<SubId>)
    ensures Concerns(these + [sub], known, who) <==> Concerns(these, known, who) || (who == Some(sub) && sub in known)
  {
  }

  /** What a landing adds about a subscription it covers. */
  function NewRows(ledger: seq<Entry>, kind: Kind, coins: seq<Coin>, outputs: seq<Described>, txid: Txid, quote: Quote,
                   what: EntryKind, sub: SubId): seq<Entry>
  {
    Added(About(ledger, FeeRow, Some(sub)) != [], kind, what, sub, PaidIn(coins, |coins|, sub),
          PaidTo(outputs, |outputs|, sub), FeeOf(ledger, sub, quote), txid)
  }

  lemma OneMoreSub(ledger: seq<Entry>, before: seq<Entry>, kind: Kind, coins: seq<Coin>, outputs: seq<Described>,
                   sub: SubId, txid: Txid, quote: Quote, what: EntryKind, who: Option<SubId>)
    requires About(before, FeeRow, Some(sub)) == About(ledger, FeeRow, Some(sub))
    ensures About(RowsFor(before, kind, sub, PaidIn(coins, |coins|, sub), PaidTo(outputs, |outputs|, sub), txid, quote),
                  what, who)
            == About(before, what, who) + (if who == Some(sub)
                                               then NewRows(ledger, kind, coins, outputs, txid, quote, what, sub) else [])
  {
    FeeIs(before, sub, quote);
    FeeIs(ledger, sub, quote);
    RowsForAdd(before, kind, sub, PaidIn(coins, |coins|, sub), PaidTo(outputs, |outputs|, sub), txid, quote, what, who);
    hide About, Added, RowsFor, PaidIn, PaidTo, FeeOf;
  }

  lemma {:induction false} LedgerRows(ledger: seq<Entry>, known: set<SubId>, kind: Kind, coins: seq<Coin>,
                                      outputs: seq<Described>,
                                      order: seq<SubId>, k: nat, txid: Txid, quote: Quote, what: EntryKind, who: Option<SubId>)
    requires k <= |order| && forall a, b :: 0 <= a < b < |order| ==> order[a] != order[b]
    ensures About(LedgerAfter(ledger, known, kind, coins, outputs, order, k, txid, quote), what, who)
            == About(ledger, what, who)
               + (if Concerns(order[..k], known, who)
                   then NewRows(ledger, kind, coins, outputs, txid, quote, what, who.value) else [])
  {
    hide About, NewRows, RowsFor, PaidIn, PaidTo;
    if k > 0 {
      LedgerRows(ledger, known, kind, coins, outputs, order, k - 1, txid, quote, what, who);
      var sub, before := order[k - 1], LedgerAfter(ledger, known, kind, coins, outputs, order, k - 1, txid, quote);
      assert order[..k] == order[..k - 1] + [sub] && sub !in order[..k - 1];
      OneMoreConcerned(order[..k - 1], sub, known, who);
      if sub in known {
        LedgerRows(ledger, known, kind, coins, outputs, order, k - 1, txid, quote, FeeRow, Some(sub));
        OneMoreSub(ledger, before, kind, coins, outputs, sub, txid, quote, what, who);
      }
    }
  }

  /** A landing adds exactly these rows: for each subscription it covers and the store knows, the
      ones above, and for a release one row for its network fee if there is one. */
  lemma LandedRows(ledger: seq<Entry>, known: set<SubId>, kind: Kind, coins: seq<Coin>, outputs: seq<Described>,
                   networkFee: nat, txid: Txid, quote: Quote, what: EntryKind, who: Option<SubId>)
    ensures var after := LandedLedger(ledger, known, kind, coins, outputs, networkFee, txid, quote);
            About(after, what, who) == About(ledger, what, who)
              + (match who
                 case None =>
                   if kind == Release && what == NetworkFeeRow && networkFee > 0
                   then [Entry(NetworkFeeRow, None, networkFee, Some(txid))] else []
                 case Some(sub) =>
                   if sub in known && sub in Subs(coins)
                       then NewRows(ledger, kind, coins, outputs, txid, quote, what, sub) else [])
  {
    hide About, NewRows, LedgerAfter, Order;
    var order := Order(coins, |coins|);
    LedgerRows(ledger, known, kind, coins, outputs, order, |order|, txid, quote, what, who);
    assert order[..|order|] == order;
    var rows := LedgerAfter(ledger, known, kind, coins, outputs, order, |order|, txid, quote);
    if kind == Release && networkFee > 0 {
      AboutSnoc(rows, Entry(NetworkFeeRow, None, networkFee, Some(txid)), what, who);
    } else {
      assert rows + [] == rows;
    }
    assert forall sub :: sub in order <==> sub in Subs(coins);
  }

  /** Charging some subscriptions books one fee each that is not booked yet and not nothing, and no
      other row. */
  lemma {:induction false} ChargedRows(ledger: seq<Entry>, subs: seq<SubId>, quote: Quote, k: nat, what: EntryKind,
                                       who: Option<SubId>)
    requires k <= |subs|
    ensures About(AllCharged(ledger, subs, quote, k), what, who)
            == About(ledger, what, who)
               + (if what == FeeRow && who.Some? && who.value in subs[..k] && About(ledger, FeeRow, who) == []
                   && quote(who.value) > 0
                  then [Entry(FeeRow, who, quote(who.value), None)] else [])
  {
    hide About;
    if k > 0 {
      ChargedRows(ledger, subs, quote, k - 1, what, who);
      var sub, before := subs[k - 1], AllCharged(ledger, subs, quote, k - 1);
      assert subs[..k] == subs[..k - 1] + [sub];
      ChargedRows(ledger, subs, quote, k - 1, FeeRow, Some(sub));
      AboutSnoc(before, Entry(FeeRow, Some(sub), quote(sub), None), what, who);
      BookedAbout(before, sub);
    }
  }

  lemma BookedAbout(ledger: seq<Entry>, sub: SubId)
    ensures Booked(ledger, sub) == None <==> About(ledger, FeeRow, Some(sub)) == []
  {
    BookedIsFirst(ledger, |ledger|, sub);
  }

  // ---- what a cancel or refund books ----

  /** The coins with what each is returned in place of what it holds. */
  function AsReturned(coins: seq<Coin>, outputs: seq<Described>): (r: seq<Coin>)
    requires |coins| <= |outputs|
    ensures |r| == |coins|
    ensures forall k :: 0 <= k < |r| ==> r[k].sub == coins[k].sub && r[k].atoms == outputs[k].atoms
  {
    seq(|coins|, k requires 0 <= k < |coins| => coins[k].(atoms := outputs[k].atoms))
  }

  lemma {:induction false} PaidToIsReturned(coins: seq<Coin>, outputs: seq<Described>, k: nat, sub: SubId)
    requires k <= |coins| <= |outputs|
    requires forall i :: 0 <= i < |coins| ==> outputs[i].payee == ToSubscriber(coins[i].sub)
    ensures PaidTo(outputs, k, sub) == PaidIn(AsReturned(coins, outputs), k, sub)
  {
    if k > 0 { PaidToIsReturned(coins, outputs, k - 1, sub); }
  }

  lemma BacksAre(coins: seq<Coin>, outputs: seq<Described>, order: seq<SubId>)
    requires PaysEachOwner(outputs, coins) && OwnedBy(coins, order)
    requires forall a, b :: 0 <= a < b < |order| ==> order[a] != order[b]
    ensures Sum(BackList(outputs, order)) == Sum(Atoms(AsReturned(coins, outputs)))
  {
    var back := AsReturned(coins, outputs);
    forall sub ensures PaidTo(outputs, |outputs|, sub) == PaidIn(back, |back|, sub) {
      PaidToIsReturned(coins, outputs, |coins|, sub);
    }
    CoinsSplit(back, order, |back|);
    assert BackList(outputs, order) == PaidAmounts(back, |back|, order);
  }

  lemma OutputsMakeCoins(kind: Kind, t: Terms, coins: seq<Coin>, refunds: Refunds, fee: nat, outputs: seq<Described>)
    requires coins != [] && SharesFit(t, coins, fee)
    requires Describes(outputs, ReturnTx(kind, t, coins, refunds, Keeps(fee, |coins|, |coins|), fee))
    ensures |outputs| == |coins| + 1 && Sum(Atoms(AsReturned(coins, outputs))) + fee == Sum(Atoms(coins))
  {
    var n := |coins|;
    ReturnConserves(kind, t, coins, refunds, fee);
    var tx := ReturnTx(kind, t, coins, refunds, Keeps(fee, n, n), fee);
    var outs := OutAtoms(tx.outs);
    assert tx.outs[n] == PlainOut(t.payAsset, fee, NO_SCRIPT);
    assert outs[..n] == Atoms(AsReturned(coins, outputs)) && outs == outs[..n] + [fee];
    SumSnoc(outs[..n], fee);
  }

  /** What a recorded return pays out by output, summed by subscription, and the fee make up its coins. */
  lemma ReturnedMakesCoins(w: World, t: Terms, kind: Kind, subs: seq<SubId>, sp: Spend, order: seq<SubId>)
    requires kind != Release && Returns(w, t, kind, subs, sp)
    requires OwnedBy(sp.coins, order) && forall a, b :: 0 <= a < b < |order| ==> order[a] != order[b]
    ensures Sum(BackList(sp.outputs, order)) + sp.networkFee == Sum(Atoms(sp.coins))
  {
    hide Describes, ReturnTx, SharesFit, Sum;
    BacksAre(sp.coins, sp.outputs, order);
    OutputsMakeCoins(kind, t, sp.coins, RefundsOf(w, subs), sp.networkFee, sp.outputs);
  }

  lemma RefundRowSum(ledger: seq<Entry>, sub: SubId, taken: nat, back: nat, txid: Txid, kind: Kind, quote: Quote, what: EntryKind)
    requires kind != Release
    ensures var rows := RowsFor(ledger, kind, sub, taken, back, txid, quote);
            All(rows, what) == All(ledger, what) + (if what == RefundRow then back else 0)
  {
    TotalSnoc(ledger, Entry(RefundRow, Some(sub), back, Some(txid)), what);
  }

  lemma {:induction false} ReturnTotals(ledger: seq<Entry>, known: set<SubId>, kind: Kind, coins: seq<Coin>,
                                        outputs: seq<Described>,
                                        order: seq<SubId>, k: nat, txid: Txid, quote: Quote, what: EntryKind)
    requires kind != Release && k <= |order| && forall i :: 0 <= i < k ==> order[i] in known
    ensures All(LedgerAfter(ledger, known, kind, coins, outputs, order, k, txid, quote), what)
            == All(ledger, what) + (if what == RefundRow then SumTo(BackList(outputs, order), k) else 0)
  {
    hide All, RowsFor, PaidIn, PaidTo;
    if k > 0 {
      ReturnTotals(ledger, known, kind, coins, outputs, order, k - 1, txid, quote, what);
      var sub := order[k - 1];
      RefundRowSum(LedgerAfter(ledger, known, kind, coins, outputs, order, k - 1, txid, quote), sub,
                   PaidIn(coins, |coins|, sub), PaidTo(outputs, |outputs|, sub), txid, kind, quote, what);
    }
  }

  /** A recorded cancel or refund that lands is booked as returned coin for coin but for its network
      fee, and nothing is booked as released or as a fee. */
  lemma ReturnIsBooked(ledger: seq<Entry>, known: set<SubId>, w: World, t: Terms, kind: Kind, subs: seq<SubId>,
                       sp: Spend, quote: Quote)
    requires kind != Release && Returns(w, t, kind, subs, sp) && Subs(sp.coins) <= known
    ensures var after := LandedLedger(ledger, known, kind, sp.coins, sp.outputs, sp.networkFee, sp.txid, quote);
            && All(after, RefundRow) + sp.networkFee == All(ledger, RefundRow) + Sum(Atoms(sp.coins))
            && All(after, ReleaseRow) == All(ledger, ReleaseRow) && All(after, FeeRow) == All(ledger, FeeRow)
            && All(after, NetworkFeeRow) == All(ledger, NetworkFeeRow)
  {
    hide All, LedgerAfter, Order;
    var order := Order(sp.coins, |sp.coins|);
    ReturnedMakesCoins(w, t, kind, subs, sp, order);
    var rows := LedgerAfter(ledger, known, kind, sp.coins, sp.outputs, order, |order|, sp.txid, quote);
    assert rows + [] == rows;
    forall what
      ensures All(rows, what) == All(ledger, what) + (if what == RefundRow then Sum(BackList(sp.outputs, order)) else 0)
    {
      ReturnTotals(ledger, known, kind, sp.coins, sp.outputs, order, |order|, sp.txid, quote, what);
    }
  }
}
