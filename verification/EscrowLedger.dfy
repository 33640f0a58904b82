/** The ledger rows a landed escrow spend writes, and what they add up to. */
module EscrowLedger {
  import opened Prelude
  import opened Money
  import opened Chain
  import opened Covenant

  datatype EntryKind = FeeRow | ReleaseRow | RefundRow | NetworkFeeRow

  datatype Entry = Entry(kind: EntryKind, sub: Option<SubId>, amount: nat, txid: Option<Txid>)

  /** What the price list asks of each subscription when asked: nothing when it cannot be read. */
  type Quote = SubId -> nat

  // ---- the fee is fixed when it is first booked ----

  /** The first fee row of a subscription among the first k. */
  function BookedFee(ledger: seq<Entry>, k: nat, sub: SubId): Option<nat>
    requires k <= |ledger|
  {
    if k == 0 then None
    else
      var before := BookedFee(ledger, k - 1, sub);
      if before.Some? then before
      else if ledger[k - 1].kind == FeeRow && ledger[k - 1].sub == Some(sub) then Some(ledger[k - 1].amount)
      else None
  }

  function Booked(ledger: seq<Entry>, sub: SubId): Option<nat> {
    BookedFee(ledger, |ledger|, sub)
  }

  /** The fee charged: the one already booked, else the one quoted now. */
  function FeeOf(ledger: seq<Entry>, sub: SubId, quote: Quote): nat {
    if Booked(ledger, sub).Some? then Booked(ledger, sub).value else quote(sub)
  }

  /** Charging books a fee not booked yet, if there is one to book. */
  function Charged(ledger: seq<Entry>, sub: SubId, quote: Quote): seq<Entry> {
    if Booked(ledger, sub).Some? || quote(sub) == 0 then ledger
    else ledger + [Entry(FeeRow, Some(sub), quote(sub), None)]
  }

  lemma {:induction false} BookedAgrees(a: seq<Entry>, b: seq<Entry>, k: nat, sub: SubId)
    requires k <= |a| && k <= |b| && forall i :: 0 <= i < k ==> a[i] == b[i]
    ensures BookedFee(a, k, sub) == BookedFee(b, k, sub)
  {
    if k > 0 { BookedAgrees(a, b, k - 1, sub); }
  }

  lemma {:induction false} BookedGrows(ledger: seq<Entry>, k: nat, n: nat, sub: SubId)
    requires k <= n <= |ledger|
    requires BookedFee(ledger, k, sub).Some?
    ensures BookedFee(ledger, n, sub) == BookedFee(ledger, k, sub)
  {
    if k < n { BookedGrows(ledger, k, n - 1, sub); }
  }

  /** A booked fee never changes as the ledger grows. */
  lemma BookedStays(ledger: seq<Entry>, more: seq<Entry>, sub: SubId)
    requires Booked(ledger, sub).Some? && ledger <= more
    ensures Booked(more, sub) == Booked(ledger, sub)
  {
    BookedAgrees(more, ledger, |ledger|, sub);
    BookedGrows(more, |ledger|, |more|, sub);
  }

  /** The fee charged once stays the fee, whatever is quoted later, if and only if it was
      positive or is quoted zero again: a zero is not written down. */
  lemma FeeFixedIff(ledger: seq<Entry>, more: seq<Entry>, sub: SubId, now: Quote, later: Quote)
    requires Charged(ledger, sub, now) <= more
    requires Booked(ledger, sub) == None && now(sub) == 0 ==> Booked(more, sub) == None
    ensures FeeOf(more, sub, later) == FeeOf(ledger, sub, now)
            <==> Booked(ledger, sub).Some? || now(sub) > 0 || later(sub) == 0
  {
    var charged := Charged(ledger, sub, now);
    if Booked(ledger, sub).Some? {
      BookedStays(ledger, more, sub);
    } else if now(sub) > 0 {
      BookedAgrees(charged, ledger, |ledger|, sub);
      BookedStays(charged, more, sub);
    }
  }

  /** The escrow fees of the first k subscriptions, added up in uint64. */
  function FeesTogether(ledger: seq<Entry>, subs: seq<SubId>, quote: Quote, k: nat): nat
    requires k <= |subs|
  {
    if k == 0 then 0 else Wrap64(FeesTogether(ledger, subs, quote, k - 1) + FeeOf(ledger, subs[k - 1], quote))
  }

  /** The ledger once the first k subscriptions have been charged. */
  function AllCharged(ledger: seq<Entry>, subs: seq<SubId>, quote: Quote, k: nat): (r: seq<Entry>)
    requires k <= |subs|
    ensures ledger <= r
  {
    if k == 0 then ledger else Charged(AllCharged(ledger, subs, quote, k - 1), subs[k - 1], quote)
  }

  /** Charging some subscriptions changes nobody's fee. */
  lemma {:induction false} ChargingKeepsFees(ledger: seq<Entry>, subs: seq<SubId>, quote: Quote, k: nat, sub: SubId)
    requires k <= |subs|
    ensures FeeOf(AllCharged(ledger, subs, quote, k), sub, quote) == FeeOf(ledger, sub, quote)
  {
    if k > 0 {
      ChargingKeepsFees(ledger, subs, quote, k - 1, sub);
      var before := AllCharged(ledger, subs, quote, k - 1);
      var after := Charged(before, subs[k - 1], quote);
      if sub == subs[k - 1] {
        BookedAgrees(after, before, |before|, sub);
      } else {
        NoFeeRowsFor(before, after, |after|, sub);
      }
    }
  }

  // ---- what a spend takes and gives back, per subscription ----

  function MinusFee(deposited: nat, fee: nat): nat {
    if deposited > fee then deposited - fee else 0
  }

  /** The subscriptions of the first k inputs, in order of first appearance. */
  function Order(coins: seq<Coin>, k: nat): (order: seq<SubId>)
    requires k <= |coins|
    ensures forall i :: 0 <= i < k ==> coins[i].sub in order
    ensures forall i :: 0 <= i < |order| ==> order[i] in Subs(coins)
    ensures forall i, j :: 0 <= i < j < |order| ==> order[i] != order[j]
  {
    if k == 0 then []
    else
      var before := Order(coins, k - 1);
      if coins[k - 1].sub in before then before else before + [coins[k - 1].sub]
  }

  /** One subscription's rows when a spend lands. */
  function RowsFor(ledger: seq<Entry>, kind: Kind, sub: SubId, taken: nat, back: nat, txid: Txid, quote: Quote): seq<Entry> {
    if kind == Release then
      var charged := Charged(ledger, sub, quote);
      charged
      + (if back > 0 then [Entry(RefundRow, Some(sub), back, Some(txid))] else [])
      + [Entry(ReleaseRow, Some(sub), MinusFee(MinusFee(taken, back), FeeOf(ledger, sub, quote)), Some(txid))]
    else ledger + [Entry(RefundRow, Some(sub), back, Some(txid))]
  }

  /** The ledger after the first k subscriptions of a landed spend; one the store does not know is passed over. */
  function LedgerAfter(ledger: seq<Entry>, known: set<SubId>, kind: Kind, coins: seq<Coin>, outputs: seq<Described>,
                       order: seq<SubId>,
                       k: nat, txid: Txid, quote: Quote): seq<Entry>
    requires k <= |order|
  {
    if k == 0 then ledger
    else
      var sub, before := order[k - 1], LedgerAfter(ledger, known, kind, coins, outputs, order, k - 1, txid, quote);
      if sub !in known then before
      else RowsFor(before, kind, sub, PaidIn(coins, |coins|, sub), PaidTo(outputs, |outputs|, sub), txid, quote)
  }

  function NetworkFeeRows(networkFee: nat, txid: Txid): seq<Entry> {
    if networkFee > 0 then [Entry(NetworkFeeRow, None, networkFee, Some(txid))] else []
  }

  /** The ledger a landed spend leaves: its subscriptions' rows, and a release's network fee. */
  function LandedLedger(ledger: seq<Entry>, known: set<SubId>, kind: Kind, coins: seq<Coin>, outputs: seq<Described>,
                        networkFee: nat, txid: Txid, quote: Quote): seq<Entry>
  {
    var order := Order(coins, |coins|);
    LedgerAfter(ledger, known, kind, coins, outputs, order, |order|, txid, quote)
    + (if kind == Release then NetworkFeeRows(networkFee, txid) else [])
  }

  // ---- sums of rows ----

  /** What the rows of one kind among the first k of the ledger add up to. */
  function Total(ledger: seq<Entry>, k: nat, kind: EntryKind): nat
    requires k <= |ledger|
  {
    if k == 0 then 0
    else Total(ledger, k - 1, kind) + (if ledger[k - 1].kind == kind then ledger[k - 1].amount else 0)
  }

  lemma {:induction false} TotalAgrees(a: seq<Entry>, b: seq<Entry>, k: nat, kind: EntryKind)
    requires k <= |a| && k <= |b| && forall i :: 0 <= i < k ==> a[i] == b[i]
    ensures Total(a, k, kind) == Total(b, k, kind)
  {
    if k > 0 { TotalAgrees(a, b, k - 1, kind); }
  }

  lemma TotalSnoc(ledger: seq<Entry>, e: Entry, kind: EntryKind)
    ensures Total(ledger + [e], |ledger| + 1, kind) == Total(ledger, |ledger|, kind) + (if e.kind == kind then e.amount else 0)
  {
    TotalAgrees(ledger + [e], ledger, |ledger|, kind);
  }

  function All(ledger: seq<Entry>, kind: EntryKind): nat {
    Total(ledger, |ledger|, kind)
  }

  function TakenList(coins: seq<Coin>, order: seq<SubId>): seq<nat> {
    PaidAmounts(coins, |coins|, order)
  }

  function BackList(outputs: seq<Described>, order: seq<SubId>): (r: seq<nat>)
    ensures |r| == |order| && forall i :: 0 <= i < |r| ==> r[i] == PaidTo(outputs, |outputs|, order[i])
  {
    seq(|order|, i requires 0 <= i < |order| => PaidTo(outputs, |outputs|, order[i]))
  }

  function FeeList(ledger: seq<Entry>, order: seq<SubId>, quote: Quote): (r: seq<nat>)
    ensures |r| == |order| && forall i :: 0 <= i < |r| ==> r[i] == FeeOf(ledger, order[i], quote)
  {
    seq(|order|, i requires 0 <= i < |order| => FeeOf(ledger, order[i], quote))
  }

  /** What each subscription's release row says: taken, less returned, less fee, never below zero. */
  function NetList(taken: seq<nat>, back: seq<nat>, fees: seq<nat>): (r: seq<nat>)
    requires |taken| == |back| == |fees|
    ensures |r| == |taken| && forall i :: 0 <= i < |r| ==> r[i] == MinusFee(MinusFee(taken[i], back[i]), fees[i])
  {
    seq(|taken|, i requires 0 <= i < |taken| => MinusFee(MinusFee(taken[i], back[i]), fees[i]))
  }

  /** Writing one subscription's rows leaves the fees of the others as they were. */
  lemma RowsKeepOtherFees(ledger: seq<Entry>, kind: Kind, sub: SubId, taken: nat, back: nat, txid: Txid, quote: Quote,
                          other: SubId)
    requires other != sub
    ensures Booked(RowsFor(ledger, kind, sub, taken, back, txid, quote), other) == Booked(ledger, other)
  {
    var rows := RowsFor(ledger, kind, sub, taken, back, txid, quote);
    NoFeeRowsFor(ledger, rows, |rows|, other);
  }

  lemma {:induction false} NoFeeRowsFor(ledger: seq<Entry>, more: seq<Entry>, k: nat, sub: SubId)
    requires ledger <= more && |ledger| <= k <= |more|
    requires forall i :: |ledger| <= i < |more| ==> !(more[i].kind == FeeRow && more[i].sub == Some(sub))
    ensures BookedFee(more, k, sub) == Booked(ledger, sub)
  {
    if k == |ledger| {
      BookedAgrees(more, ledger, k, sub);
    } else {
      NoFeeRowsFor(ledger, more, k - 1, sub);
    }
  }

  lemma {:induction false} LaterFeesUnchanged(ledger: seq<Entry>, known: set<SubId>, kind: Kind, coins: seq<Coin>,
                                              outputs: seq<Described>,
                                              order: seq<SubId>, k: nat, txid: Txid, quote: Quote, j: nat)
    requires k <= j < |order| && forall a, b :: 0 <= a < b < |order| ==> order[a] != order[b]
    ensures Booked(LedgerAfter(ledger, known, kind, coins, outputs, order, k, txid, quote), order[j]) == Booked(ledger, order[j])
  {
    if k > 0 {
      LaterFeesUnchanged(ledger, known, kind, coins, outputs, order, k - 1, txid, quote, j);
      var sub := order[k - 1];
      RowsKeepOtherFees(LedgerAfter(ledger, known, kind, coins, outputs, order, k - 1, txid, quote), kind, sub,
                        PaidIn(coins, |coins|, sub), PaidTo(outputs, |outputs|, sub), txid, quote, order[j]);
    }
  }

  /** One subscription adds its release row and its returned amount to the books. */
  lemma RowsForTotals(ledger: seq<Entry>, sub: SubId, taken: nat, back: nat, txid: Txid, quote: Quote)
    ensures var rows := RowsFor(ledger, Release, sub, taken, back, txid, quote);
            && All(rows, ReleaseRow) == All(ledger, ReleaseRow) + MinusFee(MinusFee(taken, back), FeeOf(ledger, sub, quote))
            && All(rows, RefundRow) == All(ledger, RefundRow) + back
  {
    var charged := Charged(ledger, sub, quote);
    var e := Entry(FeeRow, Some(sub), quote(sub), None);
    TotalSnoc(ledger, e, ReleaseRow);
    TotalSnoc(ledger, e, RefundRow);
    var back' := Entry(RefundRow, Some(sub), back, Some(txid));
    TotalSnoc(charged, back', ReleaseRow);
    TotalSnoc(charged, back', RefundRow);
    var mid := charged + (if back > 0 then [back'] else []);
    if back == 0 { assert mid == charged; }
    var net := Entry(ReleaseRow, Some(sub), MinusFee(MinusFee(taken, back), FeeOf(ledger, sub, quote)), Some(txid));
    TotalSnoc(mid, net, ReleaseRow);
    TotalSnoc(mid, net, RefundRow);
  }

  /** The k-th subscription's rows, in the terms of the books the spend found. */
  lemma LedgerStep(ledger: seq<Entry>, known: set<SubId>, coins: seq<Coin>, outputs: seq<Described>, order: seq<SubId>, k: nat,
                   txid: Txid, quote: Quote)
    requires 0 < k <= |order| && order[k - 1] in known && forall a, b :: 0 <= a < b < |order| ==> order[a] != order[b]
    ensures var before := LedgerAfter(ledger, known, Release, coins, outputs, order, k - 1, txid, quote);
            var after := LedgerAfter(ledger, known, Release, coins, outputs, order, k, txid, quote);
            var taken, back := PaidIn(coins, |coins|, order[k - 1]), PaidTo(outputs, |outputs|, order[k - 1]);
            && All(after, ReleaseRow)
               == All(before, ReleaseRow) + MinusFee(MinusFee(taken, back), FeeOf(ledger, order[k - 1], quote))
            && All(after, RefundRow) == All(before, RefundRow) + back
  {
    var before := LedgerAfter(ledger, known, Release, coins, outputs, order, k - 1, txid, quote);
    var sub := order[k - 1];
    LaterFeesUnchanged(ledger, known, Release, coins, outputs, order, k - 1, txid, quote, k - 1);
    assert FeeOf(before, sub, quote) == FeeOf(ledger, sub, quote);
    RowsForTotals(before, sub, PaidIn(coins, |coins|, sub), PaidTo(outputs, |outputs|, sub), txid, quote);
  }

  function NetsOf(ledger: seq<Entry>, coins: seq<Coin>, outputs: seq<Described>, order: seq<SubId>, quote: Quote): (r: seq<nat>)
    ensures |r| == |order|
  {
    NetList(TakenList(coins, order), BackList(outputs, order), FeeList(ledger, order, quote))
  }

  /** One step of the sums of nets and returned amounts. */
  lemma NetsStep(ledger: seq<Entry>, coins: seq<Coin>, outputs: seq<Described>, order: seq<SubId>, quote: Quote, k: nat)
    requires 0 < k <= |order|
    ensures SumTo(NetsOf(ledger, coins, outputs, order, quote), k)
            == SumTo(NetsOf(ledger, coins, outputs, order, quote), k - 1)
               + MinusFee(MinusFee(PaidIn(coins, |coins|, order[k - 1]), PaidTo(outputs, |outputs|, order[k - 1])),
                          FeeOf(ledger, order[k - 1], quote))
    ensures SumTo(BackList(outputs, order), k)
            == SumTo(BackList(outputs, order), k - 1) + PaidTo(outputs, |outputs|, order[k - 1])
  {
  }

  lemma {:induction false} LedgerTotals(ledger: seq<Entry>, known: set<SubId>, coins: seq<Coin>, outputs: seq<Described>,
                                        order: seq<SubId>, k: nat, txid: Txid, quote: Quote)
    requires k <= |order| && forall a, b :: 0 <= a < b < |order| ==> order[a] != order[b]
    requires forall i :: 0 <= i < k ==> order[i] in known
    ensures var after := LedgerAfter(ledger, known, Release, coins, outputs, order, k, txid, quote);
            && All(after, ReleaseRow) == All(ledger, ReleaseRow) + SumTo(NetsOf(ledger, coins, outputs, order, quote), k)
            && All(after, RefundRow) == All(ledger, RefundRow) + SumTo(BackList(outputs, order), k)
  {
    hide NetsOf, FeeOf, MinusFee, All, PaidIn, PaidTo, RowsFor;
    if k > 0 {
      hide LedgerAfter;
      LedgerTotals(ledger, known, coins, outputs, order, k - 1, txid, quote);
      LedgerStep(ledger, known, coins, outputs, order, k, txid, quote);
      NetsStep(ledger, coins, outputs, order, quote, k);
    }
  }

  // ---- the books balance ----

  /** No subscription is returned more than its coins brought. */
  predicate Within(back: seq<nat>, taken: seq<nat>) {
    |back| == |taken| && forall i :: 0 <= i < |back| ==> back[i] <= taken[i]
  }

  predicate FeesFit(taken: seq<nat>, back: seq<nat>, fees: seq<nat>, k: nat)
    requires |taken| == |back| == |fees| && k <= |taken|
  {
    forall i :: 0 <= i < k ==> back[i] + fees[i] <= taken[i]
  }

  /** Saturating never undershoots: the four parts make up what was taken exactly when
      every fee fits what its own subscription left. */
  lemma {:induction false} PartsMakeTakenIff(taken: seq<nat>, back: seq<nat>, fees: seq<nat>, k: nat)
    requires |taken| == |back| == |fees| && k <= |taken|
    requires Within(back, taken)
    ensures var nets := NetList(taken, back, fees);
            && SumTo(nets, k) + SumTo(fees, k) + SumTo(back, k) >= SumTo(taken, k)
            && (SumTo(nets, k) + SumTo(fees, k) + SumTo(back, k) == SumTo(taken, k)
                <==> FeesFit(taken, back, fees, k))
  {
    if k > 0 { PartsMakeTakenIff(taken, back, fees, k - 1); }
  }

  lemma NetworkFeeAside(rows: seq<Entry>, networkFee: nat, txid: Txid)
    ensures All(rows + NetworkFeeRows(networkFee, txid), ReleaseRow) == All(rows, ReleaseRow)
    ensures All(rows + NetworkFeeRows(networkFee, txid), RefundRow) == All(rows, RefundRow)
  {
    if networkFee > 0 {
      TotalSnoc(rows, Entry(NetworkFeeRow, None, networkFee, Some(txid)), ReleaseRow);
      TotalSnoc(rows, Entry(NetworkFeeRow, None, networkFee, Some(txid)), RefundRow);
    } else {
      assert rows + [] == rows;
    }
  }

  lemma LandedTotals(ledger: seq<Entry>, known: set<SubId>, coins: seq<Coin>, outputs: seq<Described>, networkFee: nat,
                     txid: Txid, quote: Quote)
    requires Subs(coins) <= known
    ensures var order := Order(coins, |coins|);
            var after := LandedLedger(ledger, known, Release, coins, outputs, networkFee, txid, quote);
            && All(after, ReleaseRow) == All(ledger, ReleaseRow) + Sum(NetsOf(ledger, coins, outputs, order, quote))
            && All(after, RefundRow) == All(ledger, RefundRow) + Sum(BackList(outputs, order))
  {
    var order := Order(coins, |coins|);
    LedgerTotals(ledger, known, coins, outputs, order, |order|, txid, quote);
    NetworkFeeAside(LedgerAfter(ledger, known, Release, coins, outputs, order, |order|, txid, quote), networkFee, txid);
  }
}
