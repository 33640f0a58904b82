/** What the ledger says of a release after it lands, against what the transaction paid. */
module ReleaseAccount {
  import opened Prelude
  import opened Money
  import opened Chain
  import opened Covenant
  import opened ReleaseFacts
  import opened EscrowProtocol
  import opened EscrowLedger
  import opened EscrowPlans

  // ---- the fees as charged and as they land ----

  lemma {:induction false} FeesAddUp(ledger: seq<Entry>, subs: seq<SubId>, quote: Quote, k: nat)
    requires k <= |subs| && SumTo(FeeList(ledger, subs, quote), k) < U64
    ensures FeesTogether(ledger, subs, quote, k) == SumTo(FeeList(ledger, subs, quote), k)
  {
    if k > 0 { FeesAddUp(ledger, subs, quote, k - 1); }
  }

  /** Charging books every positive fee. */
  lemma {:induction false} ChargedIsBooked(ledger: seq<Entry>, subs: seq<SubId>, quote: Quote, k: nat, i: nat)
    requires i < k <= |subs| && quote(subs[i]) > 0
    ensures Booked(AllCharged(ledger, subs, quote, k), subs[i]).Some?
  {
    var before := AllCharged(ledger, subs, quote, k - 1);
    if i < k - 1 {
      ChargedIsBooked(ledger, subs, quote, k - 1, i);
    }
    if Booked(before, subs[i]).Some? {
      BookedStays(before, AllCharged(ledger, subs, quote, k), subs[i]);
    }
  }

  /** A fee written down when it was charged, or never asked for since. */
  predicate Fixed(ledger: seq<Entry>, more: seq<Entry>, sub: SubId, now: Quote, later: Quote) {
    Booked(ledger, sub).Some? || now(sub) > 0 || FeeOf(more, sub, later) == 0
  }

  /** A fee only grows between charging and landing, and stays the same exactly when it was fixed. */
  lemma LateIff(ledger: seq<Entry>, subs: seq<SubId>, more: seq<Entry>, now: Quote, later: Quote, i: nat)
    requires i < |subs| && AllCharged(ledger, subs, now, |subs|) <= more
    ensures FeeOf(ledger, subs[i], now) <= FeeOf(more, subs[i], later)
    ensures FeeOf(ledger, subs[i], now) == FeeOf(more, subs[i], later) <==> Fixed(ledger, more, subs[i], now, later)
  {
    var charged := AllCharged(ledger, subs, now, |subs|);
    ChargingKeepsFees(ledger, subs, now, |subs|, subs[i]);
    if Booked(ledger, subs[i]).Some? {
      BookedStays(ledger, charged, subs[i]);
    } else if now(subs[i]) > 0 {
      ChargedIsBooked(ledger, subs, now, |subs|, i);
    }
    if Booked(charged, subs[i]).Some? { BookedStays(charged, more, subs[i]); }
  }

  /** By how much each fee is larger on landing than when it was charged. */
  function Late(ledger: seq<Entry>, more: seq<Entry>, order: seq<SubId>, now: Quote, later: Quote): (r: seq<nat>)
    ensures |r| == |order|
    ensures forall i :: 0 <= i < |r| ==> r[i] == MinusFee(FeeOf(more, order[i], later), FeeOf(ledger, order[i], now))
  {
    seq(|order|, i requires 0 <= i < |order| => MinusFee(FeeOf(more, order[i], later), FeeOf(ledger, order[i], now)))
  }

  /** The fees charged to subscriptions the release takes no coin of. */
  function Idle(ledger: seq<Entry>, subs: seq<SubId>, order: seq<SubId>, now: Quote): (r: seq<nat>)
    ensures |r| == |subs|
    ensures forall i :: 0 <= i < |r| ==> r[i] == if subs[i] in order then 0 else FeeOf(ledger, subs[i], now)
  {
    seq(|subs|, i requires 0 <= i < |subs| => if subs[i] in order then 0 else FeeOf(ledger, subs[i], now))
  }

  function ListOf(f: SubId -> nat, ids: seq<SubId>): (r: seq<nat>)
    ensures |r| == |ids| && forall i :: 0 <= i < |r| ==> r[i] == f(ids[i])
  {
    seq(|ids|, i requires 0 <= i < |ids| => f(ids[i]))
  }

  /** The amounts of those among the first k of an order, listed in another. */
  function Taking(f: SubId -> nat, subs: seq<SubId>, order: seq<SubId>, k: nat): (r: seq<nat>)
    requires k <= |order|
    ensures |r| == |subs|
    ensures forall i :: 0 <= i < |r| ==> r[i] == if subs[i] in order[..k] then f(subs[i]) else 0
  {
    seq(|subs|, i requires 0 <= i < |subs| => if subs[i] in order[..k] then f(subs[i]) else 0)
  }

  predicate Among(order: seq<SubId>, subs: seq<SubId>) {
    forall i :: 0 <= i < |order| ==> order[i] in subs
  }

  lemma TakingStep(f: SubId -> nat, subs: seq<SubId>, order: seq<SubId>, k: nat, at: nat)
    requires k < |order| && NoneTwice(subs) && NoneTwice(order) && at < |subs| && subs[at] == order[k]
    ensures Sum(Taking(f, subs, order, k + 1)) == Sum(Taking(f, subs, order, k)) + f(order[k])
  {
    assert order[..k + 1] == order[..k] + [order[k]];
    assert order[k] !in order[..k];
    var before, after := Taking(f, subs, order, k), Taking(f, subs, order, k + 1);
    forall i | 0 <= i < |subs| && i != at ensures after[i] == before[i] {
      assert subs[i] != order[k];
    }
    SumToBump(before, after, at, f(order[k]), |subs|);
  }

  /** A sum over distinct subscriptions is the same in any order. */
  lemma {:induction false} TakingTotal(f: SubId -> nat, subs: seq<SubId>, order: seq<SubId>, k: nat)
    requires k <= |order| && NoneTwice(subs) && NoneTwice(order) && Among(order, subs)
    ensures Sum(Taking(f, subs, order, k)) == SumTo(ListOf(f, order), k)
  {
    if k == 0 {
      SumToZero(Taking(f, subs, order, 0), |subs|);
    } else {
      TakingTotal(f, subs, order, k - 1);
      assert order[k - 1] in subs;
      var at :| 0 <= at < |subs| && subs[at] == order[k - 1];
      hide NoneTwice, Among, Taking;
      TakingStep(f, subs, order, k - 1, at);
    }
  }

  /** The fees charged are those of the subscriptions with coins and the idle ones. */
  lemma ChargedSplit(ledger: seq<Entry>, subs: seq<SubId>, order: seq<SubId>, now: Quote)
    requires NoneTwice(subs) && NoneTwice(order) && Among(order, subs)
    ensures Sum(FeeList(ledger, subs, now)) == Sum(FeeList(ledger, order, now)) + Sum(Idle(ledger, subs, order, now))
  {
    hide FeeOf;
    var f: SubId -> nat := (sub: SubId) => FeeOf(ledger, sub, now);
    TakingTotal(f, subs, order, |order|);
    assert ListOf(f, order) == FeeList(ledger, order, now);
    assert order[..|order|] == order;
    SumToAdd(FeeList(ledger, subs, now), Taking(f, subs, order, |order|), Idle(ledger, subs, order, now), |subs|);
  }

  lemma LandedSplit(ledger: seq<Entry>, subs: seq<SubId>, more: seq<Entry>, order: seq<SubId>, now: Quote, later: Quote)
    requires AllCharged(ledger, subs, now, |subs|) <= more && Among(order, subs)
    ensures Sum(FeeList(more, order, later)) == Sum(FeeList(ledger, order, now)) + Sum(Late(ledger, more, order, now, later))
  {
    hide FeeOf;
    forall i | 0 <= i < |order|
      ensures FeeList(more, order, later)[i] == FeeList(ledger, order, now)[i] + Late(ledger, more, order, now, later)[i]
    {
      var j :| 0 <= j < |subs| && subs[j] == order[i];
      LateIff(ledger, subs, more, now, later, j);
    }
    SumToAdd(FeeList(more, order, later), FeeList(ledger, order, now), Late(ledger, more, order, now, later), |order|);
  }

  // ---- the fee rows ----

  /** The fee row a subscription is left with when a release lands. */
  function BookedOnLanding(ledger: seq<Entry>, sub: SubId, quote: Quote): Option<nat> {
    if Booked(ledger, sub).Some? then Booked(ledger, sub) else if quote(sub) == 0 then None else Some(quote(sub))
  }

  lemma OwnRowsBook(ledger: seq<Entry>, sub: SubId, taken: nat, back: nat, txid: Txid, quote: Quote)
    ensures Booked(RowsFor(ledger, Release, sub, taken, back, txid, quote), sub) == BookedOnLanding(ledger, sub, quote)
  {
    var charged, rows := Charged(ledger, sub, quote), RowsFor(ledger, Release, sub, taken, back, txid, quote);
    BookedAgrees(charged, ledger, |ledger|, sub);
    NoFeeRowsFor(charged, rows, |rows|, sub);
  }

  lemma {:induction false} RowsBook(ledger: seq<Entry>, known: set<SubId>, coins: seq<Coin>, outputs: seq<Described>,
                                    order: seq<SubId>, k: nat, txid: Txid, quote: Quote, j: nat)
    requires k <= |order| && j < |order| && NoneTwice(order) && forall i :: 0 <= i < |order| ==> order[i] in known
    ensures Booked(LedgerAfter(ledger, known, Release, coins, outputs, order, k, txid, quote), order[j])
            == if j < k then BookedOnLanding(ledger, order[j], quote) else Booked(ledger, order[j])
  {
    hide RowsFor, Booked, PaidIn, PaidTo;
    if k > 0 {
      RowsBook(ledger, known, coins, outputs, order, k - 1, txid, quote, j);
      var sub, before := order[k - 1], LedgerAfter(ledger, known, Release, coins, outputs, order, k - 1, txid, quote);
      var taken, back := PaidIn(coins, |coins|, sub), PaidTo(outputs, |outputs|, sub);
      if j == k - 1 {
        OwnRowsBook(before, sub, taken, back, txid, quote);
      } else {
        RowsKeepOtherFees(before, Release, sub, taken, back, txid, quote, order[j]);
      }
    }
  }

  /** What a subscription's fee row says; nothing when it has none. */
  function FeeRowOf(ledger: seq<Entry>, sub: SubId): nat {
    if Booked(ledger, sub).Some? then Booked(ledger, sub).value else 0
  }

  lemma LandingBooksTheFee(ledger: seq<Entry>, sub: SubId, quote: Quote)
    ensures (if BookedOnLanding(ledger, sub, quote).Some? then BookedOnLanding(ledger, sub, quote).value else 0)
            == FeeOf(ledger, sub, quote)
  {
  }

  function FeeRows(ledger: seq<Entry>, order: seq<SubId>): (r: seq<nat>)
    ensures |r| == |order|
    ensures forall i :: 0 <= i < |r| ==> r[i] == FeeRowOf(ledger, order[i])
  {
    seq(|order|, i requires 0 <= i < |order| => FeeRowOf(ledger, order[i]))
  }

  lemma NetworkFeeBooksNobody(rows: seq<Entry>, networkFee: nat, txid: Txid, sub: SubId)
    ensures Booked(rows + NetworkFeeRows(networkFee, txid), sub) == Booked(rows, sub)
  {
    var after := rows + NetworkFeeRows(networkFee, txid);
    NoFeeRowsFor(rows, after, |after|, sub);
  }

  /** After a release lands, the fee rows are the fees its release rows were reduced by. */
  lemma FeeRowsAreTaken(ledger: seq<Entry>, known: set<SubId>, coins: seq<Coin>, outputs: seq<Described>, networkFee: nat,
                        txid: Txid, quote: Quote)
    requires Subs(coins) <= known
    ensures var order := Order(coins, |coins|);
            FeeRows(LandedLedger(ledger, known, Release, coins, outputs, networkFee, txid, quote), order)
            == FeeList(ledger, order, quote)
  {
    hide Booked, LedgerAfter, FeeOf, NetworkFeeRows, BookedOnLanding, Order;
    var order := Order(coins, |coins|);
    var rows := LedgerAfter(ledger, known, Release, coins, outputs, order, |order|, txid, quote);
    var after := LandedLedger(ledger, known, Release, coins, outputs, networkFee, txid, quote);
    assert after == rows + NetworkFeeRows(networkFee, txid);
    hide LandedLedger;
    forall i | 0 <= i < |order| ensures FeeRows(after, order)[i] == FeeList(ledger, order, quote)[i] {
      RowsBook(ledger, known, coins, outputs, order, |order|, txid, quote, i);
      NetworkFeeBooksNobody(rows, networkFee, txid, order[i]);
      LandingBooksTheFee(ledger, order[i], quote);
    }
  }

  // ---- the account ----

  /** What is left of each subscription's coins once its overpayment is returned. */
  function Lefts(coins: seq<Coin>, outputs: seq<Described>, order: seq<SubId>): (r: seq<nat>)
    ensures |r| == |order|
    ensures forall i :: 0 <= i < |r| ==>
              r[i] == MinusFee(PaidIn(coins, |coins|, order[i]), PaidTo(outputs, |outputs|, order[i]))
  {
    seq(|order|, i requires 0 <= i < |order| =>
      MinusFee(PaidIn(coins, |coins|, order[i]), PaidTo(outputs, |outputs|, order[i])))
  }

  /** By how much each fee overruns what is left: what subtracting without going below zero hides. */
  function Overruns(lefts: seq<nat>, fees: seq<nat>): (r: seq<nat>)
    requires |lefts| == |fees|
    ensures |r| == |lefts| && forall i :: 0 <= i < |r| ==> r[i] == MinusFee(fees[i], lefts[i])
  {
    seq(|lefts|, i requires 0 <= i < |lefts| => MinusFee(fees[i], lefts[i]))
  }

  lemma {:induction false} NetsOverrun(lefts: seq<nat>, fees: seq<nat>, nets: seq<nat>, k: nat)
    requires k <= |lefts| == |fees| == |nets| && forall i :: 0 <= i < |nets| ==> nets[i] == MinusFee(lefts[i], fees[i])
    ensures SumTo(nets, k) + SumTo(fees, k) == SumTo(lefts, k) + SumTo(Overruns(lefts, fees), k)
    ensures SumTo(Overruns(lefts, fees), k) == 0 <==> forall i :: 0 <= i < k ==> fees[i] <= lefts[i]
  {
    if k > 0 { NetsOverrun(lefts, fees, nets, k - 1); }
  }

  // ---- the transaction ----

  lemma {:induction false} NoCoinsNoPayment(coins: seq<Coin>, k: nat, sub: SubId)
    requires k <= |coins| && sub !in Subs(coins)
    ensures PaidIn(coins, k, sub) == 0
  {
    if k > 0 {
      NoCoinsNoPayment(coins, k - 1, sub);
      assert coins[k - 1].sub in Subs(coins);
    }
  }

  /** A recorded release whose sums fit a uint64. */
  predicate Recorded(w: World, t: Terms, spends: seq<Spend>, subs: seq<SubId>, fee: nat, sp: Spend) {
    && MayRelease(w, t, spends, subs, fee) && Releases(w, t, subs, fee, sp)
    && NoneTwice(subs) && Sum(Atoms(sp.coins)) < U64
    && Sum(ExcessAtoms(ExcessOf(w, sp.coins, subs))) + fee + sp.networkFee < U64
  }

  /** What it pays the issuer. */
  function IssuerGets(w: World, subs: seq<SubId>, fee: nat, sp: Spend): nat {
    ReleaseToIssuer(sp.coins, ExcessOf(w, sp.coins, subs), fee, sp.networkFee)
  }

  lemma RecordedReturnsTo(w: World, t: Terms, subs: seq<SubId>, fee: nat, sp: Spend, j: nat)
    requires Releases(w, t, subs, fee, sp) && NoneTwice(subs) && Sum(Atoms(sp.coins)) < U64 && j < |subs|
    ensures PaidTo(sp.outputs, |sp.outputs|, subs[j]) == Overpayments(sp.coins, Subscribers(w, subs))[j]
    ensures PaidTo(sp.outputs, |sp.outputs|, subs[j]) <= PaidIn(sp.coins, |sp.coins|, subs[j])
  {
    var who := Subscribers(w, subs);
    OwedIsOverpaid(sp.coins, who);
    ReleasePaysBack(t, ExcessOf(w, sp.coins, subs), fee, w.platform, IssuerGets(w, subs, fee, sp), sp.networkFee, subs[j]);
    ListedDue(who, Owed(sp.coins, who), |who|, j);
  }

  lemma OverpaidIsListed(w: World, subs: seq<SubId>, coins: seq<Coin>)
    requires Sum(Atoms(coins)) < U64
    ensures Sum(Overpayments(coins, Subscribers(w, subs))) == Sum(ExcessAtoms(ExcessOf(w, coins, subs)))
  {
    var who := Subscribers(w, subs);
    OwedIsOverpaid(coins, who);
    ListedTotal(who, Owed(coins, who), |who|);
  }

  /** The coins are these subscriptions', and each is returned its own amount out of its own coins. */
  predicate GivesBack(sp: Spend, subs: seq<SubId>, over: seq<nat>) {
    && NoneTwice(subs) && OwnedBy(sp.coins, subs) && |over| == |subs|
    && forall j :: 0 <= j < |subs| ==>
         PaidTo(sp.outputs, |sp.outputs|, subs[j]) == over[j] <= PaidIn(sp.coins, |sp.coins|, subs[j])
  }

  /** ... and the rest of the coins is the issuer's and the two fees. */
  predicate PaysOut(sp: Spend, subs: seq<SubId>, over: seq<nat>, toIssuer: nat, fee: nat) {
    GivesBack(sp, subs, over) && toIssuer + fee + Sum(over) + sp.networkFee == Sum(Atoms(sp.coins))
  }

  /** A recorded release does. */
  lemma RecordedPaysOut(w: World, t: Terms, spends: seq<Spend>, subs: seq<SubId>, fee: nat, sp: Spend)
    requires Recorded(w, t, spends, subs, fee, sp)
    ensures PaysOut(sp, subs, Overpayments(sp.coins, Subscribers(w, subs)), IssuerGets(w, subs, fee, sp), fee)
  {
    hide ExcessOf, Overpayments, PaidTo, PaidIn, Sum;
    OverpaidIsListed(w, subs, sp.coins);
    BalanceIff(Sum(Atoms(sp.coins)), Sum(ExcessAtoms(ExcessOf(w, sp.coins, subs))), fee, sp.networkFee);
    forall j | 0 <= j < |subs|
      ensures PaidTo(sp.outputs, |sp.outputs|, subs[j]) == Overpayments(sp.coins, Subscribers(w, subs))[j]
      ensures PaidTo(sp.outputs, |sp.outputs|, subs[j]) <= PaidIn(sp.coins, |sp.coins|, subs[j])
    {
      RecordedReturnsTo(w, t, subs, fee, sp, j);
    }
  }

  lemma OrderIsAmong(coins: seq<Coin>, subs: seq<SubId>)
    requires OwnedBy(coins, subs)
    ensures Among(Order(coins, |coins|), subs) && NoneTwice(Order(coins, |coins|)) && OwnedBy(coins, Order(coins, |coins|))
  {
  }

  lemma NobodyElsePaid(sp: Spend, subs: seq<SubId>, over: seq<nat>, j: nat)
    requires GivesBack(sp, subs, over) && j < |subs|
    ensures over[j] == if subs[j] in Order(sp.coins, |sp.coins|) then PaidTo(sp.outputs, |sp.outputs|, subs[j]) else 0
  {
    hide Order, PaidTo, PaidIn;
    if subs[j] in Subs(sp.coins) {
      assert subs[j] in Order(sp.coins, |sp.coins|);
    } else {
      NoCoinsNoPayment(sp.coins, |sp.coins|, subs[j]);
    }
  }

  function PaidBack(outputs: seq<Described>): SubId -> nat {
    sub => PaidTo(outputs, |outputs|, sub)
  }

  lemma BackByOrder(sp: Spend, subs: seq<SubId>, over: seq<nat>)
    requires GivesBack(sp, subs, over)
    ensures var order := Order(sp.coins, |sp.coins|); Taking(PaidBack(sp.outputs), subs, order, |order|) == over
  {
    hide Order, PaidTo, PaidIn;
    var order := Order(sp.coins, |sp.coins|);
    assert order[..|order|] == order;
    forall j | 0 <= j < |subs| ensures Taking(PaidBack(sp.outputs), subs, order, |order|)[j] == over[j] {
      NobodyElsePaid(sp, subs, over, j);
    }
  }

  /** All it returns goes to subscriptions with coins in it. */
  lemma BacksTotal(sp: Spend, subs: seq<SubId>, over: seq<nat>)
    requires GivesBack(sp, subs, over)
    ensures Sum(BackList(sp.outputs, Order(sp.coins, |sp.coins|))) == Sum(over)
  {
    var order := Order(sp.coins, |sp.coins|);
    OrderIsAmong(sp.coins, subs);
    BackByOrder(sp, subs, over);
    assert NoneTwice(subs);
    hide Order, PaidTo, PaidIn, NoneTwice, Among, Taking, GivesBack;
    TakingTotal(PaidBack(sp.outputs), subs, order, |order|);
    assert ListOf(PaidBack(sp.outputs), order) == BackList(sp.outputs, order);
  }

  lemma BackWithin(sp: Spend, subs: seq<SubId>, over: seq<nat>)
    requires GivesBack(sp, subs, over)
    ensures var order := Order(sp.coins, |sp.coins|);
            Within(BackList(sp.outputs, order), TakenList(sp.coins, order))
  {
    var order := Order(sp.coins, |sp.coins|);
    OrderIsAmong(sp.coins, subs);
    hide PaidTo, PaidIn, Order;
    forall i | 0 <= i < |order| ensures BackList(sp.outputs, order)[i] <= TakenList(sp.coins, order)[i] {
      var j :| 0 <= j < |subs| && subs[j] == order[i];
    }
  }

  lemma LeftsAndBacks(coins: seq<Coin>, outputs: seq<Described>, order: seq<SubId>)
    requires OwnedBy(coins, order) && NoneTwice(order)
    requires Within(BackList(outputs, order), TakenList(coins, order))
    ensures Sum(Lefts(coins, outputs, order)) + Sum(BackList(outputs, order)) == Sum(Atoms(coins))
  {
    hide PaidTo, PaidIn;
    CoinsSplit(coins, order, |coins|);
    SumToAdd(TakenList(coins, order), Lefts(coins, outputs, order), BackList(outputs, order), |order|);
  }

  /** What is left of the coins pays the issuer and both fees. */
  lemma LeftsPay(sp: Spend, subs: seq<SubId>, over: seq<nat>, toIssuer: nat, fee: nat)
    requires PaysOut(sp, subs, over, toIssuer, fee)
    ensures var order := Order(sp.coins, |sp.coins|);
            && Sum(Lefts(sp.coins, sp.outputs, order)) == toIssuer + fee + sp.networkFee
            && Sum(Lefts(sp.coins, sp.outputs, order)) + Sum(BackList(sp.outputs, order)) == Sum(Atoms(sp.coins))
  {
    OrderIsAmong(sp.coins, subs);
    hide Order, Within, Sum, GivesBack, OwnedBy, NoneTwice, Among;
    BackWithin(sp, subs, over);
    LeftsAndBacks(sp.coins, sp.outputs, Order(sp.coins, |sp.coins|));
    BacksTotal(sp, subs, over);
  }

  /** A release landing on the ledger it finds. */
  function Landing(sp: Spend, more: seq<Entry>, known: set<SubId>, later: Quote): seq<Entry> {
    LandedLedger(more, known, Release, sp.coins, sp.outputs, sp.networkFee, sp.txid, later)
  }

  /** Every fee is covered by what its own subscription left. */
  predicate EachFits(sp: Spend, more: seq<Entry>, later: Quote) {
    var order := Order(sp.coins, |sp.coins|);
    forall i :: 0 <= i < |order| ==>
      FeeOf(more, order[i], later) <= MinusFee(PaidIn(sp.coins, |sp.coins|, order[i]), PaidTo(sp.outputs, |sp.outputs|, order[i]))
  }

  /** What landing adds to the rows of a kind. */
  function Added(sp: Spend, more: seq<Entry>, known: set<SubId>, later: Quote, kind: EntryKind): int {
    All(Landing(sp, more, known, later), kind) - All(more, kind)
  }

  /** The release rows and the fee rows together: what is left, and what saturating hides. */
  lemma RowsAndFees(sp: Spend, more: seq<Entry>, known: set<SubId>, later: Quote)
    requires Subs(sp.coins) <= known
    ensures var order := Order(sp.coins, |sp.coins|);
            var over := Sum(Overruns(Lefts(sp.coins, sp.outputs, order), FeeList(more, order, later)));
            && Added(sp, more, known, later, ReleaseRow) + Sum(FeeList(more, order, later))
               == Sum(Lefts(sp.coins, sp.outputs, order)) + over
            && (over == 0 <==> EachFits(sp, more, later))
            && Added(sp, more, known, later, RefundRow) == Sum(BackList(sp.outputs, order))
            && FeeRows(Landing(sp, more, known, later), order) == FeeList(more, order, later)
  {
    hide PaidTo, PaidIn, Order, All, FeeOf, FeeRowOf;
    FeeRowsAreTaken(more, known, sp.coins, sp.outputs, sp.networkFee, sp.txid, later);
    var order := Order(sp.coins, |sp.coins|);
    LandedTotals(more, known, sp.coins, sp.outputs, sp.networkFee, sp.txid, later);
    NetsOverrun(Lefts(sp.coins, sp.outputs, order), FeeList(more, order, later),
        NetsOf(more, sp.coins, sp.outputs, order, later), |order|);
  }

  /** The ledger as it stood when the release was built, its fees charged, and whatever came since. */
  predicate ChargedFor(ledger: seq<Entry>, subs: seq<SubId>, now: Quote, fee: nat, more: seq<Entry>) {
    && Sum(FeeList(ledger, subs, now)) < U64
    && fee == FeesTogether(ledger, subs, now, |subs|)
    && AllCharged(ledger, subs, now, |subs|) <= more
  }

  /** The ledger tells what the transaction did: the release rows are the issuer's output and the
      network fee, and with the fee rows and the returned rows they make up the coins. */
  predicate Accounts(sp: Spend, more: seq<Entry>, known: set<SubId>, later: Quote, toIssuer: nat) {
    && Added(sp, more, known, later, ReleaseRow) == toIssuer + sp.networkFee
    && MakesUpCoins(sp, more, known, later)
  }

  predicate MakesUpCoins(sp: Spend, more: seq<Entry>, known: set<SubId>, later: Quote) {
    var fees := FeeRows(Landing(sp, more, known, later), Order(sp.coins, |sp.coins|));
    Added(sp, more, known, later, ReleaseRow) + Sum(fees) + Added(sp, more, known, later, RefundRow) == Sum(Atoms(sp.coins))
  }

  /** The fees landed are the fee charged, with the late ones and without the idle ones. */
  lemma LandedFees(ledger: seq<Entry>, subs: seq<SubId>, order: seq<SubId>, now: Quote, later: Quote, fee: nat, more: seq<Entry>)
    requires ChargedFor(ledger, subs, now, fee, more) && NoneTwice(subs) && NoneTwice(order) && Among(order, subs)
    ensures Sum(FeeList(more, order, later)) + Sum(Idle(ledger, subs, order, now))
            == fee + Sum(Late(ledger, more, order, now, later))
  {
    FeesAddUp(ledger, subs, now, |subs|);
    hide Sum, FeeOf, FeeList, Late, Idle, Among, NoneTwice;
    ChargedSplit(ledger, subs, order, now);
    LandedSplit(ledger, subs, more, order, now, later);
  }

  /** The rows make up the coins if and only if no subtraction hides a part of a fee. */
  lemma MakesUpCoinsIff(sp: Spend, subs: seq<SubId>, over: seq<nat>, toIssuer: nat, fee: nat,
                        more: seq<Entry>, known: set<SubId>, later: Quote)
    requires PaysOut(sp, subs, over, toIssuer, fee) && Subs(sp.coins) <= known
    ensures MakesUpCoins(sp, more, known, later) <==> EachFits(sp, more, later)
  {
    hide PaysOut, Order, Sum, Added, EachFits, Landing, FeeList, FeeRows, Lefts, BackList, Overruns, Subs, Atoms;
    RowsAndFees(sp, more, known, later);
    LeftsPay(sp, subs, over, toIssuer, fee);
  }

  /** Then the release rows are the issuer's output and the network fee if and only if the late
      fees are worth the idle ones. */
  lemma RowsAreOutputIff(sp: Spend, subs: seq<SubId>, over: seq<nat>, toIssuer: nat, fee: nat,
                         ledger: seq<Entry>, more: seq<Entry>, known: set<SubId>, now: Quote, later: Quote)
    requires PaysOut(sp, subs, over, toIssuer, fee) && ChargedFor(ledger, subs, now, fee, more)
    requires Subs(sp.coins) <= known && EachFits(sp, more, later)
    ensures var order := Order(sp.coins, |sp.coins|);
            Added(sp, more, known, later, ReleaseRow) == toIssuer + sp.networkFee
            <==> Sum(Late(ledger, more, order, now, later)) == Sum(Idle(ledger, subs, order, now))
  {
    var order := Order(sp.coins, |sp.coins|);
    OrderIsAmong(sp.coins, subs);
    assert NoneTwice(subs);
    hide PaysOut, Order, Sum, Added, EachFits, Among, NoneTwice, OwnedBy, Landing, ChargedFor,
         FeeList, FeeRows, Lefts, Late, Idle, BackList, Overruns, Subs, Atoms;
    LandedFees(ledger, subs, order, now, later, fee, more);
    RowsAndFees(sp, more, known, later);
    LeftsPay(sp, subs, over, toIssuer, fee);
  }

  /** A recorded release is accounted for on landing, whatever was booked and quoted since it was
      built, if and only if every fee fits what its own subscription left and the fees that
      came late are worth the fees charged to subscriptions without coins. That the rows make
      up the coins needs only the first. */
  lemma AccountsIff(w: World, t: Terms, spends: seq<Spend>, subs: seq<SubId>, fee: nat, sp: Spend,
                    ledger: seq<Entry>, more: seq<Entry>, known: set<SubId>, later: Quote)
    requires Recorded(w, t, spends, subs, fee, sp) && ChargedFor(ledger, subs, w.quote, fee, more)
    requires Subs(sp.coins) <= known
    ensures MakesUpCoins(sp, more, known, later) <==> EachFits(sp, more, later)
    ensures var order := Order(sp.coins, |sp.coins|);
            Accounts(sp, more, known, later, IssuerGets(w, subs, fee, sp))
            <==> EachFits(sp, more, later)
                 && Sum(Late(ledger, more, order, w.quote, later)) == Sum(Idle(ledger, subs, order, w.quote))
  {
    hide Recorded, PaysOut, IssuerGets, Order, Sum, Added, EachFits, MakesUpCoins, ChargedFor, Late, Idle, Subs, Overpayments;
    var over, toIssuer := Overpayments(sp.coins, Subscribers(w, subs)), IssuerGets(w, subs, fee, sp);
    RecordedPaysOut(w, t, spends, subs, fee, sp);
    MakesUpCoinsIff(sp, subs, over, toIssuer, fee, more, known, later);
    if EachFits(sp, more, later) {
      RowsAreOutputIff(sp, subs, over, toIssuer, fee, ledger, more, known, w.quote, later);
    }
  }

  /** Every fee the release takes was written down when it was charged, or never asked for since. */
  predicate AllFixed(ledger: seq<Entry>, more: seq<Entry>, order: seq<SubId>, now: Quote, later: Quote) {
    forall i :: 0 <= i < |order| ==> Fixed(ledger, more, order[i], now, later)
  }

  lemma LateFreeIff(ledger: seq<Entry>, subs: seq<SubId>, more: seq<Entry>, order: seq<SubId>, now: Quote, later: Quote)
    requires AllCharged(ledger, subs, now, |subs|) <= more && Among(order, subs)
    ensures Sum(Late(ledger, more, order, now, later)) == 0 <==> AllFixed(ledger, more, order, now, later)
  {
    hide FeeOf, Fixed, AllCharged;
    var late := Late(ledger, more, order, now, later);
    forall i | 0 <= i < |order| ensures late[i] == 0 <==> Fixed(ledger, more, order[i], now, later) {
      var j :| 0 <= j < |subs| && subs[j] == order[i];
      LateIff(ledger, subs, more, now, later, j);
    }
    if AllFixed(ledger, more, order, now, later) {
      SumToZero(late, |late|);
    } else {
      var i :| 0 <= i < |order| && !Fixed(ledger, more, order[i], now, later);
      EachAtMostSum(late, i, |late|);
    }
  }

  lemma IdleFree(ledger: seq<Entry>, subs: seq<SubId>, coins: seq<Coin>, now: Quote)
    requires Named(subs) <= Subs(coins)
    ensures Sum(Idle(ledger, subs, Order(coins, |coins|), now)) == 0
  {
    var order := Order(coins, |coins|);
    forall i | 0 <= i < |subs| ensures subs[i] in order {
      assert subs[i] in Named(subs);
      var k :| 0 <= k < |coins| && coins[k].sub == subs[i];
    }
    SumToZero(Idle(ledger, subs, order, now), |subs|);
  }

  /** When everyone released has coins, the release is accounted for if and only if every fee fits
      what its own subscription left, and was written down when it was charged or not asked for since. */
  lemma AccountsIffFixed(w: World, t: Terms, spends: seq<Spend>, subs: seq<SubId>, fee: nat, sp: Spend,
                         ledger: seq<Entry>, more: seq<Entry>, known: set<SubId>, later: Quote)
    requires Recorded(w, t, spends, subs, fee, sp) && ChargedFor(ledger, subs, w.quote, fee, more)
    requires Named(subs) <= Subs(sp.coins) <= known
    ensures Accounts(sp, more, known, later, IssuerGets(w, subs, fee, sp))
            <==> EachFits(sp, more, later) && AllFixed(ledger, more, Order(sp.coins, |sp.coins|), w.quote, later)
  {
    OrderIsAmong(sp.coins, subs);
    IdleFree(ledger, subs, sp.coins, w.quote);
    LateFreeIff(ledger, subs, more, Order(sp.coins, |sp.coins|), w.quote, later);
    hide Recorded, Accounts, EachFits, AllFixed, IssuerGets, Order, Sum, Among, NoneTwice, MayRelease, Releases,
         AllCharged, FeeList;
    AccountsIff(w, t, spends, subs, fee, sp, ledger, more, known, later);
  }
}
