/** What each handler means to do: whom it chooses, what it builds, and the books it leaves. */
module EscrowPlans {
  import opened Prelude
  import opened Chain
  import opened Covenant
  import opened ReturnSpend
  import opened ReleaseFacts
  import opened EscrowTerms
  import opened EscrowProtocol
  import opened EscrowLedger
  import opened CloseLoop

  predicate Unsigned(sp: Spend, kind: Kind) {
    sp.kind == kind && sp.state == Built
  }

  function Aside(sp: Spend): Spend {
    sp.(state := Superseded)
  }

  /** The unsigned spends of one kind among the first k, set aside, bar the one kept. */
  function SetAside(spends: seq<Spend>, kind: Kind, keep: Option<nat>, k: nat): (r: seq<Spend>)
    ensures |r| == |spends|
  {
    seq(|spends|, i requires 0 <= i < |spends| =>
      if i < k && Unsigned(spends[i], kind) && keep != Some(i) then Aside(spends[i]) else spends[i])
  }

  lemma NoneSetAside(spends: seq<Spend>, kind: Kind, keep: Option<nat>)
    ensures SetAside(spends, kind, keep, 0) == spends
  {
  }

  lemma SetAsideStep(spends: seq<Spend>, kind: Kind, keep: Option<nat>, k: nat)
    requires k < |spends|
    ensures SetAside(spends, kind, keep, k)[k] == spends[k]
    ensures SetAside(spends, kind, keep, k + 1)
            == if Unsigned(spends[k], kind) && keep != Some(k)
               then SetAside(spends, kind, keep, k)[k := Aside(spends[k])]
               else SetAside(spends, kind, keep, k)
  {
  }

  /** What stands at one escrow address. */
  datatype Utxo = Utxo(outpoint: Outpoint, atoms: nat, asset: Asset)

  /** What the node, and the subscriptions' own rows, say while one transaction is built. */
  datatype World = World(
    utxosAt: SubId -> seq<Utxo>, refundScript: SubId -> Script, payAmount: SubId -> nat,
    platform: Script, quote: Quote, rate: nat, size: Sizer, txid: Tx -> Txid)

  /** The coins of one asset among the first k found at a subscription's address. */
  function Mine(found: seq<Utxo>, asset: Asset, sub: SubId, k: nat): (r: seq<Coin>)
    requires k <= |found|
    ensures forall i :: 0 <= i < |r| ==> r[i].asset == asset && r[i].sub == sub
  {
    if k == 0 then []
    else
      var u := found[k - 1];
      Mine(found, asset, sub, k - 1) + (if u.asset == asset then [Coin(u.outpoint, u.atoms, asset, sub)] else [])
  }

  /** The coins of the first k subscriptions, in their order. */
  function CoinsOf(w: World, asset: Asset, subs: seq<SubId>, k: nat): (r: seq<Coin>)
    requires k <= |subs|
    ensures forall i :: 0 <= i < |r| ==> r[i].asset == asset && r[i].sub in subs
  {
    if k == 0 then []
    else
      var found := w.utxosAt(subs[k - 1]);
      CoinsOf(w, asset, subs, k - 1) + Mine(found, asset, subs[k - 1], |found|)
  }

  predicate NoneTwice(ids: seq<SubId>) {
    forall i, j :: 0 <= i < j < |ids| ==> ids[i] != ids[j]
  }

  function Named(subs: seq<SubId>): set<SubId> {
    set sub | sub in subs
  }

  /** What a subscription's rows say of where its money goes back. */
  function RefundsOf(w: World, subs: seq<SubId>): Refunds {
    map sub | sub in Named(subs) :: w.refundScript(sub)
  }

  /** Whose coins may be taken, of fewer subscriptions too. */
  lemma FewerMayBeTaken(r: Rules, b: Books, w: World, kind: Kind, subs: seq<SubId>)
    requires MayTake(r, b, kind, Named(subs))
    ensures MayTake(r, b, kind, Subs(CoinsOf(w, r.terms.payAsset, subs, |subs|)))
  {
  }

  function ReturnFeeNow(w: World, t: Terms, kind: Kind, subs: seq<SubId>): nat {
    ReturnFee(kind, t, CoinsOf(w, t.payAsset, subs, |subs|), RefundsOf(w, subs), w.rate, w.size)
  }

  /** When a cancel or refund of these subscriptions is recorded. */
  predicate MayReturn(w: World, t: Terms, spends: seq<Spend>, kind: Kind, subs: seq<SubId>) {
    var coins := CoinsOf(w, t.payAsset, subs, |subs|);
    && CoinsFree(spends, kind, coins)
    && Returnable(kind, t, coins, Named(subs), RefundsOf(w, subs), ReturnFeeNow(w, t, kind, subs))
  }

  lemma NothingToReturn(w: World, t: Terms, spends: seq<Spend>, kind: Kind)
    ensures !MayReturn(w, t, spends, kind, [])
  {
  }

  /** The spend recorded for them: every coin they have, and the transaction returning it. */
  predicate Returns(w: World, t: Terms, kind: Kind, subs: seq<SubId>, sp: Spend) {
    var coins, fee := CoinsOf(w, t.payAsset, subs, |subs|), ReturnFeeNow(w, t, kind, subs);
    && coins != [] && SharesFit(t, coins, fee)
    && sp.kind == kind && sp.state == Built && sp.coins == coins && sp.subs == subs && sp.networkFee == fee
    && var tx := ReturnTx(kind, t, coins, RefundsOf(w, subs), Keeps(fee, |coins|, |coins|), fee);
       sp.txid == w.txid(tx) && Describes(sp.outputs, tx) && PaysEachOwner(sp.outputs, coins)
  }

  /** Output k is coin k's subscriber's, and the last is the fee. */
  predicate PaysEachOwner(outputs: seq<Described>, coins: seq<Coin>) {
    && |outputs| == |coins| + 1
    && (forall k :: 0 <= k < |coins| ==> outputs[k].payee == ToSubscriber(coins[k].sub))
    && outputs[|coins|].payee == NetworkFee
  }

  /** The books after the process stops: what was written stays, the lock is gone. */
  function Stopped(b: Books): Books {
    b.(holder := Nobody, latest := None, asking := None)
  }

  function WithRow(b: Books, sub: SubId, st: Settlement): Books {
    b.(settlements := b.settlements[sub := st], asking := None)
  }

  /** The settlement rows with these subscriptions marked as being returned. */
  function CancelRows(rows: Rows, who: set<SubId>): (r: Rows)
    ensures r.Keys == rows.Keys + who
    ensures forall sub :: sub in r ==>
              r[sub] == if sub in who then RowOf(rows, sub).(phase := AwaitingCancel) else rows[sub]
  {
    map sub | sub in rows.Keys + who ::
      if sub in who then RowOf(rows, sub).(phase := AwaitingCancel) else rows[sub]
  }

  lemma CancelRowsStep(rows: Rows, subs: seq<SubId>, k: nat)
    requires k < |subs|
    ensures CancelRows(rows, Named(subs[..0])) == rows
    ensures var before := CancelRows(rows, Named(subs[..k]));
            CancelRows(rows, Named(subs[..k + 1])) == before[subs[k] := RowOf(before, subs[k]).(phase := AwaitingCancel)]
  {
    assert subs[..k + 1] == subs[..k] + [subs[k]];
  }

  /** Whether a cancel request takes a subscription: one it names, or every one if it names
      none, while not delivered; a delivered one only by name, a delivery under way never. */
  predicate Cancelled(states: map<SubId, SubState>, rows: Rows, want: set<SubId>, sub: SubId) {
    && (want == {} || sub in want)
    && Unsettled(states, sub)
    && (DeliveredOrDelivering(rows, sub) ==> sub in want && !PhaseIs(rows, sub, Delivering))
  }

  /** Those of the first k a cancel request takes, in order. */
  function ToCancel(states: map<SubId, SubState>, rows: Rows, want: set<SubId>, all: seq<SubId>, k: nat): (r: seq<SubId>)
    requires k <= |all|
    ensures forall i :: 0 <= i < |r| ==> Cancelled(states, rows, want, r[i]) && r[i] in all
    ensures forall i :: 0 <= i < k && Cancelled(states, rows, want, all[i]) ==> all[i] in r
  {
    if k == 0 then []
    else ToCancel(states, rows, want, all, k - 1) + (if Cancelled(states, rows, want, all[k - 1]) then [all[k - 1]] else [])
  }

  /** A new spend recorded, in place of the unsigned ones of its kind. */
  function WithSpend(b: Books, sp: Spend): Books {
    Without(Inserted(b, sp), sp.kind, Some(|b.spends|))
  }

  function Inserted(b: Books, sp: Spend): Books {
    b.(spends := b.spends + [sp], latest := Some(|b.spends|), asking := None)
  }

  /** The unsigned spends of a kind set aside, bar the one kept. */
  function Without(b: Books, kind: Kind, keep: Option<nat>): Books {
    b.(spends := SetAside(b.spends, kind, keep, |b.spends|))
  }

  lemma RecordedIsTidy(b: Books, sp: Spend)
    requires sp.state == Built && sp.kind != Refund
    ensures var b' := WithSpend(b, sp);
            Tidy(b'.spends, b'.latest) && b'.spends[|b.spends|] == sp
  {
  }

  /** Once everyone a recorded cancel returns is marked, the lock can be given back. */
  lemma CancelLeaves(b: Books, sp: Spend, subs: seq<SubId>)
    requires sp.state == Built && sp.kind == Cancel && Subs(sp.coins) <= Named(subs)
    ensures var b' := WithSpend(b, sp);
            && Tidy(b'.spends, b'.latest)
            && Marked(b'.spends, b'.latest, CancelRows(b.settlements, Named(subs)))
  {
    RecordedIsTidy(b, sp);
  }

  /** A cancel recorded and its subscriptions marked. */
  function CancelRecorded(b: Books, sp: Spend, subs: seq<SubId>): Books {
    WithSpend(b, sp).(settlements := CancelRows(b.settlements, Named(subs)))
  }

  // ---- the node's answers ----

  datatype Sent = Accepted | Refused | Unreached

  datatype Seen = There | Gone | NoAnswer

  /** What the node answers while one spend is sent: to the bytes, and about each coin. */
  datatype Node = Node(sent: Sent, unspent: Outpoint -> Seen)

  /** The outputs asked about: all but the fee, and at least one. */
  function OutCount(sp: Spend): nat {
    if |sp.outputs| > 1 then |sp.outputs| - 1 else 1
  }

  predicate StillThere(sp: Spend, node: Node) {
    exists n :: 0 <= n < OutCount(sp) && node.unspent(Outpoint(sp.txid, n)) == There
  }

  predicate CoinGone(sp: Spend, node: Node) {
    exists k :: 0 <= k < |sp.coins| && node.unspent(sp.coins[k].outpoint) == Gone
  }

  datatype Fate = Lands | Becomes(to: SpendState) | Waits

  /** What the answers mean for a spend sent: on chain, dead, set back -- or unknown, when
      the node was not reached, and to be sent again. */
  function FateOf(sp: Spend, node: Node): Fate {
    if node.sent == Accepted || StillThere(sp, node) then Lands
    else if CoinGone(sp, node) then Becomes(SpendState.Failed)
    else if node.sent == Refused && sp.kind == Refund then Becomes(Superseded)
    else if node.sent == Refused then Becomes(Built)
    else Waits
  }

  function Moved(b: Books, at: nat, to: SpendState): Books
    requires at < |b.spends|
  {
    b.(spends := b.spends[at := b.spends[at].(state := to)], asking := None)
  }

  function Finished(b: Books, at: nat, node: Node): Books
    requires at < |b.spends|
  {
    match FateOf(b.spends[at], node)
    case Lands => Landed(b, at)
    case Becomes(to) => Moved(b, at, to)
    case Waits => b
  }

  /** What the issuer's signatures send: a built release or cancel they verify for, no release
      before the close; and what is under way already, once more. */
  predicate Sends(r: Rules, b: Books, at: nat, sound: bool)
    requires at < |b.spends|
  {
    var sp := b.spends[at];
    || sp.state == Broadcasting
    || (sp.state == Built && sound
        && (sp.kind == Cancel || (sp.kind == Release && LockReached(r.terms.closeLock, b.tip, b.mtp))))
  }

  function Signed(r: Rules, b: Books, at: nat, sound: bool, node: Node): Books
    requires at < |b.spends|
  {
    if !Sends(r, b, at, sound) then b
    else if b.spends[at].state == Broadcasting then Finished(b, at, node)
    else Finished(Moved(b, at, Broadcasting), at, node)
  }

  // ---- a spend landing ----

  lemma NobodyLanded(states: map<SubId, SubState>, rows: Rows, kind: Kind, txid: Txid)
    ensures LandedSubs(states, {}, kind) == states
    ensures LandedSettlements(states, rows, {}, kind, txid) == rows
  {
  }

  lemma OrderStep(order: seq<SubId>, k: nat)
    requires k < |order| && NoneTwice(order)
    ensures Named(order[..k + 1]) == Named(order[..k]) + {order[k]} && order[k] !in Named(order[..k])
  {
    assert order[..k + 1] == order[..k] + [order[k]];
  }

  lemma SubsStep(states: map<SubId, SubState>, who: set<SubId>, sub: SubId, kind: Kind)
    requires sub !in who
    ensures var before, after := LandedSubs(states, who, kind), LandedSubs(states, who + {sub}, kind);
            && (sub in before <==> sub in states)
            && (sub in before ==> before[sub] == states[sub])
            && after == (if sub in before then before[sub := AppliedSub(kind, before[sub])] else before)
  {
  }

  lemma RowsStep(states: map<SubId, SubState>, rows: Rows, who: set<SubId>, sub: SubId, kind: Kind, txid: Txid)
    requires sub !in who
    ensures var before := LandedSettlements(states, rows, who, kind, txid);
            LandedSettlements(states, rows, who + {sub}, kind, txid)
            == if sub in states then before[sub := Applied(kind, states[sub], RowOf(before, sub), txid)] else before
  {
  }

  lemma OrderNames(coins: seq<Coin>, order: seq<SubId>)
    requires order == Order(coins, |coins|)
    ensures Named(order[..|order|]) == Subs(coins)
  {
    assert order[..|order|] == order;
  }

  /** The ledger after the spend at a position lands. */
  function LedgerOf(b: Books, at: nat, ledger: seq<Entry>, quote: Quote): seq<Entry>
    requires at < |b.spends|
  {
    var sp := b.spends[at];
    LandedLedger(ledger, b.subs.Keys, sp.kind, sp.coins, sp.outputs, sp.networkFee, sp.txid, quote)
  }

  /** The books with the lock taken. */
  function Locked(b: Books, h: Holder): Books {
    b.(holder := h, latest := None, asking := None)
  }

  // ---- after the deadline ----

  /** Every subscription but those delivered, or being delivered, whose money is not yet released. */
  predicate MayRefund(states: map<SubId, SubState>, rows: Rows, sub: SubId) {
    !(Unsettled(states, sub) && DeliveredOrDelivering(rows, sub))
  }

  function Undelivered(states: map<SubId, SubState>, rows: Rows, all: seq<SubId>, k: nat): (r: seq<SubId>)
    requires k <= |all|
    ensures forall i :: 0 <= i < |r| ==> MayRefund(states, rows, r[i]) && r[i] in all
    ensures forall i :: 0 <= i < k && MayRefund(states, rows, all[i]) ==> all[i] in r
  {
    if k == 0 then []
    else Undelivered(states, rows, all, k - 1) + (if MayRefund(states, rows, all[k - 1]) then [all[k - 1]] else [])
  }

  predicate HasCoin(coins: seq<Coin>, k: nat, sub: SubId)
    requires k <= |coins|
  {
    exists i :: 0 <= i < k && coins[i].sub == sub
  }

  /** On its way somewhere, in a spend other than an unsigned cancel. */
  predicate Underway(spends: seq<Spend>, coin: Outpoint) {
    var h := LastHolder(spends, |spends|, None, coin);
    h.Some? && !UnsignedCancel(spends[h.value])
  }

  predicate HasHeldCoin(spends: seq<Spend>, coins: seq<Coin>, k: nat, sub: SubId)
    requires k <= |coins|
  {
    exists i :: 0 <= i < k && coins[i].sub == sub && Underway(spends, coins[i].outpoint)
  }

  function DueOf(spends: seq<Spend>, coins: seq<Coin>, subs: seq<SubId>, k: nat): (r: seq<SubId>)
    requires k <= |subs|
    ensures forall i :: 0 <= i < |r| ==>
              r[i] in subs && HasCoin(coins, |coins|, r[i]) && !HasHeldCoin(spends, coins, |coins|, r[i])
  {
    if k == 0 then []
    else
      var sub := subs[k - 1];
      DueOf(spends, coins, subs, k - 1)
      + (if HasCoin(coins, |coins|, sub) && !HasHeldCoin(spends, coins, |coins|, sub) then [sub] else [])
  }

  /** Whom a pass after the deadline refunds: those not the issuer's to release, with coins,
      none of them on its way somewhere. */
  function RefundsDue(b: Books, asset: Asset, w: World, all: seq<SubId>): seq<SubId> {
    var subs := Undelivered(b.subs, b.settlements, all, |all|);
    DueOf(b.spends, CoinsOf(w, asset, subs, |subs|), subs, |subs|)
  }

  lemma DueMayBeTaken(r: Rules, b: Books, w: World, all: seq<SubId>)
    requires b.holder == Serving && LockReached(r.terms.deadlineLock, b.tip, b.mtp) && Named(all) <= b.subs.Keys
    ensures MayTake(r, b, Refund, Named(RefundsDue(b, r.terms.payAsset, w, all)))
  {
    var subs := Undelivered(b.subs, b.settlements, all, |all|);
    forall sub | sub in RefundsDue(b, r.terms.payAsset, w, all)
      ensures sub in b.subs && (Unsettled(b.subs, sub) ==> !DeliveredOrDelivering(b.settlements, sub))
    {
      assert sub in subs;
    }
  }

  /** A refund recorded and sent, and every unsigned cancel set aside. */
  function RefundSent(b: Books, sp: Spend, node: Node): Books {
    var b' := Without(WithSpend(b, sp), Cancel, None);
    Finished(Moved(b', |b.spends|, Broadcasting), |b.spends|, node)
  }

  lemma NothingLatest(spends: seq<Spend>, rows: Rows)
    ensures Tidy(spends, None) && Marked(spends, None, rows)
  {
  }

  lemma RefundSentIs(b: Books, sp: Spend, node: Node)
    requires |b.spends| < |Without(WithSpend(b, sp), Cancel, None).spends|
    ensures RefundSent(b, sp, node)
            == Finished(Moved(Without(WithSpend(b, sp), Cancel, None), |b.spends|, Broadcasting), |b.spends|, node)
  {
  }

  /** A refund just recorded, with the unsigned cancels set aside, may be sent. */
  lemma RefundMaySend(r: Rules, b: Books, sp: Spend)
    requires sp.state == Built && sp.kind == Refund
    ensures var b', n := Without(WithSpend(b, sp), Cancel, None), |b.spends|;
            && |WithSpend(b, sp).spends| == n + 1
            && WithSpend(b, sp).holder == b'.holder == b.holder && WithSpend(b, sp).asking == None
            && n < |b'.spends| && b'.spends[n] == sp && b'.latest == Some(n)
            && Tidy(b'.spends, b'.latest) && MayMove(r, b', sp, Broadcasting)
  {
  }

  /** Sending the spend recorded last leaves the rest superseded; a refund has nobody to mark. */
  lemma RefundLeaves(b: Books, at: nat, node: Node)
    requires b.latest == Some(at) && Tidy(b.spends, b.latest) && at < |b.spends| && b.spends[at].kind == Refund
    ensures var b' := Finished(Moved(b, at, Broadcasting), at, node);
            Tidy(b'.spends, b'.latest) && Marked(b'.spends, b'.latest, b'.settlements) && b'.holder == b.holder
  {
  }

  // ---- the release ----

  function Subscribers(w: World, subs: seq<SubId>): (r: seq<Subscriber>)
    ensures |r| == |subs|
    ensures forall i :: 0 <= i < |r| ==> r[i] == Subscriber(subs[i], w.payAmount(subs[i]), w.refundScript(subs[i]))
  {
    seq(|subs|, i requires 0 <= i < |subs| => Subscriber(subs[i], w.payAmount(subs[i]), w.refundScript(subs[i])))
  }

  /** What a release of these subscriptions returns to whom. */
  function ExcessOf(w: World, coins: seq<Coin>, subs: seq<SubId>): seq<Excess> {
    var who := Subscribers(w, subs);
    Listed(who, Owed(coins, who), |who|)
  }

  function ReleaseFeeNow(w: World, t: Terms, subs: seq<SubId>, fee: nat): nat {
    var coins := CoinsOf(w, t.payAsset, subs, |subs|);
    ReleaseFee(t, coins, ExcessOf(w, coins, subs), fee, w.platform, w.rate, w.size)
  }

  /** When a release of these subscriptions can be built at an escrow fee. */
  predicate MayRelease(w: World, t: Terms, spends: seq<Spend>, subs: seq<SubId>, fee: nat) {
    var coins := CoinsOf(w, t.payAsset, subs, |subs|);
    && CoinsFree(spends, Release, coins)
    && Releasable(t, coins, Named(subs), ExcessOf(w, coins, subs), fee, w.platform, ReleaseFeeNow(w, t, subs, fee))
  }

  /** The release recorded for them: every coin they have, and the transaction paying it out. */
  predicate Releases(w: World, t: Terms, subs: seq<SubId>, fee: nat, sp: Spend) {
    var coins, net := CoinsOf(w, t.payAsset, subs, |subs|), ReleaseFeeNow(w, t, subs, fee);
    var excess := ExcessOf(w, coins, subs);
    var toIssuer := ReleaseToIssuer(coins, excess, fee, net);
    && sp.kind == Release && sp.state == Built && sp.coins == coins && sp.subs == subs && sp.networkFee == net
    && sp.txid == w.txid(ReleaseTx(t, coins, excess, fee, w.platform, toIssuer, net))
    && sp.outputs == ReleaseDescribed(t, excess, fee, w.platform, toIssuer, net)
  }

  // ---- one delivery ----

  /** What the policy server and the account store answer while one subscription is delivered:
      the transfer's txid, none when it is refused, and whether the investor's balance covers it. */
  datatype Policy = Policy(known: bool, transfer: Option<Txid>, landed: bool)

  /** What stands for the txid of a delivery found by balance. */
  const RECONCILED: Txid := 0

  /** Phases an attempt leaves alone. */
  predicate Decided(p: Phase) {
    p == AwaitingRelease || Returning(p)
  }

  /** The settlement row one delivery attempt leaves. */
  function Attempt(st: Settlement, p: Policy): Settlement {
    if Decided(st.phase) then st
    else if !p.known then st.(phase := DeliveryFailed)
    else if st.delivery.Some? then st.(phase := AwaitingRelease)
    else if st.phase == Delivering then
      if p.landed then st.(delivery := Some(RECONCILED), phase := AwaitingRelease) else st
    else if p.transfer == None then st.(phase := DeliveryFailed)
    else st.(delivery := p.transfer, phase := AwaitingRelease)
  }

  /** Whether it asks for the tokens: only from a fresh row, whatever else is true. */
  predicate Asks(st: Settlement, p: Policy) {
    st.phase == Pending && st.delivery == None && p.known
  }

  /** The books once a delivery not recorded yet has been sought. */
  function Sought(b: Books, sub: SubId, p: Policy): Books
    requires sub in b.settlements
  {
    var st := b.settlements[sub];
    if st.phase == Delivering then
      if p.landed then WithRow(b, sub, st.(delivery := Some(RECONCILED))) else b
    else
      WithRow(b, sub, if p.transfer == None then st.(phase := DeliveryFailed)
                      else st.(phase := Delivering, delivery := p.transfer)).(asked := b.asked + [sub])
  }

  function Delivered(b: Books, sub: SubId, p: Policy): Books {
    var st := RowOf(b.settlements, sub);
    WithRow(b, sub, Attempt(st, p)).(asked := b.asked + (if Asks(st, p) then [sub] else []))
  }

  // ---- the close's loop, in the terms of CloseLoop ----

  /** Distinct subscriptions, each paid into escrow. */
  predicate Paid(b: Books, covenant: seq<SubId>) {
    && NoneTwice(covenant)
    && (forall i :: 0 <= i < |covenant| ==> covenant[i] in b.subs && b.subs[covenant[i]] == InEscrow)
  }

  function NamesOf(covenant: seq<SubId>, at: seq<nat>): (r: seq<SubId>)
    ensures |r| == |at|
    ensures forall i :: 0 <= i < |at| && at[i] < |covenant| ==> r[i] == covenant[at[i]]
  {
    seq(|at|, i requires 0 <= i < |at| => if at[i] < |covenant| then covenant[at[i]] else 0)
  }

  lemma NamesTogether(covenant: seq<SubId>, a: seq<nat>, b: seq<nat>)
    ensures NamesOf(covenant, a + b) == NamesOf(covenant, a) + NamesOf(covenant, b)
  {
  }

  /** The phase each subscription's attempt would end in. */
  function Tried(rows: Rows, covenant: seq<SubId>, p: SubId -> Policy): (r: seq<Phase>)
    ensures |r| == |covenant|
    ensures forall i :: 0 <= i < |r| ==> r[i] == Attempt(RowOf(rows, covenant[i]), p(covenant[i])).phase
  {
    seq(|covenant|, i requires 0 <= i < |covenant| => Attempt(RowOf(rows, covenant[i]), p(covenant[i])).phase)
  }

  /** Whether a release of the subscriptions at these positions could be built now. */
  function FeasibleNow(w: World, t: Terms, spends: seq<Spend>, ledger: seq<Entry>, covenant: seq<SubId>): Feasible {
    at => MayRelease(w, t, spends, NamesOf(covenant, at),
                     FeesTogether(ledger, NamesOf(covenant, at), w.quote, |NamesOf(covenant, at)|))
  }

  /** The books after the first k attempts. */
  function AfterDeliveries(b: Books, covenant: seq<SubId>, p: SubId -> Policy, k: nat): Books
    requires k <= |covenant|
  {
    if k == 0 then b else Delivered(AfterDeliveries(b, covenant, p, k - 1), covenant[k - 1], p(covenant[k - 1]))
  }

  /** Attempts change nothing but settlement rows and requests. */
  lemma {:induction false} DeliveriesTouchRows(b: Books, covenant: seq<SubId>, p: SubId -> Policy, k: nat)
    requires k <= |covenant|
    ensures var b' := AfterDeliveries(b, covenant, p, k);
            && b'.spends == b.spends && b'.holder == b.holder && b'.subs == b.subs && b'.latest == b.latest
            && b'.tip == b.tip && b'.mtp == b.mtp
            && (b.asking == None ==> b'.asking == None)
  {
    hide Attempt, Asks;
    if k > 0 { DeliveriesTouchRows(b, covenant, p, k - 1); }
  }

  /** Each attempt changes its own subscription's row. */
  lemma {:induction false} DeliveriesAre(b: Books, covenant: seq<SubId>, p: SubId -> Policy, k: nat, j: nat)
    requires k <= |covenant| && j < |covenant| && Paid(b, covenant)
    ensures var rows := AfterDeliveries(b, covenant, p, k).settlements;
            if j < k then
              covenant[j] in rows && rows[covenant[j]] == Attempt(RowOf(b.settlements, covenant[j]), p(covenant[j]))
            else RowOf(rows, covenant[j]) == RowOf(b.settlements, covenant[j])
  {
    hide Attempt, Asks;
    if k > 0 { DeliveriesAre(b, covenant, p, k - 1, j); }
  }

  /** What the next attempt finds. */
  lemma NextAttempt(b: Books, covenant: seq<SubId>, p: SubId -> Policy, k: nat)
    requires k < |covenant| && Paid(b, covenant) && b.asking == None
    ensures var b' := AfterDeliveries(b, covenant, p, k);
            && b'.spends == b.spends && b'.holder == b.holder && b'.asking == None && Paid(b', covenant)
            && RowOf(b'.settlements, covenant[k]) == RowOf(b.settlements, covenant[k])
            && forall j :: 0 <= j < k ==> PhaseIs(b'.settlements, covenant[j], Tried(b.settlements, covenant, p)[j])
  {
    hide Attempt, Delivered;
    DeliveriesTouchRows(b, covenant, p, k);
    DeliveriesAre(b, covenant, p, k, k);
    forall j | 0 <= j < k
      ensures PhaseIs(AfterDeliveries(b, covenant, p, k).settlements, covenant[j], Tried(b.settlements, covenant, p)[j])
    {
      DeliveriesAre(b, covenant, p, k, j);
    }
  }

  lemma NothingFailedYet(tried: seq<Phase>)
    ensures !FailedBefore(tried, 0)
  {
  }

  lemma LoopStep(tried: seq<Phase>, feasible: Feasible, k: nat)
    requires k < |tried| && Attempts(tried, feasible, k) == k
    ensures !FailedBefore(tried, k) || feasible(Rest(tried, k)) ==> Attempts(tried, feasible, k + 1) == k + 1
    ensures FailedBefore(tried, k + 1) == (FailedBefore(tried, k) || tried[k] == DeliveryFailed)
  {
  }

  /** Once the loop stops, nothing further is attempted. */
  lemma {:induction false} StopsHere(tried: seq<Phase>, feasible: Feasible, k: nat, n: nat)
    requires k < n <= |tried| && Attempts(tried, feasible, k) == k
    requires FailedBefore(tried, k) && !feasible(Rest(tried, k))
    ensures Attempts(tried, feasible, n) == k
  {
    if n > k + 1 { StopsHere(tried, feasible, k, n - 1); }
  }

  // ---- what a close hands the issuer ----

  /** The last of the first n spends that is live, of a kind, and asked for the same subscriptions. */
  function LastLike(spends: seq<Spend>, n: nat, kind: Kind, subs: seq<SubId>): (i: Option<nat>)
    requires n <= |spends|
  {
    if n == 0 then None
    else if spends[n - 1].kind == kind && Live(spends[n - 1]) && multiset(spends[n - 1].subs) == multiset(subs)
    then Some(n - 1)
    else LastLike(spends, n - 1, kind, subs)
  }

  predicate MayBuild(kind: Kind, w: World, t: Terms, spends: seq<Spend>, ledger: seq<Entry>, subs: seq<SubId>) {
    if kind == Release then MayRelease(w, t, spends, subs, FeesTogether(ledger, subs, w.quote, |subs|))
    else MayReturn(w, t, spends, kind, subs)
  }

  function Ready(rows: Rows, covenant: seq<SubId>, k: nat): (r: seq<SubId>)
    requires k <= |covenant|
    ensures forall i :: 0 <= i < |r| ==> r[i] in covenant && PhaseIs(rows, r[i], AwaitingRelease)
  {
    if k == 0 then []
    else Ready(rows, covenant, k - 1) + (if PhaseIs(rows, covenant[k - 1], AwaitingRelease) then [covenant[k - 1]] else [])
  }

  predicate IsUnready(rows: Rows, sub: SubId) {
    sub in rows && CancelPhase(rows[sub].phase)
  }

  function Unready(rows: Rows, covenant: seq<SubId>, k: nat): (r: seq<SubId>)
    requires k <= |covenant|
    ensures forall i :: 0 <= i < |r| ==> r[i] in covenant && IsUnready(rows, r[i])
  {
    if k == 0 then []
    else Unready(rows, covenant, k - 1) + (if IsUnready(rows, covenant[k - 1]) then [covenant[k - 1]] else [])
  }

  predicate AllUnready(b: Books, failed: seq<SubId>) {
    forall i :: 0 <= i < |failed| ==> Unsettled(b.subs, failed[i]) && IsUnready(b.settlements, failed[i])
  }

  lemma MayCancelUnready(r: Rules, b: Books, failed: seq<SubId>)
    requires AllUnready(b, failed) && b.holder == Closing
    requires b.latest.Some? ==> b.latest.value < |b.spends| && b.spends[b.latest.value].kind == Release
    ensures MayTake(r, b, Cancel, Named(failed))
    ensures Marked(b.spends, b.latest, b.settlements)
  {
  }

  function CancelHanded(b: Books, made: Option<Spend>, handed: bool, failed: seq<SubId>): Books {
    var b' := if made.Some? then WithSpend(b, made.value) else b;
    if handed then b'.(settlements := CancelRows(b.settlements, Named(failed))) else b'
  }

  lemma CancelLeavesHanded(b: Books, made: Option<Spend>, handed: bool, failed: seq<SubId>)
    requires AllUnready(b, failed) && b.holder == Closing && Tidy(b.spends, b.latest)
    requires b.latest.Some? ==> b.latest.value < |b.spends| && b.spends[b.latest.value].kind == Release
    requires made.Some? ==> handed && made.value.kind == Cancel && made.value.state == Built
                            && Subs(made.value.coins) <= Named(failed)
    ensures var b', b'' := CancelHanded(b, made, handed, failed), if made.Some? then WithSpend(b, made.value) else b;
            && b'.holder == Closing && Tidy(b'.spends, b'.latest) && Marked(b'.spends, b'.latest, b'.settlements)
            && b''.holder == Closing && (b.asking == None ==> b''.asking == None)
            && b''.subs == b.subs && b''.settlements == b.settlements
  {
    if made.Some? { CancelLeaves(b, made.value, failed); }
  }

  lemma ReleaseLeaves(b: Books, sp: Spend)
    requires sp.kind == Release && sp.state == Built
    ensures var b' := WithSpend(b, sp);
            && Tidy(b'.spends, b'.latest) && b'.holder == b.holder && b'.asking == None
            && b'.subs == b.subs && b'.settlements == b.settlements
            && b'.latest == Some(|b.spends|) && |b.spends| < |b'.spends| && b'.spends[|b.spends|].kind == Release
  {
    RecordedIsTidy(b, sp);
  }

  /** Left out of the first check. */
  predicate Dropped(rows: Rows, sub: SubId) {
    IsUnready(rows, sub) || PhaseIs(rows, sub, Phase.Refunded)
  }

  /** The subscriptions the first check prices: all but those failed, cancelled or refunded. */
  function StillSold(rows: Rows, covenant: seq<SubId>, k: nat): seq<SubId>
    requires k <= |covenant|
  {
    if k == 0 then []
    else
      var sub := covenant[k - 1];
      StillSold(rows, covenant, k - 1)
      + (if Dropped(rows, sub) then [] else [sub])
  }

  /** What a close asks before anything moves. */
  predicate MayClose(r: Rules, b: Books, ledger: seq<Entry>, covenant: seq<SubId>, w: World) {
    var sold := StillSold(b.settlements, covenant, |covenant|);
    && CloseGate(r.terms, r.blocksPerDay, b.tip, b.mtp)
    && (sold == [] || MayRelease(w, r.terms, b.spends, sold, FeesTogether(ledger, sold, w.quote, |sold|)))
  }

  /** What the close hands out of the books d its deliveries left: the release of what is
      delivered, and the cancel of what failed, each the current one or a new one. */
  predicate HandedOut(d: Books, t: Terms, ledger: seq<Entry>, covenant: seq<SubId>, w1: World, w2: World,
                      release: Option<Spend>, cancel: Option<Spend>, handed: bool)
  {
    var ready, failed := Ready(d.settlements, covenant, |covenant|), Unready(d.settlements, covenant, |covenant|);
    var fee := FeesTogether(ledger, ready, w1.quote, |ready|);
    var r := if release.Some? then WithSpend(d, release.value) else d;
    && release.Some? == (ready != [] && LastLike(d.spends, |d.spends|, Release, ready) == None
                         && MayRelease(w1, t, d.spends, ready, fee))
    && (release.Some? ==> Releases(w1, t, ready, fee, release.value))
    && handed == (failed != [] && (LastLike(r.spends, |r.spends|, Cancel, failed).Some?
                                   || MayReturn(w2, t, r.spends, Cancel, failed)))
    && (cancel.Some? <==> handed && LastLike(r.spends, |r.spends|, Cancel, failed) == None)
    && (cancel.Some? ==> Returns(w2, t, Cancel, failed, cancel.value))
  }

  /** How a close of the books b goes: how many deliveries it attempts, and what it then hands out. */
  predicate Closes(b: Books, t: Terms, ledger: seq<Entry>, covenant: seq<SubId>, w: World, w1: World, w2: World,
                   p: SubId -> Policy, done: nat, release: Option<Spend>, cancel: Option<Spend>, handed: bool)
    requires done <= |covenant|
  {
    && done == Attempts(Tried(b.settlements, covenant, p), FeasibleNow(w, t, b.spends, ledger, covenant), |covenant|)
    && HandedOut(AfterDeliveries(b, covenant, p, done), t, ledger, covenant, w1, w2, release, cancel, handed)
  }

  /** The ledger with the fees of everything delivered fixed, as the release fixes them. */
  function FeesFixed(b: Books, ledger: seq<Entry>, covenant: seq<SubId>, p: SubId -> Policy, done: nat, quote: Quote): seq<Entry>
    requires done <= |covenant|
  {
    var ready := Ready(AfterDeliveries(b, covenant, p, done).settlements, covenant, |covenant|);
    AllCharged(ledger, ready, quote, |ready|)
  }

  function Closed(d: Books, covenant: seq<SubId>, release: Option<Spend>, cancel: Option<Spend>, handed: bool): Books {
    var r := if release.Some? then WithSpend(d, release.value) else d;
    CancelHanded(r, cancel, handed, Unready(d.settlements, covenant, |covenant|))
  }

  /** What the final sorting finds: everyone still unsettled, the lock still held. */
  lemma AfterTheLoop(b: Books, covenant: seq<SubId>, p: SubId -> Policy, k: nat)
    requires k <= |covenant| && Paid(b, covenant) && b.asking == None && b.latest == None && b.holder == Closing
    ensures var d := AfterDeliveries(b, covenant, p, k);
            && d.holder == Closing && d.asking == None && d.latest == None && d.spends == b.spends
            && AllUnready(d, Unready(d.settlements, covenant, |covenant|))
  {
    hide Delivered;
    DeliveriesTouchRows(b, covenant, p, k);
    var d := AfterDeliveries(b, covenant, p, k);
    var failed := Unready(d.settlements, covenant, |covenant|);
    forall i | 0 <= i < |failed| ensures Unsettled(d.subs, failed[i]) {
      assert failed[i] in covenant;
    }
  }

  predicate CancelPhase(p: Phase) {
    p == DeliveryFailed || p == AwaitingCancel
  }
}
