/** What the handlers keep, whatever they are asked and wherever the process stops. */
module EscrowPromise {
  import opened Prelude
  import opened Money
  import opened Chain
  import opened Covenant
  import opened ReturnSpend
  import opened ReleaseFacts
  import opened EscrowProtocol
  import opened EscrowSafety
  import opened EscrowExclusion
  import opened EscrowLedger
  import opened CloseLoop
  import opened EscrowPlans
  import opened EscrowMeaning
  import opened EscrowFuture
  import opened EscrowCare
  import opened EscrowDesk

  /** A desk whose every step was careful has safe books. */
  lemma CarefulDeskIsSafe(r: Rules, log: seq<Event>, b: Books)
    requires r.Sound() && Leads(r, log, b)
    requires forall bs :: FullRun(r, bs, log) ==> CarefulRun(bs, log)
    ensures Safe(b)
  {
    var bs :| FullRun(r, bs, log) && bs[|log|] == b;
    EveryCarefulRunIsSafe(r, bs, log, |log|);
  }

  // ---- any requests, in any order ----

  /** What is asked of a desk: by the issuer, by the watcher, or nothing but time and payments. */
  datatype Request =
    | AskClose(covenant: seq<SubId>, first: World, second: World, third: World, policy: SubId -> Policy)
    | AskCancel(want: set<SubId>, world: World, all: seq<SubId>)
    | AskSign(at: nat, sound: bool, node: Node, quote: Quote)
    | AskHeal(at: nat, node: Node, quote: Quote)
    | AskRefund(found: World, world: World, all: seq<SubId>, node: Node, quote: Quote)
    | Happens(event: Event)

  /** Whether a desk between requests is in a position to serve it; any other is turned away. */
  predicate Servable(r: Rules, b: Books, q: Request) {
    match q
    case AskClose(covenant, _, _, _, _) => Paid(b, covenant)
    case AskCancel(_, _, _) => true
    case AskSign(at, _, _, _) => at < |b.spends|
    case AskHeal(at, _, _) => at < |b.spends|
    case AskRefund(_, _, all, _, _) => Named(all) <= b.subs.Keys && LockReached(r.terms.deadlineLock, b.tip, b.mtp)
    case Happens(e) => (e.Tick? || e.Subscribe? || e.Credit?) && Enabled(r, b, e)
  }

  /** What the store can be asked before a request is served: that a cancel names nobody in a live
      release, and that every cancel in flight over a close's subscriptions has been marked. */
  predicate CarefulRequest(b: Books, q: Request) {
    match q
    case AskCancel(want, _, all) => NamesNoneReleased(b, want, all)
    case AskClose(covenant, _, _, _, _) => MarkedOver(b, Named(covenant))
    case _ => true
  }

  /** Serves one request. A careful one keeps the books safe, wherever the process stops. */
  method ServeOne(d: Desk, q: Request) returns (alive: bool)
    requires d.Valid() && d.books.holder == Nobody && Servable(d.rules, d.books, q)
    modifies d
    ensures d.Valid() && d.books.holder == Nobody
    ensures old(d.budget) == None ==> alive && d.budget == None
    ensures alive && CrashFree(old(d.log)) ==> CrashFree(d.log)
    ensures CarefulRequest(old(d.books), q) ==> (Inv(d.rules, old(d.books)) ==> Inv(d.rules, d.books))
  {
    hide Leads, Inv, Consistent, StaysSafe, CrashFree, MarkedOver, LeftUnopposed, NamesNoneReleased, HandedOut, Closed,
         AfterDeliveries, Attempts, FeasibleNow, MayClose, MayReturn, Returns, RefundSent, RefundsDue, CancelRecorded, Signed,
         Finished, LedgerOf, ToCancel, Safe, Tried;
    alive := true;
    match q
    case AskClose(covenant, w, w1, w2, p) =>
      var _, _, _, _, on := d.HandleClose(covenant, w, w1, w2, p);
      alive := on;
    case AskCancel(want, w, all) =>
      var _, on := d.HandleCancel(want, w, all);
      alive := on;
    case AskSign(at, sound, node, quote) => alive := d.HandleSign(at, sound, node, quote);
    case AskHeal(at, node, quote) => alive := d.HealBroadcast(at, node, quote);
    case AskRefund(w, w', all, node, quote) =>
      var _, on := d.RefundAfterDeadline(w, w', all, node, quote);
      alive := on;
    case Happens(e) => d.Step(e);
  }

  /** Between calls, as long as no call was cut short, no coin is in two live spends, every
      cancel in flight is marked, and careful cancels alone make the books safe. */
  lemma UncutDeskIsOrderly(r: Rules, log: seq<Event>, b: Books)
    requires r.Sound() && Leads(r, log, b) && CrashFree(log) && b.holder == Nobody
    ensures Apart(b.spends) && CancelsMarked(b)
    ensures (forall bs :: FullRun(r, bs, log) ==> CancelCareful(bs, log)) ==> Safe(b)
  {
    hide Apart, CancelsMarked, Safe, CancelCareful, CrashFree, CleanStops, MarkedStops;
    var bs :| FullRun(r, bs, log) && bs[|log|] == b;
    CrashFreeIsClean(bs, log);
    MarkedStopsKeepMarked(r, bs, log, |log|);
    LockFreeMeansApart(r, bs, log, |log|);
    if forall bs :: FullRun(r, bs, log) ==> CancelCareful(bs, log) {
      CancelCareIsEnough(r, bs, log);
      EveryCarefulRunIsSafe(r, bs, log, |log|);
    }
  }

  /** A request that names nobody is careful at a desk no call of which was cut short. */
  lemma UnnamedIsCareful(r: Rules, log: seq<Event>, b: Books, q: Request)
    requires r.Sound() && Leads(r, log, b) && CrashFree(log) && b.holder == Nobody && Inv(r, b)
    requires q.AskCancel? ==> q.want == {}
    ensures CarefulRequest(b, q)
  {
    hide Leads, Inv, CancelsMarked, Apart, MarkedOver, NamesNoneReleased, CrashFree, Uncovered;
    UncutDeskIsOrderly(r, log, b);
    if q.AskCancel? { CancelRequestIsCareful(r, b, q.want, q.all); }
    if q.AskClose? { MarksAreMarked(b, Named(q.covenant)); }
  }

  predicate NamesNobody(requests: seq<Request>) {
    forall i :: 0 <= i < |requests| && requests[i].AskCancel? ==> requests[i].want == {}
  }

  /** Serves requests in the order they come, each stopped process followed by another with the
      store as it stands, until the requests or the processes run out. careful tells that every
      request was, when it came; whole, that nothing was cut short. */
  method Serve(d: Desk, requests: seq<Request>, lives: seq<Option<nat>>) returns (whole: bool, ghost careful: bool)
    requires d.Valid() && d.books.holder == Nobody && CrashFree(d.log) && Inv(d.rules, d.books)
    modifies d
    ensures d.Valid() && d.books.holder == Nobody
    ensures careful ==> Inv(d.rules, d.books) && Safe(d.books) && StaysSafe(d.rules, d.books)
    ensures NamesNobody(requests) && (whole || lives == []) ==> careful
    ensures old(d.budget) == None ==> whole
    ensures whole ==> CrashFree(d.log) && CancelsMarked(d.books) && Apart(d.books.spends)
  {
    hide Leads, Inv, CrashFree, CancelsMarked, Safe, StaysSafe, Servable, CarefulRequest, Apart, Consistent;
    whole, careful := true, true;
    UncutDeskIsOrderly(d.rules, d.log, d.books);
    var next := 0;
    for i := 0 to |requests|
      invariant d.Valid() && d.books.holder == Nobody && next <= |lives|
      invariant careful ==> Inv(d.rules, d.books)
      invariant NamesNobody(requests) && (whole || lives == []) ==> careful
      invariant old(d.budget) == None ==> whole && d.budget == None
      invariant whole ==> CrashFree(d.log) && CancelsMarked(d.books) && Apart(d.books.spends)
      invariant lives == [] ==> whole
    {
      if Servable(d.rules, d.books, requests[i]) {
        if whole && careful && NamesNobody(requests) {
          UnnamedIsCareful(d.rules, d.log, d.books, requests[i]);
        }
        careful := careful && CarefulRequest(d.books, requests[i]);
        var alive := ServeOne(d, requests[i]);
        if alive && whole {
          UncutDeskIsOrderly(d.rules, d.log, d.books);
        }
        if !alive {
          whole := false;
          if next == |lives| {
            break;
          }
          d.Restart(lives[next]);
          next := next + 1;
        }
      }
    }
    Outlook(d.rules, d.books);
    if careful { InvIsSafe(d.rules, d.books); }
  }

  /** An offering from its first day, whatever is asked, however often the process stops: while each
      request was careful when it came the books are safe and stay so, and requests that name
      nobody are careful up to and including the first that is cut short. */
  method RunOffering(rules: Rules, tip: int, mtp: int, budget: Option<nat>, requests: seq<Request>, lives: seq<Option<nat>>)
    returns (d: Desk, whole: bool, ghost careful: bool)
    requires rules.Sound()
    ensures fresh(d) && d.Valid() && d.rules == rules
    ensures careful ==> Safe(d.books) && StaysSafe(rules, d.books)
    ensures NamesNobody(requests) && (whole || lives == []) ==> careful
    ensures budget == None ==> whole
    ensures whole ==> Apart(d.books.spends)
  {
    hide Leads, CancelsMarked, Safe, StaysSafe, Apart;
    d := new Desk(rules, tip, mtp, budget);
    whole, careful := Serve(d, requests, lives);
  }

  // ---- what is recorded is what the covenant admits ----

  /** An output pays, in the payment asset, the script of the one it is described as paying: the
      issuer, the platform, a subscriber's own refund script, or nobody for the network fee. */
  predicate PaysWhomItSays(w: World, t: Terms, d: Described, o: TxOut, fee: nat, networkFee: nat) {
    && o.asset == t.payAsset && o.value == Explicit(d.atoms)
    && match d.payee
       case ToIssuer => o.script == t.issuerScript
       case ToPlatform => o.script == w.platform && d.atoms == fee
       case ToSubscriber(sub) => o.script == w.refundScript(sub)
       case NetworkFee => o.script == NO_SCRIPT && d.atoms == networkFee
  }

  /** The issuer is paid by the first output alone, the platform, if at all, by the second, and the
      network by the last; subscribers by the rest. */
  predicate PayeesInPlace(outputs: seq<Described>, platform: bool) {
    && |outputs| >= (if platform then 3 else 2)
    && forall i :: 0 <= i < |outputs| ==>
         && (outputs[i].payee.ToIssuer? <==> i == 0)
         && (outputs[i].payee.ToPlatform? <==> platform && i == 1)
         && (outputs[i].payee.NetworkFee? <==> i == |outputs| - 1)
  }

  lemma {:induction false} ExcessOutsPay(w: World, t: Terms, excess: seq<Excess>, k: nat, base: nat, fee: nat, networkFee: nat)
    requires k <= |excess| && forall i :: 0 <= i < |excess| ==> excess[i].refundScript == w.refundScript(excess[i].sub)
    ensures var d, outs := ExcessDescribed(t, excess, k, base), ExcessOuts(t, excess, k);
            |d| == |outs| && forall i :: 0 <= i < |d| ==>
              d[i].payee.ToSubscriber? && PaysWhomItSays(w, t, d[i], outs[i], fee, networkFee)
  {
    if k > 0 { ExcessOutsPay(w, t, excess, k - 1, base, fee, networkFee); }
  }

  lemma ReleasePaysWhomItSays(w: World, t: Terms, coins: seq<Coin>, subs: seq<SubId>, fee: nat, toIssuer: nat, networkFee: nat)
    requires Sum(Atoms(coins)) < U64
    ensures var excess := ExcessOf(w, coins, subs);
            var d, outs := ReleaseDescribed(t, excess, fee, w.platform, toIssuer, networkFee),
                           ReleaseTx(t, coins, excess, fee, w.platform, toIssuer, networkFee).outs;
            && |d| == |outs| && PayeesInPlace(d, fee > 0)
            && forall i :: 0 <= i < |d| ==> PaysWhomItSays(w, t, d[i], outs[i], fee, networkFee)
  {
    var excess := ExcessOf(w, coins, subs);
    forall i | 0 <= i < |excess| ensures excess[i].refundScript == w.refundScript(excess[i].sub) {
      assert excess[i] in excess;
      ExcessIs(w, coins, subs, excess[i]);
    }
    hide ExcessOf;
    var base := if fee > 0 then 2 else 1;
    ExcessOutsPay(w, t, excess, |excess|, base, fee, networkFee);
    var mid, outs := ExcessDescribed(t, excess, |excess|, base), ExcessOuts(t, excess, |excess|);
    var front := [Described(0, ToIssuer, toIssuer, t.issuerScript)]
        + (if fee > 0 then [Described(1, ToPlatform, fee, w.platform)] else []);
    var first := [PlainOut(t.payAsset, toIssuer, t.issuerScript)]
        + (if fee > 0 then [PlainOut(t.payAsset, fee, w.platform)] else []);
    FramedPays(w, t, front, mid, Described(base + |mid|, NetworkFee, networkFee, NO_SCRIPT), first, outs,
               PlainOut(t.payAsset, networkFee, NO_SCRIPT), fee, networkFee);
  }

  lemma FramedPays(w: World, t: Terms, front: seq<Described>, mid: seq<Described>, last: Described,
                   first: seq<TxOut>, outs: seq<TxOut>, end: TxOut, fee: nat, networkFee: nat)
    requires |front| == |first| == (if fee > 0 then 2 else 1) && |mid| == |outs|
    requires front[0].payee == ToIssuer && (fee > 0 ==> front[1].payee == ToPlatform) && last.payee == NetworkFee
    requires forall i :: 0 <= i < |mid| ==> mid[i].payee.ToSubscriber?
    requires forall i :: 0 <= i < |front| ==> PaysWhomItSays(w, t, front[i], first[i], fee, networkFee)
    requires forall i :: 0 <= i < |mid| ==> PaysWhomItSays(w, t, mid[i], outs[i], fee, networkFee)
    requires PaysWhomItSays(w, t, last, end, fee, networkFee)
    ensures PayeesInPlace(front + mid + [last], fee > 0)
    ensures var d, all := front + mid + [last], first + outs + [end];
            |d| == |all| && forall i :: 0 <= i < |d| ==> PaysWhomItSays(w, t, d[i], all[i], fee, networkFee)
  {
    hide PaysWhomItSays;
  }

  lemma ReleaseAsBuilt(w: World, t: Terms, spends: seq<Spend>, subs: seq<SubId>, fee: nat, sp: Spend)
    requires MayRelease(w, t, spends, subs, fee) && Releases(w, t, subs, fee, sp)
    ensures var excess := ExcessOf(w, sp.coins, subs);
            var toIssuer := ReleaseToIssuer(sp.coins, excess, fee, sp.networkFee);
            var tx := ReleaseTx(t, sp.coins, excess, fee, w.platform, toIssuer, sp.networkFee);
            && Releasable(t, sp.coins, Named(subs), excess, fee, w.platform, sp.networkFee) && toIssuer >= t.minimum
            && OwnedBy(sp.coins, Ids(Subscribers(w, subs)))
            && sp.networkFee == ReleaseFee(t, sp.coins, excess, fee, w.platform, w.rate, w.size)
            && sp.outputs == ReleaseDescribed(t, excess, fee, w.platform, toIssuer, sp.networkFee)
            && sp.txid == w.txid(tx) && tx.lockTime == t.closeLock && |tx.ins| == |sp.coins|
            && forall k :: 0 <= k < |tx.ins| ==> tx.ins[k] == TxIn(sp.coins[k].outpoint, 0xffff_fffe)
  {
    hide CoinsOf, ExcessOf, ReleaseDescribed, ReleaseToIssuer, ReleaseFee, CoinsFree, PayableExcess;
    assert forall i :: 0 <= i < |subs| ==> Ids(Subscribers(w, subs))[i] == subs[i];
  }

  /** A release the desk records is a transaction every one of its coins' release leaf admits,
      described to the issuer output by output, and returning each subscriber exactly what
      they paid above their amount; it spends its coins exactly as long as what it pays
      besides the issuer stays below 2^64. */
  lemma RecordedReleaseIsAdmitted(w: World, t: Terms, spends: seq<Spend>, subs: seq<SubId>, fee: nat, sp: Spend, j: nat)
    requires MayRelease(w, t, spends, subs, fee) && Releases(w, t, subs, fee, sp)
    requires Distinct(Subscribers(w, subs)) && Sum(Atoms(sp.coins)) < U64 && j < |subs|
    ensures var excess := ExcessOf(w, sp.coins, subs);
            var toIssuer := ReleaseToIssuer(sp.coins, excess, fee, sp.networkFee);
            var tx := ReleaseTx(t, sp.coins, excess, fee, w.platform, toIssuer, sp.networkFee);
            && sp.txid == w.txid(tx) && Describes(sp.outputs, tx)
            && tx.lockTime == t.closeLock && |tx.ins| == |sp.coins|
            && (forall k :: 0 <= k < |tx.ins| ==> tx.ins[k] == TxIn(sp.coins[k].outpoint, 0xffff_fffe) && ReleaseLeaf(t, tx, k))
            && PaidTo(sp.outputs, |sp.outputs|, subs[j]) == Overpaid(w, sp.coins, subs[j])
            && PayeesInPlace(sp.outputs, fee > 0) && PricedFor(sp.networkFee, w.size(ReleaseMeasured(tx)), w.rate)
            && (forall i :: 0 <= i < |sp.outputs| ==> PaysWhomItSays(w, t, sp.outputs[i], tx.outs[i], fee, sp.networkFee))
            && (Sum(OutAtoms(tx.outs)) == Sum(Atoms(sp.coins))
                <==> Sum(ExcessAtoms(excess)) + fee + sp.networkFee < U64)
  {
    hide MayRelease, Releases, ReleaseTx, ReleaseDescribed, Releasable, ReleaseToIssuer, ReleaseFee, CoinsOf,
         PricedFor, ReleaseMeasured, ReleaseLeaf, PaysWhomItSays, PayeesInPlace, Describes, OwnedBy;
    var who := Subscribers(w, subs);
    var excess := ExcessOf(w, sp.coins, subs);
    var toIssuer := ReleaseToIssuer(sp.coins, excess, fee, sp.networkFee);
    ReleaseAsBuilt(w, t, spends, subs, fee, sp);
    OwedIsOverpaid(sp.coins, who);
    ReleaseFeeIs(t, sp.coins, excess, fee, w.platform, w.rate, w.size, toIssuer, sp.networkFee);
    DescribedAsBuilt(t, sp.coins, excess, fee, w.platform, toIssuer, sp.networkFee);
    ReleaseMeetsEveryLeaf(t, sp.coins, excess, fee, w.platform, toIssuer, sp.networkFee);
    ReleasePaysWhomItSays(w, t, sp.coins, subs, fee, toIssuer, sp.networkFee);
    ReleasePaysBack(t, excess, fee, w.platform, toIssuer, sp.networkFee, subs[j]);
    ListedDue(who, Owed(sp.coins, who), |who|, j);
    PricesMakeCoins(sp.coins, who);
    ReleaseConservesIff(t, sp.coins, Named(subs), excess, fee, w.platform, sp.networkFee);
    hide ExcessOf, PaidTo, Overpaid, Sum;
  }

  lemma ReturnPaysOwner(w: World, t: Terms, kind: Kind, subs: seq<SubId>, sp: Spend, k: nat)
    requires kind != Release && Returns(w, t, kind, subs, sp) && k < |sp.coins|
    ensures SharesFit(t, sp.coins, sp.networkFee)
    ensures var kept := Keeps(sp.networkFee, |sp.coins|, |sp.coins|);
            var tx := ReturnTx(kind, t, sp.coins, RefundsOf(w, subs), kept, sp.networkFee);
            && sp.txid == w.txid(tx) && |tx.outs| == |sp.outputs| == |sp.coins| + 1
            && tx.ins[k] == TxIn(sp.coins[k].outpoint, if kind == Refund then 0xffff_fffe else 0xffff_ffff)
            && tx.lockTime == (if kind == Refund then t.deadlineLock else 0)
            && sp.outputs[k].payee == ToSubscriber(sp.coins[k].sub)
            && RefundScript(RefundsOf(w, subs), sp.coins[k].sub) == w.refundScript(sp.coins[k].sub)
            && sp.outputs[k].script == tx.outs[k].script == w.refundScript(sp.coins[k].sub)
            && tx.outs[k].asset == t.payAsset
            && tx.outs[k].value == Explicit(sp.outputs[k].atoms) && sp.outputs[k].atoms + kept[k] == sp.coins[k].atoms
            && sp.outputs[|sp.coins|].payee == NetworkFee && tx.outs[|sp.coins|] == PlainOut(t.payAsset, sp.networkFee, NO_SCRIPT)
  {
    assert sp.coins[k].sub in Named(subs);
    var tx := ReturnTx(kind, t, sp.coins, RefundsOf(w, subs), Keeps(sp.networkFee, |sp.coins|, |sp.coins|), sp.networkFee);
    assert tx.outs[k] == PlainOut(sp.coins[k].asset, sp.coins[k].atoms - Keep(sp.networkFee, |sp.coins|, k),
                                  RefundScript(RefundsOf(w, subs), sp.coins[k].sub));
    hide CoinsOf, ReturnFeeNow, RefundsOf;
  }

  /** A cancel or refund the desk records returns coin k by output k, and each coin's leaf admits
      it as long as the leaf's sum fits 63 bits. */
  lemma RecordedReturnIsAdmitted(w: World, t: Terms, kind: Kind, subs: seq<SubId>, sp: Spend, k: nat)
    requires kind != Release && Returns(w, t, kind, subs, sp) && k < |sp.coins|
    requires sp.coins[k].atoms + t.feeCap < I64_LIMIT
    ensures var kept := Keeps(sp.networkFee, |sp.coins|, |sp.coins|);
            var tx := ReturnTx(kind, t, sp.coins, RefundsOf(w, subs), kept, sp.networkFee);
            var script := w.refundScript(sp.coins[k].sub);
            && sp.txid == w.txid(tx) && |tx.outs| == |sp.outputs| == |sp.coins| + 1
            && tx.ins[k] == TxIn(sp.coins[k].outpoint, if kind == Refund then 0xffff_fffe else 0xffff_ffff)
            && tx.lockTime == (if kind == Refund then t.deadlineLock else 0)
            && sp.outputs[k].payee == ToSubscriber(sp.coins[k].sub) && sp.outputs[k].script == tx.outs[k].script == script
            && tx.outs[k].asset == t.payAsset
            && tx.outs[k].value == Explicit(sp.outputs[k].atoms) && sp.outputs[k].atoms + kept[k] == sp.coins[k].atoms
            && sp.outputs[|sp.coins|].payee == NetworkFee && tx.outs[|sp.coins|] == PlainOut(t.payAsset, sp.networkFee, NO_SCRIPT)
            && PricedFor(sp.networkFee, w.size(ReturnMeasured(tx, sp.coins)), w.rate)
            && Sum(OutAtoms(tx.outs)) == Sum(Atoms(sp.coins))
            && (if kind == Cancel then CancelLeaf(t, sp.coins[k], script, tx, k)
                else RefundLeaf(t, sp.coins[k], script, tx, k))
  {
    ReturnMeetsLeafIff(kind, t, sp.coins, RefundsOf(w, subs), sp.networkFee, k);
    ReturnConserves(kind, t, sp.coins, RefundsOf(w, subs), sp.networkFee);
    ReturnPaysOwner(w, t, kind, subs, sp, k);
    ReturnFeeIs(kind, t, sp.coins, RefundsOf(w, subs), w.rate, w.size, Keeps(sp.networkFee, |sp.coins|, |sp.coins|),
        sp.networkFee);
    hide PricedFor, ReturnMeasured, ReturnTx, RefundsOf, CancelLeaf, RefundLeaf, Sum;
  }
}
