/** The escrow's books as a state machine: every store write, every request to move
    tokens, and everything the outside world may do between them, one event each. */
module EscrowProtocol {
  import opened Prelude
  import opened Chain
  import opened Covenant
  import opened EscrowTerms

  // ---- the books ----

  datatype SubState = Created | InEscrow | Settled | Refunded

  datatype Phase =
    Pending | Delivering | DeliveryFailed | AwaitingRelease | AwaitingCancel | Settled | Refunded

  datatype Settlement = Settlement(
    phase: Phase, delivery: Option<Txid>, release: Option<Txid>, refund: Option<Txid>)

  datatype SpendState = Built | Broadcasting | Broadcast | Superseded | Failed

  /** A recorded transaction over escrow coins. subs is the list it was asked for;
      the coins it spends may belong to fewer of them. */
  datatype Spend = Spend(
    kind: Kind, state: SpendState, txid: Txid, coins: seq<Coin>, subs: seq<SubId>, outputs: seq<Described>,
    networkFee: nat)

  /** Who holds the offering's lock. */
  datatype Holder = Nobody | Closing | Serving

  /** latest is the spend recorded last by the holder of the lock; asking is the
      subscription whose transfer is the holder's very next act. */
  datatype Books = Books(
    subs: map<SubId, SubState>, settlements: map<SubId, Settlement>, spends: seq<Spend>,
    asked: seq<SubId>, holder: Holder, latest: Option<nat>, asking: Option<SubId>, tip: int, mtp: int)

  datatype Rules = Rules(terms: Terms, blocksPerDay: nat) {
    predicate Sound() {
      InOrder(terms.closeLock, terms.deadlineLock, blocksPerDay)
    }
  }

  type Rows = map<SubId, Settlement>

  const NEW_SETTLEMENT := Settlement(Pending, None, None, None)

  function Outpoints(coins: seq<Coin>): set<Outpoint> {
    set k | 0 <= k < |coins| :: coins[k].outpoint
  }

  /** Not yet on chain as far as the books know, and still able to get there. */
  predicate InFlight(sp: Spend) {
    sp.state == Built || sp.state == Broadcasting
  }

  predicate Live(sp: Spend) {
    InFlight(sp) || sp.state == Broadcast
  }

  /** Its money is the issuer's, or may be: delivered, or a delivery under way. */
  predicate DeliveredOrDelivering(rows: Rows, sub: SubId) {
    sub in rows &&
    var st := rows[sub];
    || st.phase == Delivering || st.phase == AwaitingRelease || st.phase == Phase.Settled
    || (st.delivery.Some? && st.phase != Phase.Refunded)
  }

  predicate Unsettled(subs: map<SubId, SubState>, sub: SubId) {
    sub in subs && (subs[sub] == Created || subs[sub] == InEscrow)
  }

  /** A spend that covers its coins: one under way or done, or one built -- unless it is
      of the kind being rebuilt, which the new one supersedes. */
  predicate Holds(sp: Spend, except: Option<Kind>) {
    || sp.state == Broadcasting || sp.state == Broadcast
    || (sp.state == Built && except != Some(sp.kind))
  }

  /** The last of the first n spends to hold a coin; a later one hides an earlier one. */
  function LastHolder(spends: seq<Spend>, n: nat, except: Option<Kind>, coin: Outpoint): (i: Option<nat>)
    requires n <= |spends|
    ensures i.Some? ==> i.value < n && Holds(spends[i.value], except) && coin in Outpoints(spends[i.value].coins)
    ensures i == None ==> forall k :: 0 <= k < n && Holds(spends[k], except) ==> coin !in Outpoints(spends[k].coins)
  {
    if n == 0 then None
    else if Holds(spends[n - 1], except) && coin in Outpoints(spends[n - 1].coins) then Some(n - 1)
    else LastHolder(spends, n - 1, except, coin)
  }

  predicate UnsignedCancel(sp: Spend) {
    sp.kind == Cancel && sp.state == Built
  }

  /** A coin may be taken when nothing holds it, or when what holds it is an unsigned
      cancel and the new spend a refund, which needs nobody's signature. */
  predicate CoinFree(spends: seq<Spend>, kind: Kind, coin: Outpoint) {
    var h := LastHolder(spends, |spends|, Some(kind), coin);
    h == None || (kind == Refund && UnsignedCancel(spends[h.value]))
  }

  /** A built spend the latest one replaces. */
  predicate Replaced(sp: Spend, kind: Kind) {
    sp.state == Built && (sp.kind == kind || (sp.kind == Cancel && kind == Refund))
  }

  /** The spend recorded last has superseded what it replaces. */
  predicate Tidy(spends: seq<Spend>, latest: Option<nat>) {
    latest.Some? ==>
      && latest.value < |spends|
      && forall i :: 0 <= i < |spends| && i != latest.value ==> !Replaced(spends[i], spends[latest.value].kind)
  }

  /** Every subscription whose coin the latest cancel returns has been marked. */
  predicate Marked(spends: seq<Spend>, latest: Option<nat>, rows: Rows) {
    latest.Some? && latest.value < |spends| && spends[latest.value].kind == Cancel ==>
      forall sub :: sub in Subs(spends[latest.value].coins) ==> sub in rows && Returning(rows[sub].phase)
  }

  /** Phases from which no delivery and no release can start any more. */
  predicate Returning(p: Phase) {
    p == DeliveryFailed || p == AwaitingCancel || p == Phase.Refunded || p == Phase.Settled
  }

  // ---- events ----

  datatype Event =
    // the world, at any moment
    | Tick(tip: int, mtp: int)
    | Subscribe(sub: SubId)
    | Credit(sub: SubId)
    | Crash
    // the offering's lock
    | Enter(holder: Holder)
    | Leave
    // one settlement row
    | CreateSettlement(sub: SubId)
    | MarkDelivering(sub: SubId)
    | AskTransfer(sub: SubId)
    | RecordDelivery(sub: SubId, txid: Txid)
    | FailDelivery(sub: SubId)
    | AwaitRelease(sub: SubId)
    | AwaitCancel(sub: SubId)
    // the recorded spends
    | Insert(spend: Spend)
    | Move(at: nat, to: SpendState)
    | Land(at: nat)

  predicate PhaseIs(rows: Rows, sub: SubId, p: Phase) {
    sub in rows && rows[sub].phase == p
  }

  predicate CoinsFree(spends: seq<Spend>, kind: Kind, coins: seq<Coin>) {
    forall k :: 0 <= k < |coins| ==> CoinFree(spends, kind, coins[k].outpoint)
  }

  /** Whose coins each kind of spend may take, as its builder's callers choose them. */
  predicate MayTake(r: Rules, b: Books, kind: Kind, subs: set<SubId>) {
    match kind
    case Release =>
      && b.holder == Closing
      && forall sub :: sub in subs ==> PhaseIs(b.settlements, sub, AwaitingRelease)
    case Cancel =>
      && forall sub :: sub in subs ==>
           && Unsettled(b.subs, sub)
           && !PhaseIs(b.settlements, sub, Delivering)
           && (b.holder == Closing ==> sub in b.settlements && Returning(b.settlements[sub].phase))
    case Refund =>
      && b.holder == Serving
      && LockReached(r.terms.deadlineLock, b.tip, b.mtp)
      && forall sub :: sub in subs ==>
           sub in b.subs && (Unsettled(b.subs, sub) ==> !DeliveredOrDelivering(b.settlements, sub))
  }

  /** The state changes a recorded spend goes through, bar landing. */
  predicate MayMove(r: Rules, b: Books, sp: Spend, to: SpendState) {
    match (sp.state, to)
    case (Built, Superseded) => true
    case (Built, Broadcasting) =>
      Tidy(b.spends, b.latest) && (sp.kind == Release ==> LockReached(r.terms.closeLock, b.tip, b.mtp))
    case (Broadcasting, Built) => Tidy(b.spends, b.latest) && sp.kind != Refund
    case (Broadcasting, Failed) => Tidy(b.spends, b.latest)
    case (Broadcasting, Superseded) => Tidy(b.spends, b.latest) && sp.kind == Refund
    case _ => false
  }

  /** When the program, or the world, can produce an event. */
  predicate Enabled(r: Rules, b: Books, e: Event) {
    match e
    case Tick(tip, mtp) => b.tip <= tip && b.mtp <= mtp
    case Subscribe(sub) => sub !in b.subs
    case Credit(sub) => sub in b.subs && (b.subs[sub] == Created || b.subs[sub] == SubState.Refunded)
    case Crash => true
    case Enter(h) =>
      && b.holder == Nobody && h != Nobody
      && (h == Closing ==> CloseGate(r.terms, r.blocksPerDay, b.tip, b.mtp))
    case Leave => b.holder != Nobody && Tidy(b.spends, b.latest) && Marked(b.spends, b.latest, b.settlements)
    case CreateSettlement(sub) => b.holder != Nobody && sub in b.subs
    case MarkDelivering(sub) =>
      && b.holder == Closing && PhaseIs(b.settlements, sub, Pending)
      && b.settlements[sub].delivery == None
    case AskTransfer(sub) => b.holder == Closing && b.asking == Some(sub)
    case RecordDelivery(sub, _) =>
      b.holder == Closing && PhaseIs(b.settlements, sub, Delivering) && b.settlements[sub].delivery == None
    case FailDelivery(sub) => b.holder == Closing
        && (PhaseIs(b.settlements, sub, Pending) || PhaseIs(b.settlements, sub, Delivering))
    case AwaitRelease(sub) =>
      && b.holder == Closing && (PhaseIs(b.settlements, sub, Pending) || PhaseIs(b.settlements, sub, Delivering))
      && b.settlements[sub].delivery.Some?
      && sub in b.subs && b.subs[sub] == InEscrow
    case AwaitCancel(sub) =>
      && b.holder != Nobody && Unsettled(b.subs, sub) && sub in b.settlements && !PhaseIs(b.settlements, sub, Delivering)
      && (b.holder == Closing ==> Returning(b.settlements[sub].phase))
    case Insert(sp) =>
      && b.holder != Nobody && Tidy(b.spends, b.latest) && Marked(b.spends, b.latest, b.settlements)
      && sp.state == Built && CoinsFree(b.spends, sp.kind, sp.coins) && MayTake(r, b, sp.kind, Subs(sp.coins))
    case Move(at, to) => b.holder != Nobody && at < |b.spends| && MayMove(r, b, b.spends[at], to)
    case Land(at) => b.holder != Nobody && Tidy(b.spends, b.latest) && at < |b.spends| && b.spends[at].state == Broadcasting
  }

  // ---- what an event does ----

  function WithPhase(b: Books, sub: SubId, p: Phase): Books
    requires sub in b.settlements
  {
    b.(settlements := b.settlements[sub := b.settlements[sub].(phase := p)], asking := None)
  }

  /** The settlement row a landed spend leaves a subscription with. */
  function Applied(kind: Kind, state: SubState, st: Settlement, txid: Txid): Settlement {
    if kind == Release then st.(release := Some(txid), phase := Phase.Settled)
    else if state == SubState.Settled || state == SubState.Refunded then st
    else st.(refund := Some(txid), phase := Phase.Refunded)
  }

  function AppliedSub(kind: Kind, state: SubState): SubState {
    if kind == Release then SubState.Settled
    else if state == SubState.Settled then SubState.Settled
    else SubState.Refunded
  }

  function RowOf(settlements: map<SubId, Settlement>, sub: SubId): Settlement {
    if sub in settlements then settlements[sub] else NEW_SETTLEMENT
  }

  function LandedSettlements(subs: map<SubId, SubState>, settlements: map<SubId, Settlement>, who: set<SubId>,
                             kind: Kind, txid: Txid): map<SubId, Settlement>
  {
    map sub | sub in settlements.Keys + who * subs.Keys ::
      if sub in who && sub in subs then Applied(kind, subs[sub], RowOf(settlements, sub), txid)
      else RowOf(settlements, sub)
  }

  function LandedSubs(subs: map<SubId, SubState>, who: set<SubId>, kind: Kind): map<SubId, SubState> {
    map sub | sub in subs :: if sub in who then AppliedSub(kind, subs[sub]) else subs[sub]
  }

  function Landed(b: Books, at: nat): Books
    requires at < |b.spends|
  {
    var sp := b.spends[at];
    b.(settlements := LandedSettlements(b.subs, b.settlements, Subs(sp.coins), sp.kind, sp.txid),
       subs := LandedSubs(b.subs, Subs(sp.coins), sp.kind),
       spends := b.spends[at := sp.(state := Broadcast)],
       asking := None)
  }

  function After(r: Rules, b: Books, e: Event): Books
    requires Enabled(r, b, e)
  {
    match e
    case Tick(tip, mtp) => b.(tip := tip, mtp := mtp)
    case Subscribe(sub) => b.(subs := b.subs[sub := Created])
    case Credit(sub) => b.(subs := b.subs[sub := InEscrow])
    case Crash => b.(holder := Nobody, latest := None, asking := None)
    case Enter(h) => b.(holder := h, latest := None, asking := None)
    case Leave => b.(holder := Nobody, latest := None, asking := None)
    case CreateSettlement(sub) =>
      b.(settlements := b.settlements[sub := RowOf(b.settlements, sub)], asking := None)
    case MarkDelivering(sub) => WithPhase(b, sub, Delivering).(asking := Some(sub))
    case AskTransfer(sub) => b.(asked := b.asked + [sub], asking := None)
    case RecordDelivery(sub, txid) =>
      b.(settlements := b.settlements[sub := b.settlements[sub].(delivery := Some(txid))], asking := None)
    case FailDelivery(sub) => WithPhase(b, sub, DeliveryFailed)
    case AwaitRelease(sub) => WithPhase(b, sub, AwaitingRelease)
    case AwaitCancel(sub) => WithPhase(b, sub, AwaitingCancel)
    case Insert(sp) => b.(spends := b.spends + [sp], latest := Some(|b.spends|), asking := None)
    case Move(at, to) => b.(spends := b.spends[at := b.spends[at].(state := to)], asking := None)
    case Land(at) => Landed(b, at)
  }

  // ---- runs ----

  /** The books b, the event that finds them, and the books it leaves. */
  predicate Next(r: Rules, b: Books, e: Event, b': Books) {
    Enabled(r, b, e) && b' == After(r, b, e)
  }

  /** A run: the books before each event and after the last. */
  ghost predicate Run(r: Rules, bs: seq<Books>, es: seq<Event>) {
    && |bs| == |es| + 1
    && forall k :: 0 <= k < |es| ==> Next(r, bs[k], es[k], bs[k + 1])
  }

  lemma RunOn(r: Rules, bs: seq<Books>, es: seq<Event>, e: Event, b': Books)
    requires Run(r, bs, es) && Next(r, bs[|es|], e, b')
    ensures Run(r, bs + [b'], es + [e])
  {
  }

  /** An offering nobody has subscribed to. */
  predicate Start(b: Books) {
    && b.subs == map[] && b.settlements == map[] && b.spends == [] && b.asked == []
    && b.holder == Nobody && b.latest == None && b.asking == None
  }

  /** The run begins with an offering nobody has subscribed to. */
  ghost predicate FullRun(r: Rules, bs: seq<Books>, es: seq<Event>) {
    Run(r, bs, es) && Start(bs[0])
  }

  /** These events, from an offering nobody has subscribed to, lead to these books. */
  ghost predicate Leads(r: Rules, es: seq<Event>, b: Books) {
    exists bs :: FullRun(r, bs, es) && bs[|es|] == b
  }

  /** No call was cut short. */
  ghost predicate CrashFree(es: seq<Event>) {
    forall k :: 0 <= k < |es| ==> !es[k].Crash?
  }

  lemma LeadsOn(r: Rules, es: seq<Event>, b: Books, e: Event)
    requires Leads(r, es, b) && Enabled(r, b, e)
    ensures Leads(r, es + [e], After(r, b, e))
  {
    var bs :| FullRun(r, bs, es) && bs[|es|] == b;
    RunOn(r, bs, es, e, After(r, b, e));
    var more, all := bs + [After(r, b, e)], es + [e];
    assert FullRun(r, more, all) && more[|all|] == After(r, b, e);
  }
}
