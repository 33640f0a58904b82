/** The handlers, driven step by step to where the escrow's promises fail. */
module EscrowHazards {
  import opened Prelude
  import opened Chain
  import opened Covenant
  import opened EscrowProtocol
  import opened EscrowSafety
  import opened EscrowExclusion
  import opened EscrowFuture
  import opened EscrowLedger
  import opened CloseLoop
  import opened EscrowPlans
  import opened EscrowCare
  import opened ReleaseAccount
  import opened EscrowDesk
  import opened EscrowScene

  const DELIVERED := Settlement(AwaitingRelease, Some(100), None, None)

  function BooksWith(state: SubState, rows: Rows, spends: seq<Spend>, asked: seq<SubId>): Books {
    Books(map[7 := state], rows, spends, asked, Nobody, None, None, 10, 0)
  }

  /** Subscription 7 paid, and nothing delivered. */
  function PaidWith(spends: seq<Spend>): Books {
    BooksWith(InEscrow, map[], spends, [])
  }

  function ClosedWith(spends: seq<Spend>, coin: Coin): Books
    requires Sevens(coin)
  {
    BooksWith(InEscrow, map[7 := DELIVERED], spends + [ReleaseOf(coin)], [7])
  }

  const SILENT := Node(Unreached, o => NoAnswer)
  const ACCEPTS := Node(Accepted, o => NoAnswer)

  /** Whoever is asked for tokens sends them. */
  function Delivers(sub: SubId): Policy {
    Policy(true, Some(100), true)
  }

  /** Subscription 7 is paid, and the close comes. */
  method Open() returns (d: Desk)
    ensures fresh(d) && d.Valid() && d.rules == RULES && d.budget == None && d.books == PaidWith([]) && d.ledger == []
  {
    hide Leads;
    d := new Desk(RULES, 0, 0, None);
    d.Step(Subscribe(7));
    d.Step(Credit(7));
    d.Step(Tick(10, 0));
  }

  // ---- closing over one coin ----

  predicate NoReleaseIn(spends: seq<Spend>) {
    forall i :: 0 <= i < |spends| ==> spends[i].kind != Release
  }

  lemma OneDelivery(spends: seq<Spend>)
    ensures AfterDeliveries(Locked(PaidWith(spends), Closing), [7], Delivers, 1)
            == Locked(PaidWith(spends), Closing).(settlements := map[7 := DELIVERED], asked := [7])
    ensures forall f: Feasible :: Attempts(Tried(map[], [7], Delivers), f, 1) == 1
  {
    assert AfterDeliveries(Locked(PaidWith(spends), Closing), [7], Delivers, 0) == Locked(PaidWith(spends), Closing);
    assert !FailedBefore(Tried(map[], [7], Delivers), 0);
  }

  lemma NoFee(coin: Coin)
    ensures FeesTogether([], [7], Holding(coin).quote, 1) == 0
  {
    assert FeesTogether([], [7], Holding(coin).quote, 0) == 0;
    assert FeeOf([], 7, Holding(coin).quote) == 0;
  }

  lemma MayCloseNow(coin: Coin, spends: seq<Spend>, rows: Rows)
    requires Sevens(coin) && CoinsFree(spends, Release, [coin]) && !Dropped(rows, 7)
    ensures MayClose(RULES, BooksWith(InEscrow, rows, spends, []), [], [7], Holding(coin))
    ensures MayClose(RULES, BooksWith(InEscrow, rows, spends, [7]), [], [7], Holding(coin))
  {
    hide CoinsFree, MayRelease;
    ReleaseBuilt(coin, spends);
    assert StillSold(rows, [7], 0) == [];
    assert StillSold(rows, [7], 1) == [7];
    NoFee(coin);
  }

  lemma DeliveredIsReady(rows: Rows)
    requires rows == map[7 := DELIVERED]
    ensures Ready(rows, [7], 1) == [7] && Unready(rows, [7], 1) == []
  {
    assert Ready(rows, [7], 0) == [] && Unready(rows, [7], 0) == [];
  }

  lemma {:induction false} NothingLike(spends: seq<Spend>, n: nat, subs: seq<SubId>)
    requires n <= |spends| && NoReleaseIn(spends)
    ensures LastLike(spends, n, Release, subs) == None
  {
    if n > 0 { NothingLike(spends, n - 1, subs); }
  }

  lemma ReleaseHanded(d: Books, coin: Coin, spends: seq<Spend>)
    requires Sevens(coin) && NoReleaseIn(spends)
    requires d == Locked(PaidWith(spends), Closing).(settlements := map[7 := DELIVERED], asked := [7])
    ensures Stopped(Closed(d, [7], Some(ReleaseOf(coin)), None, false)) == ClosedWith(spends, coin)
  {
    DeliveredIsReady(d.settlements);
    hide Unready;
    assert WithSpend(d, ReleaseOf(coin)).spends == spends + [ReleaseOf(coin)];
  }

  lemma NothingFixed(coin: Coin, spends: seq<Spend>)
    ensures FeesFixed(Locked(PaidWith(spends), Closing), [], [7], Delivers, 1, Holding(coin).quote) == []
  {
    OneDelivery(spends);
    DeliveredIsReady(map[7 := DELIVERED]);
    hide Ready, AfterDeliveries;
    assert AllCharged([], [7], Holding(coin).quote, 0) == [];
    assert Charged([], 7, Holding(coin).quote) == [];
  }

  /** The issuer closes: subscription 7's tokens are delivered and the release of its coin handed out. */
  method Close(d: Desk, coin: Coin, ghost spends: seq<Spend>)
    requires d.Valid() && d.rules == RULES && d.budget == None && d.books == PaidWith(spends) && d.ledger == []
    requires Sevens(coin) && NoReleaseIn(spends) && CoinsFree(spends, Release, [coin])
    modifies d
    ensures d.Valid() && d.budget == None && d.books == ClosedWith(spends, coin) && d.ledger == []
  {
    hide Leads, MayClose, Closed, AfterDeliveries, Attempts, Inv, FeesFixed, Ready, Unready, FeesTogether, MayRelease, Releases,
         MayReturn, Returns, CrashFree, Tried, FeasibleNow, CoinsFree, LastLike, NoReleaseIn, WithSpend;
    MayCloseNow(coin, spends, map[]);
    OneDelivery(spends);
    NothingFixed(coin, spends);
    ReleaseBuilt(coin, spends);
    NoFee(coin);
    NothingLike(spends, |spends|, [7]);
    DeliveredIsReady(map[7 := DELIVERED]);
    ReleaseHanded(AfterDeliveries(Locked(PaidWith(spends), Closing), [7], Delivers, 1), coin, spends);
    var done, release, cancel, handed, alive :=
      d.HandleClose([7], Holding(coin), Holding(coin), Holding(coin), Delivers);
    assert release == Some(ReleaseOf(coin)) && cancel == None && !handed;
  }

  // ---- a cancel that names a released subscription ----

  const FIRST_OUT := ReleaseOf(FIRST).(state := Broadcasting)
  const LATE_CANCEL := CancelOf(LATE)

  const UNANSWERED := BooksWith(InEscrow, map[7 := DELIVERED], [FIRST_OUT], [7])
  const CANCELLED := BooksWith(InEscrow, map[7 := DELIVERED.(phase := AwaitingCancel)], [FIRST_OUT, LATE_CANCEL], [7])
  const REFUNDED := BooksWith(SubState.Refunded, map[7 := Settlement(Phase.Refunded, Some(100), None, Some(61))],
                              [FIRST_OUT, LATE_CANCEL.(state := Broadcast)], [7])
  const BOTH := Settlement(Phase.Settled, Some(100), Some(60), Some(61))

  /** The issuer signs the release, and the node does not answer: it may be out. */
  method SignRelease(d: Desk)
    requires d.Valid() && d.rules == RULES && d.budget == None && d.books == ClosedWith([], FIRST)
    modifies d
    ensures d.Valid() && d.budget == None && d.books == UNANSWERED
  {
    hide Leads, Inv, LedgerOf, Signed, Finished;
    SignedUnanswered(ClosedWith([], FIRST));
    var _ := d.HandleSign(0, true, SILENT, sub => 0);
  }

  /** Signing a built release or cancel the node does not answer for leaves it broadcasting. */
  lemma SignedUnanswered(b: Books)
    requires |b.spends| == 1 && b.spends[0].state == Built && b.spends[0].kind != Refund && b.tip == 10
    requires b.holder == Nobody && b.latest == None && b.asking == None
    ensures Stopped(Signed(RULES, Locked(b, Serving), 0, true, SILENT))
            == b.(spends := [b.spends[0].(state := Broadcasting)])
  {
  }

  lemma NamedIsTaken(rows: Rows, want: set<SubId>)
    requires want == {7} && 7 in rows && rows[7].phase != Delivering
    ensures ToCancel(map[7 := InEscrow], rows, want, [7], 1) == [7]
  {
    assert ToCancel(map[7 := InEscrow], rows, want, [7], 0) == [];
  }

  /** It is mined, so its coin has left the chain's unspent coins; a late coin arrives, and the
      issuer cancels subscription 7 by name. */
  method CancelByName(d: Desk)
    requires d.Valid() && d.rules == RULES && d.budget == None && d.books == UNANSWERED
    modifies d
    ensures d.Valid() && d.budget == None && d.books == CANCELLED
  {
    hide Leads, Inv, MayReturn, Returns, Safe, StaysSafe, CoinsFree, ToCancel;
    hide CancelRecorded, NamesNoneReleased;
    OtherCoinIsFree(FIRST_OUT, Cancel, FIRST, LATE);
    CancelBuilt(LATE, [FIRST_OUT]);
    NamedIsTaken(UNANSWERED.settlements, {7});
    CancelledIs();
    var _, _ := d.HandleCancel({7}, Holding(LATE), [7]);
  }

  lemma CancelledIs()
    ensures Stopped(CancelRecorded(Locked(UNANSWERED, Serving), LATE_CANCEL, [7])) == CANCELLED
  {
    assert Named([7]) == {7};
  }

  /** The issuer signs the cancel, and it lands. */
  method SignCancel(d: Desk)
    requires d.Valid() && d.rules == RULES && d.budget == None && d.books == CANCELLED
    modifies d
    ensures d.Valid() && d.budget == None && d.books == REFUNDED
  {
    hide Leads, Inv, LedgerOf, Signed;
    SignedCancelLands();
    var _ := d.HandleSign(1, true, ACCEPTS, sub => 0);
  }

  lemma SignedCancelLands()
    ensures Stopped(Signed(RULES, Locked(CANCELLED, Serving), 1, true, ACCEPTS)) == REFUNDED
  {
    hide Landed, FateOf;
    var held := Locked(CANCELLED, Serving);
    var sent := Moved(held, 1, Broadcasting);
    assert Signed(RULES, held, 1, true, ACCEPTS) == Finished(sent, 1, ACCEPTS);
    Accepts(sent, 1);
    hide Finished, Signed;
    CancelLands(sent, 1, LATE);
  }

  /** A spend over one coin of subscription 7 lands. */
  lemma OneLands(b: Books, at: nat, coin: Coin)
    requires at < |b.spends| && b.spends[at].coins == [coin] && coin.sub == 7
    ensures var sp := b.spends[at];
            Landed(b, at) == b.(settlements := LandedSettlements(b.subs, b.settlements, {7}, sp.kind, sp.txid),
                                subs := LandedSubs(b.subs, {7}, sp.kind),
                                spends := b.spends[at := sp.(state := Broadcast)], asking := None)
  {
    assert 7 in Subs([coin]) by { assert [coin][0].sub == 7; }
    assert Subs([coin]) == {7};
  }

  /** The watcher sends the release again, and the node already has it. */
  method HealRelease(d: Desk)
    requires d.Valid() && d.rules == RULES && d.budget == None && d.books == REFUNDED
    modifies d
    ensures d.Valid() && d.budget == None && d.books.settlements == map[7 := BOTH]
  {
    hide Leads, Inv, Finished;
    HealedReleaseLands();
    var _ := d.HealBroadcast(0, ACCEPTS, sub => 0);
  }

  lemma HealedReleaseLands()
    ensures Finished(Locked(REFUNDED, Serving), 0, ACCEPTS).settlements == map[7 := BOTH]
  {
    hide Landed, LandedSettlements, LandedSubs, Finished;
    HoldingCoins(FIRST);
    var b := Locked(REFUNDED, Serving);
    Accepts(b, 0);
    OneLands(b, 0, FIRST);
    ReleaseSettles(REFUNDED.subs, REFUNDED.settlements);
  }

  lemma BothIsUnsafe(b: Books)
    requires b.settlements == map[7 := BOTH]
    ensures !Safe(b)
  {
    assert 7 in b.settlements;
  }

  lemma ReleaseCoversSeven(sp: Spend)
    requires sp == FIRST_OUT
    ensures LiveRelease(sp) && Covers(sp, 7)
  {
    HoldingCoins(FIRST);
  }

  /** The careless step is the cancel's: it names a subscription in a live release, and breaks
      the promise at once. */
  lemma NamedCancelWasCareless()
    ensures !NamesNoneReleased(UNANSWERED, {7}, [7]) && !Safe(CANCELLED)
  {
    hide Subs, ReturnAmong, CancelAmong;
    var before, after := UNANSWERED.spends, CANCELLED.spends;
    ReleaseCoversSeven(before[0]);
    ReleaseCoversSeven(after[0]);
    assert ReleaseAmong(before, 7);
    var want: set<SubId>, all: seq<SubId> := {7}, [7];
    assert 7 in want && 7 in all && PhaseIs(UNANSWERED.settlements, 7, AwaitingRelease);
    assert CANCELLED.settlements[7].phase == AwaitingCancel;
  }

  /** The promise is false of the handlers: one subscription ends released and refunded. */
  method ReleasedAndRefunded() returns (d: Desk)
    ensures fresh(d) && d.Valid() && d.rules == RULES && RULES.Sound() && !Safe(d.books)
    ensures d.books.settlements == map[7 := BOTH] && BOTH.release == Some(60) && BOTH.refund == Some(61)
  {
    hide Leads, Safe;
    d := Open();
    Close(d, FIRST, []);
    SignRelease(d);
    CancelByName(d);
    SignCancel(d);
    HealRelease(d);
    BothIsUnsafe(d.books);
  }

  // ---- a cancel stopped before it marks anybody ----

  const CUT := PaidWith([CancelOf(FIRST)])
  const CANCEL_OUT := CancelOf(FIRST).(state := Broadcasting)
  const CUT_OUT := PaidWith([CANCEL_OUT])

  /** The first half of a cancel that names nobody: recorded, and then the process stops. */
  method CancelCut(d: Desk)
    requires d.Valid() && d.rules == RULES && d.budget == None && d.books == PaidWith([])
    modifies d
    ensures d.Valid() && d.budget == None && d.books == CUT && d.ledger == old(d.ledger)
  {
    hide Leads, Inv, Consistent, CrashFree, MayReturn, Returns;
    CancelBuilt(FIRST, []);
    HoldingCoins(FIRST);
    d.TakeLock(Serving);
    assert Named([7]) == {7};
    var made, alive := d.BuildReturnSpend(Cancel, Holding(FIRST), [7]);
    d.Step(Crash);
  }

  /** The issuer signs it, and the node does not answer. */
  method SignCutCancel(d: Desk)
    requires d.Valid() && d.rules == RULES && d.budget == None && d.books == CUT
    modifies d
    ensures d.Valid() && d.budget == None && d.books == CUT_OUT && d.ledger == old(d.ledger)
  {
    hide Leads, Inv, LedgerOf, Signed;
    SignedUnanswered(CUT);
    var _ := d.HandleSign(0, true, SILENT, sub => 0);
  }

  const CUT_LANDED := BooksWith(SubState.Refunded, map[7 := Settlement(Phase.Refunded, Some(100), None, Some(61))],
                                [CANCEL_OUT.(state := Broadcast), ReleaseOf(LATE)], [7])

  /** The cancel is seen on chain. */
  method HealCutCancel(d: Desk)
    requires d.Valid() && d.rules == RULES && d.budget == None && d.books == ClosedWith([CANCEL_OUT], LATE)
    modifies d
    ensures d.Valid() && d.budget == None && d.books == CUT_LANDED
  {
    hide Leads, Inv, Finished;
    HealedCancelLands();
    var _ := d.HealBroadcast(0, ACCEPTS, sub => 0);
  }

  lemma HealedCancelLands()
    ensures Stopped(Finished(Locked(ClosedWith([CANCEL_OUT], LATE), Serving), 0, ACCEPTS)) == CUT_LANDED
  {
    hide Landed, Finished;
    var b := Locked(ClosedWith([CANCEL_OUT], LATE), Serving);
    Accepts(b, 0);
    CancelLands(b, 0, FIRST);
    assert b.spends[0 := CANCEL_OUT.(state := Broadcast)] == CUT_LANDED.spends;
  }

  /** Subscription 7's cancel lands. */
  lemma CancelLands(b: Books, at: nat, coin: Coin)
    requires at < |b.spends| && b.spends[at].coins == [coin] && coin.sub == 7
    requires b.spends[at].kind == Cancel && b.spends[at].txid == 61
    requires b.subs == map[7 := InEscrow] && b.settlements.Keys == {7}
    ensures Landed(b, at) == b.(settlements := map[7 := b.settlements[7].(refund := Some(61), phase := Phase.Refunded)],
                                subs := map[7 := SubState.Refunded],
                                spends := b.spends[at := b.spends[at].(state := Broadcast)], asking := None)
  {
    hide Landed, LandedSettlements, LandedSubs;
    OneLands(b, at, coin);
    ReturnRefunds(b.subs, b.settlements);
  }

  lemma ReturnRefunds(subs: map<SubId, SubState>, rows: Rows)
    requires subs == map[7 := InEscrow] && 7 in rows && rows.Keys == {7}
    ensures LandedSettlements(subs, rows, {7}, Cancel, 61) == map[7 := rows[7].(refund := Some(61), phase := Phase.Refunded)]
    ensures LandedSubs(subs, {7}, Cancel) == map[7 := SubState.Refunded]
  {
  }

  /** The issuer signs the release of the late coin. */
  method SignLateRelease(d: Desk)
    requires d.Valid() && d.rules == RULES && d.budget == None && d.books == CUT_LANDED
    modifies d
    ensures d.Valid() && d.budget == None && d.books.settlements == map[7 := BOTH]
  {
    hide Leads, Inv, LedgerOf, Signed;
    SignedReleaseLands();
    var _ := d.HandleSign(1, true, ACCEPTS, sub => 0);
  }

  lemma SignedReleaseLands()
    ensures Stopped(Signed(RULES, Locked(CUT_LANDED, Serving), 1, true, ACCEPTS)).settlements == map[7 := BOTH]
  {
    hide Subs, FateOf, LandedSettlements, LandedSubs, Landed;
    HoldingCoins(LATE);
    var held := Locked(CUT_LANDED, Serving);
    var sent := Moved(held, 1, Broadcasting);
    assert Signed(RULES, held, 1, true, ACCEPTS) == Finished(sent, 1, ACCEPTS);
    Accepts(sent, 1);
    LateSettles(sent);
  }

  lemma Accepts(b: Books, at: nat)
    requires at < |b.spends|
    ensures Finished(b, at, ACCEPTS) == Landed(b, at)
  {
  }

  lemma LateSettles(b: Books)
    requires |b.spends| == 2 && b.spends[1] == ReleaseOf(LATE).(state := Broadcasting)
    requires b.subs == CUT_LANDED.subs && b.settlements == CUT_LANDED.settlements
    ensures Landed(b, 1).settlements == map[7 := BOTH]
  {
    hide Landed, LandedSettlements, LandedSubs;
    HoldingCoins(LATE);
    OneLands(b, 1, LATE);
    ReleaseSettles(b.subs, b.settlements);
  }

  lemma ReleaseSettles(subs: map<SubId, SubState>, rows: Rows)
    requires subs == map[7 := SubState.Refunded] && rows == map[7 := Settlement(Phase.Refunded, Some(100), None, Some(61))]
    ensures LandedSettlements(subs, rows, {7}, Release, 60) == map[7 := BOTH]
  {
  }

  /** The books found after such a stop are safe, and say that a release of subscription 7 is not. */
  lemma CutCancelIsTold()
    ensures Safe(CUT) && CancelAmong(CUT.spends, 7) && !MarkedOver(CUT_OUT, {7})
  {
    HoldingCoins(FIRST);
    assert Covers(CUT.spends[0], 7) && Covers(CUT_OUT.spends[0], 7);
    assert CancelAmong(CUT_OUT.spends, 7) && 7 in {7};
  }

  /** Nobody is named, and still one subscription ends released and refunded: a close after the stop
      delivers and releases what the unmarked cancel returns. */
  method CutCancelReleasedAndRefunded() returns (d: Desk)
    ensures fresh(d) && d.Valid() && d.rules == RULES && !Safe(d.books)
    ensures d.books.settlements == map[7 := BOTH]
  {
    hide Leads, Safe, CoinsFree;
    d := Open();
    CancelCut(d);
    SignCutCancel(d);
    OtherCoinIsFree(CANCEL_OUT, Release, FIRST, LATE);
    Close(d, LATE, [CANCEL_OUT]);
    HealCutCancel(d);
    SignLateRelease(d);
    BothIsUnsafe(d.books);
  }

  // ---- delivered tokens, and the money back ----

  const SENT_ROW := Settlement(Delivering, Some(100), None, None)
  const RECORDED_ONLY := BooksWith(InEscrow, map[7 := SENT_ROW], [], [7])

  /** The account of subscription 7 is gone. */
  function Gone7(sub: SubId): Policy {
    Policy(false, None, false)
  }

  /** The tokens are asked for and their transfer recorded, and the process stops. */
  method DeliverCut(d: Desk)
    requires d.Valid() && d.rules == RULES && d.budget == None && d.books == PaidWith([]) && d.ledger == []
    modifies d
    ensures d.Valid() && d.budget == None && d.books == RECORDED_ONLY && d.ledger == []
  {
    hide Leads, Inv, Consistent, CrashFree;
    d.TakeLock(Closing);
    var alive := d.CreateRow(7);
    alive := d.AskForTransfer(7);
    alive := d.RecordRow(7, 100);
    d.Step(Crash);
  }

  const FAILED_ROW := SENT_ROW.(phase := DeliveryFailed)

  lemma OneFailure()
    ensures AfterDeliveries(Locked(RECORDED_ONLY, Closing), [7], Gone7, 1)
            == Locked(RECORDED_ONLY, Closing).(settlements := map[7 := FAILED_ROW])
    ensures forall f: Feasible :: Attempts(Tried(map[7 := SENT_ROW], [7], Gone7), f, 1) == 1
    ensures Ready(map[7 := FAILED_ROW], [7], 1) == [] && Unready(map[7 := FAILED_ROW], [7], 1) == [7]
  {
    assert AfterDeliveries(Locked(RECORDED_ONLY, Closing), [7], Gone7, 0) == Locked(RECORDED_ONLY, Closing);
    assert !FailedBefore(Tried(map[7 := SENT_ROW], [7], Gone7), 0);
    assert Ready(map[7 := FAILED_ROW], [7], 0) == [] && Unready(map[7 := FAILED_ROW], [7], 0) == [];
  }

  const TAKEN_BACK := BooksWith(InEscrow, map[7 := FAILED_ROW.(phase := AwaitingCancel)], [CancelOf(FIRST)], [7])

  lemma CancelHandedIs(d: Books)
    requires d == Locked(RECORDED_ONLY, Closing).(settlements := map[7 := FAILED_ROW])
    ensures Stopped(Closed(d, [7], None, Some(CancelOf(FIRST)), true)) == TAKEN_BACK
  {
    OneFailure();
    hide Unready;
    assert Named([7]) == {7};
  }

  /** The next close finds no account, calls the delivery failed, and hands out the cancel. */
  method CloseWithoutAccount(d: Desk)
    requires d.Valid() && d.rules == RULES && d.budget == None && d.books == RECORDED_ONLY && d.ledger == []
    modifies d
    ensures d.Valid() && d.budget == None && d.books == TAKEN_BACK
  {
    hide Leads, MayClose, Closed, AfterDeliveries, Attempts, Inv, FeesFixed, Ready, Unready, FeesTogether, MayRelease, Releases,
         MayReturn, Returns, CrashFree, Tried, FeasibleNow, CoinsFree, WithSpend;
    NothingHeld();
    MayCloseNow(FIRST, [], map[7 := SENT_ROW]);
    OneFailure();
    CancelBuilt(FIRST, []);
    CancelHandedIs(AfterDeliveries(Locked(RECORDED_ONLY, Closing), [7], Gone7, 1));
    var done, release, cancel, handed, alive :=
      d.HandleClose([7], Holding(FIRST), Holding(FIRST), Holding(FIRST), Gone7);
    assert release == None && cancel == Some(CancelOf(FIRST)) && handed;
  }

  lemma TakenBackLands()
    ensures Stopped(Signed(RULES, Locked(TAKEN_BACK, Serving), 0, true, ACCEPTS)).settlements
            == map[7 := Settlement(Phase.Refunded, Some(100), None, Some(61))]
  {
    hide Landed, FateOf;
    var held := Locked(TAKEN_BACK, Serving);
    var sent := Moved(held, 0, Broadcasting);
    assert Signed(RULES, held, 0, true, ACCEPTS) == Finished(sent, 0, ACCEPTS);
    Accepts(sent, 0);
    hide Finished, Signed;
    CancelLands(sent, 0, FIRST);
  }

  /** A subscription has its tokens, by a recorded delivery, and its money back. */
  method DeliveredAndRefunded() returns (d: Desk)
    ensures fresh(d) && d.Valid() && d.rules == RULES
    ensures d.books.settlements == map[7 := Settlement(Phase.Refunded, Some(100), None, Some(61))]
  {
    hide Leads, Inv, LedgerOf, Signed, CoinsFree;
    d := Open();
    DeliverCut(d);
    CloseWithoutAccount(d);
    TakenBackLands();
    var _ := d.HandleSign(0, true, ACCEPTS, sub => 0);
  }

  // ---- a stop between a record and what it replaces ----

  const TWICE := BooksWith(InEscrow, map[7 := NEW_SETTLEMENT.(phase := AwaitingCancel)], [CancelOf(FIRST), CancelOf(FIRST)], [])

  const ONCE := BooksWith(InEscrow, map[7 := NEW_SETTLEMENT.(phase := AwaitingCancel)], [CancelOf(FIRST)], [])

  lemma OnceIs()
    ensures Stopped(CancelRecorded(Locked(PaidWith([]), Serving), CancelOf(FIRST), [7])) == ONCE
    ensures ToCancel(map[7 := InEscrow], map[], {}, [7], 1) == [7]
  {
    assert Named([7]) == {7};
    assert ToCancel(map[7 := InEscrow], map[], {}, [7], 0) == [];
  }

  method CancelOnce() returns (d: Desk)
    ensures fresh(d) && d.Valid() && d.rules == RULES && d.budget == None && d.books == ONCE
  {
    hide Leads, Inv, Consistent, CrashFree, MayReturn, Returns, StaysSafe, Safe, CoinsFree, ToCancel, CancelRecorded,
         NamesNoneReleased;
    d := Open();
    CancelBuilt(FIRST, []);
    NothingHeld();
    OnceIs();
    var made, alive := d.HandleCancel({}, Holding(FIRST), [7]);
  }

  /** The issuer cancels, and cancels again; the second record is made, and the process stops before
      it supersedes the first: two unsigned cancels over one coin. */
  method TwoOverOneCoin() returns (d: Desk)
    ensures fresh(d) && d.Valid() && d.rules == RULES && d.books == TWICE && d.books.holder == Nobody
    ensures !Apart(d.books.spends)
  {
    hide Leads, Inv, Consistent, CrashFree, CoinsFree, Apart;
    d := CancelOnce();
    d.TakeLock(Serving);
    UnsentCoinIsFree(CancelOf(FIRST), FIRST);
    HoldingCoins(FIRST);
    var alive := d.Record(CancelOf(FIRST));
    d.Step(Crash);
    TwiceIsNotApart();
  }

  lemma NothingHeld()
    ensures CoinsFree([], Cancel, [FIRST]) && CoinsFree([], Release, [FIRST])
  {
  }

  lemma TwiceIsNotApart()
    ensures !Apart(TWICE.spends)
  {
    HoldingCoins(FIRST);
    var spends := TWICE.spends;
    assert Live(spends[0]) && Live(spends[1]);
    assert FIRST.outpoint in Outpoints(spends[0].coins) && FIRST.outpoint in Outpoints(spends[1].coins);
  }

  // ---- a fee that comes late ----

  /** The price list could not be read at the close, so no fee was charged; it can be at the signing. */
  const LATE_FEE: Quote := sub => 10

  lemma ReleaseRows(quote: Quote)
    requires quote(7) == 10
    ensures LandedLedger([], {7}, Release, [FIRST], ReleaseOf(FIRST).outputs, 1, 60, quote)
            == [Entry(FeeRow, Some(7), 10, None), Entry(ReleaseRow, Some(7), 990, Some(60)),
                Entry(NetworkFeeRow, None, 1, Some(60))]
    ensures EachFits(ReleaseOf(FIRST), [], quote)
  {
    var coins, outs := [FIRST], ReleaseOf(FIRST).outputs;
    assert Order(coins, 0) == [] && Order(coins, 1) == [7];
    assert PaidIn(coins, 0, 7) == 0 && PaidIn(coins, 1, 7) == 1000;
    assert PaidTo(outs, 0, 7) == 0 && PaidTo(outs, 1, 7) == 0 && PaidTo(outs, 2, 7) == 0;
    assert FeeOf([], 7, quote) == 10;
    assert LedgerAfter([], {7}, Release, coins, outs, [7], 0, 60, quote) == [];
  }

  lemma ReleaseIsRecorded()
    ensures Recorded(Holding(FIRST), TERMS, [], [7], 0, ReleaseOf(FIRST))
    ensures IssuerGets(Holding(FIRST), [7], 0, ReleaseOf(FIRST)) == 999
  {
    hide MayRelease, Releases;
    ReleaseBuilt(FIRST, []);
    ReleaseFigures(FIRST);
    HoldingCoins(FIRST);
    NoExcess(FIRST);
    assert ExcessAtoms([]) == [];
  }

  /** A recorded release, charged for as the program charges, that does not account. */
  lemma LateFeeIsUnaccounted()
    ensures Recorded(Holding(FIRST), TERMS, [], [7], 0, ReleaseOf(FIRST))
    ensures ChargedFor([], [7], Holding(FIRST).quote, 0, [])
    ensures EachFits(ReleaseOf(FIRST), [], LATE_FEE)
    ensures !Accounts(ReleaseOf(FIRST), [], {7}, LATE_FEE, IssuerGets(Holding(FIRST), [7], 0, ReleaseOf(FIRST)))
  {
    ReleaseIsRecorded();
    hide Recorded, IssuerGets;
    NoFee(FIRST);
    ReleaseRows(LATE_FEE);
    var rows := [Entry(FeeRow, Some(7), 10, None), Entry(ReleaseRow, Some(7), 990, Some(60)),
                 Entry(NetworkFeeRow, None, 1, Some(60))];
    assert Total(rows, 0, ReleaseRow) == 0 && Total(rows, 1, ReleaseRow) == 0 && Total(rows, 2, ReleaseRow) == 990;
    assert FeeList([], [7], Holding(FIRST).quote) == [0] && SumTo([0], 0) == 0;
    assert AllCharged([], [7], Holding(FIRST).quote, 0) == [] && Charged([], 7, Holding(FIRST).quote) == [];
  }

  /** The release lands with 999 to the issuer and 1 to the network, and the ledger says 990 and
      a fee of 10 that no output paid. */
  method LateFee() returns (d: Desk)
    ensures fresh(d) && d.Valid() && d.books.spends == [ReleaseOf(FIRST).(state := Broadcast)]
    ensures ReleaseOf(FIRST).outputs[0].atoms + ReleaseOf(FIRST).networkFee == 1000
    ensures d.ledger == [Entry(FeeRow, Some(7), 10, None), Entry(ReleaseRow, Some(7), 990, Some(60)),
                         Entry(NetworkFeeRow, None, 1, Some(60))]
  {
    hide Leads, Inv, LandedLedger, EachFits;
    d := Open();
    Close(d, FIRST, []);
    ReleaseRows(LATE_FEE);
    assert d.books.subs.Keys == {7};
    var _ := d.HandleSign(0, true, ACCEPTS, LATE_FEE);
  }
}
