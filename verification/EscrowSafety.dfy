/** What every run of the escrow keeps, and the one kind of step that does not. */
module EscrowSafety {
  import opened Prelude
  import opened Chain
  import opened Covenant
  import opened EscrowTerms
  import opened EscrowProtocol

  // ---- the invariant ----

  /** Money waits for the issuer, or is the issuer's, only against a recorded delivery. */
  ghost predicate DeliveredFirst(rows: Rows) {
    forall sub :: PhaseIs(rows, sub, AwaitingRelease) || PhaseIs(rows, sub, Phase.Settled)
      ==> rows[sub].delivery.Some?
  }

  predicate LiveRelease(sp: Spend) {
    sp.kind == Release && Live(sp)
  }

  predicate ReturnInFlight(sp: Spend) {
    sp.kind != Release && InFlight(sp)
  }

  predicate Covers(sp: Spend, sub: SubId) {
    sub in Subs(sp.coins)
  }

  /** A live release covers only subscriptions awaiting it or settled by it. */
  ghost predicate ReleasesCoverDelivered(spends: seq<Spend>, rows: Rows) {
    forall i, sub :: 0 <= i < |spends| && LiveRelease(spends[i]) && Covers(spends[i], sub)
      ==> PhaseIs(rows, sub, AwaitingRelease) || PhaseIs(rows, sub, Phase.Settled)
  }

  /** Each final txid stands only beside its own outcome. */
  ghost predicate OneOutcome(rows: Rows) {
    forall sub :: sub in rows ==>
      && (rows[sub].release.Some? ==> rows[sub].phase == Phase.Settled)
      && (rows[sub].refund.Some? ==> rows[sub].phase == Phase.Refunded || rows[sub].phase == AwaitingCancel)
  }

  /** Subscription and settlement rows agree on what is settled and what awaits release. */
  ghost predicate RowsAgree(subs: map<SubId, SubState>, rows: Rows) {
    && (forall sub :: PhaseIs(rows, sub, Phase.Settled) ==> sub in subs && subs[sub] == SubState.Settled)
    && (forall sub :: PhaseIs(rows, sub, AwaitingRelease) ==> sub in subs && subs[sub] == InEscrow)
  }

  /** No return can still land on a subscription a live release covers, unless it is settled. */
  ghost predicate NoOpposition(subs: map<SubId, SubState>, spends: seq<Spend>) {
    forall i, j, sub ::
      && 0 <= i < |spends| && ReturnInFlight(spends[i]) && Covers(spends[i], sub)
      && 0 <= j < |spends| && LiveRelease(spends[j]) && Covers(spends[j], sub)
      ==> sub in subs && subs[sub] == SubState.Settled
  }

  /** Refunds exist only past the deadline, and never beside a close. */
  ghost predicate RefundsAreLate(deadline: nat, spends: seq<Spend>, tip: int, mtp: int, holder: Holder) {
    forall i :: 0 <= i < |spends| && spends[i].kind == Refund ==>
      LockReached(deadline, tip, mtp) && holder != Closing
  }

  /** No token transfer has been asked for twice, nor is about to be. */
  ghost predicate AskedOnce(asked: seq<SubId>, asking: Option<SubId>, rows: Rows) {
    && (forall i, j :: 0 <= i < j < |asked| ==> asked[i] != asked[j])
    && (forall sub :: sub in asked ==> sub in rows && rows[sub].phase != Pending)
    && (asking.Some? ==> PhaseIs(rows, asking.value, Delivering) && asking.value !in asked)
  }

  /** The rows tell one story: what is out, what is delivered and what is final agree. */
  ghost predicate Consistent(r: Rules, b: Books) {
    && DeliveredFirst(b.settlements)
    && ReleasesCoverDelivered(b.spends, b.settlements)
    && OneOutcome(b.settlements)
    && RowsAgree(b.subs, b.settlements)
    && RefundsAreLate(r.terms.deadlineLock, b.spends, b.tip, b.mtp, b.holder)
    && AskedOnce(b.asked, b.asking, b.settlements)
  }

  ghost predicate Inv(r: Rules, b: Books) {
    Consistent(r, b) && NoOpposition(b.subs, b.spends)
  }

  // ---- the condition ----

  predicate ReleaseAmong(spends: seq<Spend>, sub: SubId) {
    exists i :: 0 <= i < |spends| && LiveRelease(spends[i]) && Covers(spends[i], sub)
  }

  predicate ReturnAmong(spends: seq<Spend>, sub: SubId) {
    exists i :: 0 <= i < |spends| && ReturnInFlight(spends[i]) && Covers(spends[i], sub)
  }

  predicate CancelAmong(spends: seq<Spend>, sub: SubId) {
    exists i :: 0 <= i < |spends| && spends[i].kind == Cancel && InFlight(spends[i]) && Covers(spends[i], sub)
  }

  /** What the books can be asked before each step: a cancel must not touch a
      subscription a live release covers, nor a release one a cancel in flight covers. */
  predicate Careful(b: Books, e: Event) {
    match e
    case AwaitCancel(sub) => !ReleaseAmong(b.spends, sub)
    case Insert(sp) =>
      (match sp.kind
       case Release => forall sub :: sub in Subs(sp.coins) ==> !CancelAmong(b.spends, sub)
       case Cancel => forall sub :: sub in Subs(sp.coins) ==> !ReleaseAmong(b.spends, sub)
       case Refund => true)
    case _ => true
  }

  // ---- each event keeps the invariant ----

  lemma WorldKeeps(r: Rules, b: Books, e: Event)
    requires r.Sound() && Consistent(r, b) && Enabled(r, b, e)
    requires e.Tick? || e.Subscribe? || e.Credit? || e.Crash? || e.Enter? || e.Leave?
    ensures Consistent(r, After(r, b, e))
    ensures NoOpposition(b.subs, b.spends) ==> NoOpposition(After(r, b, e).subs, After(r, b, e).spends)
  {
    var b' := After(r, b, e);
    if e.Enter? && e.holder == Closing {
      forall i | 0 <= i < |b.spends| ensures b.spends[i].kind != Refund {
        if b.spends[i].kind == Refund {
          LockReachedMonotone(LastCloseLock(r.terms.deadlineLock, r.blocksPerDay), r.terms.deadlineLock,
                              b.tip, b.mtp, b.tip, b.mtp);
        }
      }
    }
  }

  /** Rewriting one settlement row keeps the invariant when the row keeps what it promises. */
  lemma OneRowKeeps(r: Rules, b: Books, sub: SubId, st: Settlement, asking: Option<SubId>)
    requires Consistent(r, b)
    requires PhaseIs(b.settlements, sub, AwaitingRelease) || PhaseIs(b.settlements, sub, Phase.Settled)
             ==> st.phase == b.settlements[sub].phase
    requires st.phase == AwaitingRelease || st.phase == Phase.Settled ==> st.delivery.Some?
    requires st.release.Some? ==> st.phase == Phase.Settled
    requires st.refund.Some? ==> st.phase == Phase.Refunded || st.phase == AwaitingCancel
    requires st.phase == Phase.Settled ==> sub in b.subs && b.subs[sub] == SubState.Settled
    requires st.phase == AwaitingRelease ==> sub in b.subs && b.subs[sub] == InEscrow
    requires sub in b.asked ==> st.phase != Pending
    requires asking == None || (asking == Some(sub) && st.phase == Delivering && sub !in b.asked)
    ensures Consistent(r, b.(settlements := b.settlements[sub := st], asking := asking))
  {
    var rows' := b.settlements[sub := st];
    assert forall s :: s != sub ==> (s in rows' <==> s in b.settlements) && (s in rows' ==> rows'[s] == b.settlements[s]);
    forall i, s | 0 <= i < |b.spends| && LiveRelease(b.spends[i]) && Covers(b.spends[i], s)
      ensures PhaseIs(rows', s, AwaitingRelease) || PhaseIs(rows', s, Phase.Settled)
    {
      assert PhaseIs(b.settlements, s, AwaitingRelease) || PhaseIs(b.settlements, s, Phase.Settled);
    }
  }

  lemma DeliveryKeeps(r: Rules, b: Books, e: Event)
    requires r.Sound() && Consistent(r, b) && Enabled(r, b, e)
    requires e.CreateSettlement? || e.MarkDelivering? || e.AskTransfer? || e.RecordDelivery?
             || e.FailDelivery? || e.AwaitRelease?
    ensures Consistent(r, After(r, b, e))
    ensures After(r, b, e).subs == b.subs && After(r, b, e).spends == b.spends
  {
    if !e.AskTransfer? {
      var b' := After(r, b, e);
      var st := b'.settlements[e.sub];
      if e.sub in b.settlements {
        assert PhaseIs(b.settlements, e.sub, b.settlements[e.sub].phase);
      }
      OneRowKeeps(r, b, e.sub, st, b'.asking);
    }
  }

  lemma AwaitCancelKeepsIff(r: Rules, b: Books, sub: SubId)
    requires r.Sound() && Inv(r, b) && Enabled(r, b, AwaitCancel(sub))
    ensures Inv(r, After(r, b, AwaitCancel(sub))) <==> !ReleaseAmong(b.spends, sub)
  {
    var st := b.settlements[sub].(phase := AwaitingCancel);
    var b' := After(r, b, AwaitCancel(sub));
    assert b' == b.(settlements := b.settlements[sub := st], asking := None);
    if ReleaseAmong(b.spends, sub) {
      var i :| 0 <= i < |b.spends| && LiveRelease(b.spends[i]) && Covers(b.spends[i], sub);
      assert LiveRelease(b'.spends[i]) && Covers(b'.spends[i], sub);
      assert !PhaseIs(b'.settlements, sub, AwaitingRelease) && !PhaseIs(b'.settlements, sub, Phase.Settled);
      assert !ReleasesCoverDelivered(b'.spends, b'.settlements);
    } else {
      UncoveredRowKeeps(r, b, sub, st);
    }
  }

  /** A row no live release covers may leave awaiting release. */
  lemma UncoveredRowKeeps(r: Rules, b: Books, sub: SubId, st: Settlement)
    requires Consistent(r, b) && !ReleaseAmong(b.spends, sub) && sub in b.settlements
    requires st == b.settlements[sub].(phase := AwaitingCancel) && !PhaseIs(b.settlements, sub, Phase.Settled)
    ensures Consistent(r, b.(settlements := b.settlements[sub := st], asking := None))
  {
    var rows' := b.settlements[sub := st];
    assert forall s :: s != sub ==> (s in rows' <==> s in b.settlements) && (s in rows' ==> rows'[s] == b.settlements[s]);
    forall i, s | 0 <= i < |b.spends| && LiveRelease(b.spends[i]) && Covers(b.spends[i], s)
      ensures PhaseIs(rows', s, AwaitingRelease) || PhaseIs(rows', s, Phase.Settled)
    {
      assert s != sub;
      assert PhaseIs(b.settlements, s, AwaitingRelease) || PhaseIs(b.settlements, s, Phase.Settled);
    }
    assert b.settlements[sub].release == None;
  }

  lemma MoveKeeps(r: Rules, b: Books, at: nat, to: SpendState)
    requires r.Sound() && Consistent(r, b) && Enabled(r, b, Move(at, to))
    ensures Consistent(r, After(r, b, Move(at, to)))
    ensures NoOpposition(b.subs, b.spends) ==> NoOpposition(b.subs, After(r, b, Move(at, to)).spends)
  {
    var b' := After(r, b, Move(at, to));
    MovedSpends(r, b, at, to);
    CoverageStays(b.spends, b'.spends, b.settlements, b.settlements);
    if NoOpposition(b.subs, b.spends) { OppositionStays(b.subs, b.subs, b.spends, b'.spends); }
  }

  /** Moving a spend, short of landing, makes none live and changes no coins. */
  lemma MovedSpends(r: Rules, b: Books, at: nat, to: SpendState)
    requires Enabled(r, b, Move(at, to))
    ensures SameCoverage(b.spends, After(r, b, Move(at, to)).spends)
  {
  }

  // ---- recording a spend ----

  lemma CoverageGrows(spends: seq<Spend>, sp: Spend, rows: Rows)
    requires ReleasesCoverDelivered(spends, rows)
    requires LiveRelease(sp) ==> forall sub :: Covers(sp, sub) ==>
               PhaseIs(rows, sub, AwaitingRelease) || PhaseIs(rows, sub, Phase.Settled)
    ensures ReleasesCoverDelivered(spends + [sp], rows)
  {
  }

  /** A new spend opposes nothing exactly when nothing unsettled is covered from both sides. */
  lemma OppositionGrowsIff(subs: map<SubId, SubState>, spends: seq<Spend>, sp: Spend)
    requires NoOpposition(subs, spends)
    ensures NoOpposition(subs, spends + [sp]) <==>
            forall sub :: Covers(sp, sub)
              && ((ReturnInFlight(sp) && ReleaseAmong(spends, sub)) || (LiveRelease(sp) && ReturnAmong(spends, sub)))
              ==> sub in subs && subs[sub] == SubState.Settled
  {
    var all := spends + [sp];
    assert all[|spends|] == sp;
    assert forall i :: 0 <= i < |spends| ==> all[i] == spends[i];
  }

  /** Recording a spend keeps the books consistent, whatever it covers. */
  lemma InsertConsistent(r: Rules, b: Books, sp: Spend)
    requires Consistent(r, b) && Enabled(r, b, Insert(sp))
    ensures Consistent(r, After(r, b, Insert(sp)))
  {
    CoverageGrows(b.spends, sp, b.settlements);
  }

  /** Recording a spend keeps the invariant exactly when the books were asked first. */
  lemma InsertKeepsIff(r: Rules, b: Books, sp: Spend)
    requires r.Sound() && Inv(r, b) && Enabled(r, b, Insert(sp))
    ensures Inv(r, After(r, b, Insert(sp))) <==> Careful(b, Insert(sp))
  {
    InsertConsistent(r, b, sp);
    OppositionGrowsIff(b.subs, b.spends, sp);
    match sp.kind
    case Release => InsertedReleaseOpposesIff(r, b, sp);
    case Cancel =>
    case Refund => InsertedRefundOpposesNothing(r, b, sp);
  }

  lemma InsertedReleaseOpposesIff(r: Rules, b: Books, sp: Spend)
    requires Inv(r, b) && Enabled(r, b, Insert(sp)) && sp.kind == Release
    ensures forall sub :: Covers(sp, sub) ==>
              && sub in b.subs && b.subs[sub] == InEscrow
              && (ReturnAmong(b.spends, sub) <==> CancelAmong(b.spends, sub))
  {
    forall sub | Covers(sp, sub)
      ensures sub in b.subs && b.subs[sub] == InEscrow && (ReturnAmong(b.spends, sub) <==> CancelAmong(b.spends, sub))
    {
      assert PhaseIs(b.settlements, sub, AwaitingRelease);
      assert forall i :: 0 <= i < |b.spends| ==> b.spends[i].kind != Refund;
    }
  }

  lemma InsertedRefundOpposesNothing(r: Rules, b: Books, sp: Spend)
    requires Inv(r, b) && Enabled(r, b, Insert(sp)) && sp.kind == Refund
    ensures forall sub :: Covers(sp, sub) && ReleaseAmong(b.spends, sub)
              ==> sub in b.subs && b.subs[sub] == SubState.Settled
  {
    forall sub | Covers(sp, sub) && ReleaseAmong(b.spends, sub)
      ensures sub in b.subs && b.subs[sub] == SubState.Settled
    {
      assert PhaseIs(b.settlements, sub, AwaitingRelease) || PhaseIs(b.settlements, sub, Phase.Settled);
    }
  }

  // ---- a spend landing ----

  lemma LandedSpends(b: Books, at: nat)
    requires at < |b.spends| && b.spends[at].state == Broadcasting
    ensures var spends' := Landed(b, at).spends;
            && |spends'| == |b.spends|
            && forall i :: 0 <= i < |b.spends| ==>
                 && spends'[i].kind == b.spends[i].kind
                 && spends'[i].coins == b.spends[i].coins
                 && (LiveRelease(spends'[i]) <==> LiveRelease(b.spends[i]))
                 && (ReturnInFlight(spends'[i]) <==> ReturnInFlight(b.spends[i]) && i != at)
  {
  }

  /** Landing changes no spend's kind or coins and makes none live. */
  predicate SameCoverage(spends: seq<Spend>, spends': seq<Spend>) {
    && |spends'| == |spends|
    && forall i :: 0 <= i < |spends| ==>
         && spends'[i].kind == spends[i].kind
         && spends'[i].coins == spends[i].coins
         && (LiveRelease(spends'[i]) ==> LiveRelease(spends[i]))
         && (ReturnInFlight(spends'[i]) ==> ReturnInFlight(spends[i]))
  }

  lemma CoverageStays(spends: seq<Spend>, spends': seq<Spend>, rows: Rows, rows': Rows)
    requires SameCoverage(spends, spends') && ReleasesCoverDelivered(spends, rows)
    requires forall sub :: ReleaseAmong(spends, sub) ==>
               (PhaseIs(rows, sub, AwaitingRelease) ==>
                  PhaseIs(rows', sub, AwaitingRelease) || PhaseIs(rows', sub, Phase.Settled))
               && (PhaseIs(rows, sub, Phase.Settled) ==> PhaseIs(rows', sub, Phase.Settled))
    ensures ReleasesCoverDelivered(spends', rows')
  {
    forall i, sub | 0 <= i < |spends'| && LiveRelease(spends'[i]) && Covers(spends'[i], sub)
      ensures PhaseIs(rows', sub, AwaitingRelease) || PhaseIs(rows', sub, Phase.Settled)
    {
      assert LiveRelease(spends[i]) && Covers(spends[i], sub);
      assert ReleaseAmong(spends, sub);
    }
  }

  lemma OppositionStays(subs: map<SubId, SubState>, subs': map<SubId, SubState>, spends: seq<Spend>, spends': seq<Spend>)
    requires SameCoverage(spends, spends') && NoOpposition(subs, spends)
    requires forall sub :: sub in subs && subs[sub] == SubState.Settled ==> sub in subs' && subs'[sub] == SubState.Settled
    ensures NoOpposition(subs', spends')
  {
    forall i, j, sub |
      && 0 <= i < |spends'| && ReturnInFlight(spends'[i]) && Covers(spends'[i], sub)
      && 0 <= j < |spends'| && LiveRelease(spends'[j]) && Covers(spends'[j], sub)
      ensures sub in subs' && subs'[sub] == SubState.Settled
    {
      assert ReturnInFlight(spends[i]) && Covers(spends[i], sub);
      assert LiveRelease(spends[j]) && Covers(spends[j], sub);
    }
  }

  /** A release lands only on delivered subscriptions, none of them refunded. */
  lemma ReleaseLandsOn(r: Rules, b: Books, at: nat, sub: SubId)
    requires Inv(r, b) && Enabled(r, b, Land(at)) && b.spends[at].kind == Release && Covers(b.spends[at], sub)
    ensures var b' := Landed(b, at);
            && PhaseIs(b'.settlements, sub, Phase.Settled)
            && b'.settlements[sub].refund == None && b'.settlements[sub].delivery.Some?
            && sub in b'.subs && b'.subs[sub] == SubState.Settled
            && (sub in b.asked ==> b'.settlements[sub].phase != Pending)
  {
    assert PhaseIs(b.settlements, sub, AwaitingRelease) || PhaseIs(b.settlements, sub, Phase.Settled);
  }

  /** What the invariant asks of one subscription's rows. */
  predicate RowKeeps(b: Books, sub: SubId) {
    && ((PhaseIs(b.settlements, sub, AwaitingRelease) || PhaseIs(b.settlements, sub, Phase.Settled)) ==>
          b.settlements[sub].delivery.Some?)
    && (sub in b.settlements ==>
          && (b.settlements[sub].release.Some? ==> b.settlements[sub].phase == Phase.Settled)
          && (b.settlements[sub].refund.Some? ==>
                b.settlements[sub].phase == Phase.Refunded || b.settlements[sub].phase == AwaitingCancel))
    && (PhaseIs(b.settlements, sub, Phase.Settled) ==> sub in b.subs && b.subs[sub] == SubState.Settled)
    && (PhaseIs(b.settlements, sub, AwaitingRelease) ==> sub in b.subs && b.subs[sub] == InEscrow)
    && (sub in b.asked ==> sub in b.settlements && b.settlements[sub].phase != Pending)
  }

  lemma ReleasedRowKeeps(r: Rules, b: Books, at: nat, sub: SubId)
    requires Inv(r, b) && Enabled(r, b, Land(at)) && b.spends[at].kind == Release
    ensures RowKeeps(Landed(b, at), sub)
  {
    if Covers(b.spends[at], sub) {
      ReleaseLandsOn(r, b, at, sub);
    } else {
      assert RowKeeps(b, sub);
      ElsewhereUnchanged(b, at);
    }
  }

  lemma ReleasedRows(r: Rules, b: Books, at: nat)
    requires Inv(r, b) && Enabled(r, b, Land(at)) && b.spends[at].kind == Release
    ensures var b' := Landed(b, at);
            && DeliveredFirst(b'.settlements) && OneOutcome(b'.settlements) && RowsAgree(b'.subs, b'.settlements)
            && AskedOnce(b.asked, None, b'.settlements)
  {
    var b' := Landed(b, at);
    forall sub ensures RowKeeps(b', sub) {
      ReleasedRowKeeps(r, b, at, sub);
    }
    RowsKeepTogether(b');
  }

  lemma RowsKeepTogether(b: Books)
    requires (forall sub :: RowKeeps(b, sub)) && forall i, j :: 0 <= i < j < |b.asked| ==> b.asked[i] != b.asked[j]
    ensures DeliveredFirst(b.settlements) && OneOutcome(b.settlements) && RowsAgree(b.subs, b.settlements)
    ensures AskedOnce(b.asked, None, b.settlements)
  {
    forall sub | PhaseIs(b.settlements, sub, AwaitingRelease) || PhaseIs(b.settlements, sub, Phase.Settled)
      ensures b.settlements[sub].delivery.Some?
      ensures PhaseIs(b.settlements, sub, Phase.Settled) ==> sub in b.subs && b.subs[sub] == SubState.Settled
      ensures PhaseIs(b.settlements, sub, AwaitingRelease) ==> sub in b.subs && b.subs[sub] == InEscrow
    {
      assert RowKeeps(b, sub);
    }
    forall sub | sub in b.settlements
      ensures (b.settlements[sub].release.Some? ==> b.settlements[sub].phase == Phase.Settled)
              && (b.settlements[sub].refund.Some? ==>
                    b.settlements[sub].phase == Phase.Refunded || b.settlements[sub].phase == AwaitingCancel)
    {
      assert RowKeeps(b, sub);
    }
    forall sub | sub in b.asked ensures sub in b.settlements && b.settlements[sub].phase != Pending {
      assert RowKeeps(b, sub);
    }
  }

  lemma ReleaseLands(r: Rules, b: Books, at: nat)
    requires Inv(r, b) && Enabled(r, b, Land(at)) && b.spends[at].kind == Release
    ensures Inv(r, Landed(b, at))
  {
    LandedSpends(b, at);
    var b' := Landed(b, at);
    ReleasedRows(r, b, at);
    forall sub | Covers(b.spends[at], sub)
      ensures PhaseIs(b'.settlements, sub, Phase.Settled) && sub in b'.subs && b'.subs[sub] == SubState.Settled
    {
      ReleaseLandsOn(r, b, at, sub);
    }
    ElsewhereUnchanged(b, at);
    CoverageStays(b.spends, b'.spends, b.settlements, b'.settlements);
    OppositionStays(b.subs, b'.subs, b.spends, b'.spends);
  }

  /** Landing leaves every subscription it does not cover as it was. */
  lemma ElsewhereUnchanged(b: Books, at: nat)
    requires at < |b.spends|
    ensures var b' := Landed(b, at);
            forall sub :: !Covers(b.spends[at], sub) ==>
              && (sub in b'.settlements <==> sub in b.settlements)
              && (sub in b.settlements ==> b'.settlements[sub] == b.settlements[sub])
              && (sub in b'.subs <==> sub in b.subs)
              && (sub in b.subs ==> b'.subs[sub] == b.subs[sub])
  {
  }

  /** A return refunds only subscriptions no live release covers: late coins of
      settled and refunded ones change nothing. */
  lemma ReturnLandsOn(r: Rules, b: Books, at: nat, sub: SubId)
    requires Inv(r, b) && Enabled(r, b, Land(at)) && b.spends[at].kind != Release && Covers(b.spends[at], sub)
    ensures var b' := Landed(b, at);
            && (sub in b.settlements ==> sub in b'.settlements)
            && (sub in b'.settlements ==>
                  if Unsettled(b.subs, sub) then
                    b'.settlements[sub] == RowOf(b.settlements, sub).(refund := Some(b.spends[at].txid), phase := Phase.Refunded)
                  else b'.settlements[sub] == RowOf(b.settlements, sub))
            && (sub in b'.subs <==> sub in b.subs)
            && (sub in b.subs ==> b'.subs[sub] == if Unsettled(b.subs, sub) then SubState.Refunded else b.subs[sub])
    ensures Unsettled(b.subs, sub) ==> !ReleaseAmong(b.spends, sub) && !PhaseIs(b.settlements, sub, Phase.Settled)
  {
    assert ReturnInFlight(b.spends[at]);
  }

  /** How a landed return may change one settlement row. */
  predicate RowReturned(b: Books, rows': Rows, sub: SubId) {
    && (sub in b.settlements ==> sub in rows')
    && (sub in rows' ==>
          || rows'[sub] == RowOf(b.settlements, sub)
          || (rows'[sub].phase == Phase.Refunded && rows'[sub].release == RowOf(b.settlements, sub).release
              && !PhaseIs(b.settlements, sub, Phase.Settled)
              && !ReleaseAmong(b.spends, sub)))
  }

  lemma RowsReturned(r: Rules, b: Books, at: nat)
    requires Inv(r, b) && Enabled(r, b, Land(at)) && b.spends[at].kind != Release
    ensures forall sub :: RowReturned(b, Landed(b, at).settlements, sub)
  {
    ElsewhereUnchanged(b, at);
    forall sub ensures RowReturned(b, Landed(b, at).settlements, sub) {
      if Covers(b.spends[at], sub) { ReturnLandsOn(r, b, at, sub); }
    }
  }

  lemma SubsReturned(r: Rules, b: Books, at: nat)
    requires Inv(r, b) && Enabled(r, b, Land(at)) && b.spends[at].kind != Release
    ensures forall sub :: sub in b.subs && b.subs[sub] == SubState.Settled
              ==> sub in Landed(b, at).subs && Landed(b, at).subs[sub] == SubState.Settled
    ensures RowsAgree(Landed(b, at).subs, Landed(b, at).settlements)
  {
    var b' := Landed(b, at);
    forall sub | PhaseIs(b'.settlements, sub, AwaitingRelease) || PhaseIs(b'.settlements, sub, Phase.Settled)
      ensures sub in b'.subs && b'.subs[sub] == b.subs[sub]
    {
      if Covers(b.spends[at], sub) { ReturnLandsOn(r, b, at, sub); } else { ElsewhereUnchanged(b, at); }
    }
  }

  lemma ReturnedRowsKeep(r: Rules, b: Books, rows': Rows)
    requires Inv(r, b) && forall sub :: RowReturned(b, rows', sub)
    ensures DeliveredFirst(rows') && OneOutcome(rows') && AskedOnce(b.asked, None, rows')
  {
    forall sub | sub in rows'
      ensures PhaseIs(rows', sub, AwaitingRelease) || PhaseIs(rows', sub, Phase.Settled) ==> rows'[sub].delivery.Some?
      ensures rows'[sub].release.Some? ==> rows'[sub].phase == Phase.Settled
      ensures rows'[sub].refund.Some? ==> rows'[sub].phase == Phase.Refunded || rows'[sub].phase == AwaitingCancel
    {
      assert RowReturned(b, rows', sub);
      if sub in b.settlements { assert PhaseIs(b.settlements, sub, b.settlements[sub].phase); }
    }
    forall sub | sub in b.asked ensures sub in rows' && rows'[sub].phase != Pending {
      assert RowReturned(b, rows', sub);
    }
  }

  lemma ReturnedRowsCover(b: Books, rows': Rows, spends': seq<Spend>)
    requires ReleasesCoverDelivered(b.spends, b.settlements) && SameCoverage(b.spends, spends')
    requires forall sub :: RowReturned(b, rows', sub)
    ensures ReleasesCoverDelivered(spends', rows')
  {
    forall sub | ReleaseAmong(b.spends, sub) && sub in b.settlements
      ensures sub in rows' && rows'[sub] == b.settlements[sub]
    {
      assert RowReturned(b, rows', sub);
    }
    CoverageStays(b.spends, spends', b.settlements, rows');
  }

  lemma ReturnLands(r: Rules, b: Books, at: nat)
    requires Inv(r, b) && Enabled(r, b, Land(at)) && b.spends[at].kind != Release
    ensures Inv(r, Landed(b, at))
  {
    var b' := Landed(b, at);
    LandedSpends(b, at);
    RowsReturned(r, b, at);
    SubsReturned(r, b, at);
    ReturnedRowsKeep(r, b, b'.settlements);
    ReturnedRowsCover(b, b'.settlements, b'.spends);
    OppositionStays(b.subs, b'.subs, b.spends, b'.spends);
  }

  // ---- every event, every run ----

  /** Events that leave the rows telling one story whatever is out: all but a landing, and the
      marking of a subscription in a live release. */
  predicate Gentle(b: Books, e: Event) {
    match e
    case AwaitCancel(sub) => !ReleaseAmong(b.spends, sub)
    case Land(_) => false
    case _ => true
  }

  lemma GentleKeeps(r: Rules, b: Books, e: Event)
    requires r.Sound() && Consistent(r, b) && Enabled(r, b, e) && Gentle(b, e)
    ensures Consistent(r, After(r, b, e))
    ensures !e.Insert? && NoOpposition(b.subs, b.spends) ==> NoOpposition(After(r, b, e).subs, After(r, b, e).spends)
  {
    hide Consistent, NoOpposition;
    match e
    case AwaitCancel(sub) => AwaitCancelConsistent(r, b, sub);
    case Insert(sp) => InsertConsistent(r, b, sp);
    case Move(at, to) => MoveKeeps(r, b, at, to);
    case Tick(_, _) => WorldKeeps(r, b, e);
    case Subscribe(_) => WorldKeeps(r, b, e);
    case Credit(_) => WorldKeeps(r, b, e);
    case Crash => WorldKeeps(r, b, e);
    case Enter(_) => WorldKeeps(r, b, e);
    case Leave => WorldKeeps(r, b, e);
    case _ => DeliveryKeeps(r, b, e);
  }

  lemma AwaitCancelConsistent(r: Rules, b: Books, sub: SubId)
    requires Consistent(r, b) && Enabled(r, b, AwaitCancel(sub)) && !ReleaseAmong(b.spends, sub)
    ensures Consistent(r, After(r, b, AwaitCancel(sub)))
  {
    UncoveredRowKeeps(r, b, sub, b.settlements[sub].(phase := AwaitingCancel));
  }

  /** An event keeps the invariant if and only if it is careful. */
  lemma EventKeepsIff(r: Rules, b: Books, e: Event)
    requires r.Sound() && Inv(r, b) && Enabled(r, b, e)
    ensures Inv(r, After(r, b, e)) <==> Careful(b, e)
  {
    hide Consistent, NoOpposition;
    match e
    case AwaitCancel(sub) => AwaitCancelKeepsIff(r, b, sub);
    case Insert(sp) => InsertKeepsIff(r, b, sp);
    case Land(at) => if b.spends[at].kind == Release { ReleaseLands(r, b, at); } else { ReturnLands(r, b, at); }
    case _ => GentleKeeps(r, b, e);
  }

  /** Every step of a run is careful. */
  ghost predicate CarefulRun(bs: seq<Books>, es: seq<Event>)
    requires |bs| == |es| + 1
  {
    forall k :: 0 <= k < |es| ==> Careful(bs[k], es[k])
  }

  lemma {:induction false} CarefulRunKeeps(r: Rules, bs: seq<Books>, es: seq<Event>, k: nat)
    requires r.Sound() && FullRun(r, bs, es) && CarefulRun(bs, es) && k <= |es|
    ensures Inv(r, bs[k])
  {
    if k > 0 {
      CarefulRunKeeps(r, bs, es, k - 1);
      assert Next(r, bs[k - 1], es[k - 1], bs[k]);
      EventKeepsIff(r, bs[k - 1], es[k - 1]);
    }
  }

  /** What the escrow promises: no subscription ends both released and refunded, the
      money in a live release stands against a recorded delivery, and no delivery is
      asked for twice. */
  ghost predicate Safe(b: Books) {
    && (forall sub :: sub in b.settlements ==> !(b.settlements[sub].release.Some? && b.settlements[sub].refund.Some?))
    && (forall i, sub :: 0 <= i < |b.spends| && LiveRelease(b.spends[i]) && Covers(b.spends[i], sub) ==>
          && sub in b.settlements && b.settlements[sub].delivery.Some?
          && (b.settlements[sub].phase == AwaitingRelease || b.settlements[sub].phase == Phase.Settled))
    && (forall sub :: PhaseIs(b.settlements, sub, AwaitingRelease) ==> b.settlements[sub].delivery.Some?)
    && (forall i, j :: 0 <= i < j < |b.asked| ==> b.asked[i] != b.asked[j])
  }

  lemma InvIsSafe(r: Rules, b: Books)
    requires Inv(r, b)
    ensures Safe(b)
  {
    forall i, sub | 0 <= i < |b.spends| && LiveRelease(b.spends[i]) && Covers(b.spends[i], sub)
      ensures sub in b.settlements && b.settlements[sub].delivery.Some?
      ensures b.settlements[sub].phase == AwaitingRelease || b.settlements[sub].phase == Phase.Settled
    {
      assert PhaseIs(b.settlements, sub, AwaitingRelease) || PhaseIs(b.settlements, sub, Phase.Settled);
    }
  }

  /** Over every run of closes, cancels, signings, broadcasts, refunds, deposits, chain
      progress and crashes at any write, careful steps keep every state safe. */
  lemma EveryCarefulRunIsSafe(r: Rules, bs: seq<Books>, es: seq<Event>, k: nat)
    requires r.Sound() && FullRun(r, bs, es) && CarefulRun(bs, es) && k <= |es|
    ensures Safe(bs[k])
  {
    CarefulRunKeeps(r, bs, es, k);
    InvIsSafe(r, bs[k]);
  }

  // ---- deliveries, whether the rest is careful or not ----

  /** No transfer asked for twice or about to be, and nobody awaiting release undelivered. */
  ghost predicate AsksInv(b: Books) {
    && AskedOnce(b.asked, b.asking, b.settlements)
    && forall sub :: PhaseIs(b.settlements, sub, AwaitingRelease) ==> b.settlements[sub].delivery.Some?
  }

  lemma LandingAsksNothing(r: Rules, b: Books, at: nat)
    requires AsksInv(b) && Enabled(r, b, Land(at))
    ensures AsksInv(Landed(b, at))
  {
    ElsewhereUnchanged(b, at);
    var rows' := Landed(b, at).settlements;
    forall sub | sub in b.asked ensures sub in rows' && rows'[sub].phase != Pending {
      assert sub in b.settlements && b.settlements[sub].phase != Pending;
    }
    forall sub | PhaseIs(rows', sub, AwaitingRelease) ensures rows'[sub].delivery.Some? {
      assert PhaseIs(b.settlements, sub, AwaitingRelease);
    }
  }

  lemma EventAsksOnce(r: Rules, b: Books, e: Event)
    requires AsksInv(b) && Enabled(r, b, e)
    ensures AsksInv(After(r, b, e))
  {
    match e
    case Land(at) => LandingAsksNothing(r, b, at);
    case _ =>
  }

  /** Over every run whatsoever, with crashes at any write: no transfer is asked for twice, and
      none awaits release without a recorded delivery. */
  lemma {:induction false} EveryRunAsksOnce(r: Rules, bs: seq<Books>, es: seq<Event>, k: nat)
    requires FullRun(r, bs, es) && k <= |es|
    ensures AsksInv(bs[k])
    ensures forall i, j :: 0 <= i < j < |bs[k].asked| ==> bs[k].asked[i] != bs[k].asked[j]
  {
    if k > 0 {
      EveryRunAsksOnce(r, bs, es, k - 1);
      assert Next(r, bs[k - 1], es[k - 1], bs[k]);
      EventAsksOnce(r, bs[k - 1], es[k - 1]);
    }
  }

  /** A transfer is asked for only while the settlement is delivering, and only if it was
      never asked for before. */
  lemma AskedOnlyWhileDelivering(r: Rules, bs: seq<Books>, es: seq<Event>, k: nat)
    requires FullRun(r, bs, es) && k < |es| && es[k].AskTransfer?
    ensures PhaseIs(bs[k].settlements, es[k].sub, Delivering) && es[k].sub !in bs[k].asked
  {
    EveryRunAsksOnce(r, bs, es, k);
    assert Next(r, bs[k], es[k], bs[k + 1]);
  }

  /** Once nothing more can be delivered or released, that stays so. */
  lemma ReturningStays(r: Rules, b: Books, e: Event, sub: SubId)
    requires Enabled(r, b, e) && sub in b.settlements && Returning(b.settlements[sub].phase)
    ensures sub in After(r, b, e).settlements && Returning(After(r, b, e).settlements[sub].phase)
  {
  }

  lemma {:induction false} ReturningOnward(r: Rules, bs: seq<Books>, es: seq<Event>, j: nat, k: nat, sub: SubId)
    requires FullRun(r, bs, es) && j <= k <= |es|
    requires sub in bs[j].settlements && Returning(bs[j].settlements[sub].phase)
    ensures sub in bs[k].settlements && Returning(bs[k].settlements[sub].phase)
  {
    if j < k {
      ReturningOnward(r, bs, es, j, k - 1, sub);
      assert Next(r, bs[k - 1], es[k - 1], bs[k]);
      ReturningStays(r, bs[k - 1], es[k - 1], sub);
    }
  }

  /** In every run, once a delivery failed, was cancelled or refunded, or the money was released,
      the subscription's tokens are never asked for again. */
  lemma NeverAskedAgain(r: Rules, bs: seq<Books>, es: seq<Event>, j: nat, k: nat, sub: SubId)
    requires FullRun(r, bs, es) && j <= k < |es|
    requires sub in bs[j].settlements && Returning(bs[j].settlements[sub].phase)
    ensures es[k] != AskTransfer(sub)
  {
    ReturningOnward(r, bs, es, j, k, sub);
    if es[k] == AskTransfer(sub) { AskedOnlyWhileDelivering(r, bs, es, k); }
  }

  /** Settled is final: no event of a careful run changes it, whatever late coins bring. */
  lemma SettledIsFinal(r: Rules, b: Books, e: Event, sub: SubId)
    requires r.Sound() && Inv(r, b) && Enabled(r, b, e) && Careful(b, e)
    requires PhaseIs(b.settlements, sub, Phase.Settled)
    ensures PhaseIs(After(r, b, e).settlements, sub, Phase.Settled)
    ensures After(r, b, e).settlements[sub].refund == None
    ensures e.Land? && b.spends[e.at].kind != Release ==> After(r, b, e).settlements[sub] == b.settlements[sub]
  {
    EventKeepsIff(r, b, e);
    assert sub in b.subs && b.subs[sub] == SubState.Settled;
  }

  // ---- where care is needed ----

  lemma CoveredIsDelivered(r: Rules, b: Books, sub: SubId)
    requires Consistent(r, b)
    ensures ReleaseAmong(b.spends, sub) ==>
              && DeliveredOrDelivering(b.settlements, sub)
              && (PhaseIs(b.settlements, sub, AwaitingRelease) || PhaseIs(b.settlements, sub, Phase.Settled))
              && (Unsettled(b.subs, sub) ==> PhaseIs(b.settlements, sub, AwaitingRelease))
  {
    if ReleaseAmong(b.spends, sub) {
      assert PhaseIs(b.settlements, sub, AwaitingRelease) || PhaseIs(b.settlements, sub, Phase.Settled);
    }
  }

  /** A cancel of subscriptions neither delivered nor delivering is always careful: only
      one that names a delivered subscription need ask. */
  lemma UndeliveredIsUncovered(r: Rules, b: Books, sub: SubId)
    requires Consistent(r, b) && !DeliveredOrDelivering(b.settlements, sub)
    ensures !ReleaseAmong(b.spends, sub)
  {
    CoveredIsDelivered(r, b, sub);
  }

  /** What a close cancels -- failed deliveries -- is never in a live release. */
  lemma ClosingCancelsAreCareful(r: Rules, b: Books, e: Event)
    requires Consistent(r, b) && Enabled(r, b, e) && b.holder == Closing
    requires e.AwaitCancel? || (e.Insert? && e.spend.kind == Cancel)
    ensures Careful(b, e)
  {
    var who := if e.AwaitCancel? then {e.sub} else Subs(e.spend.coins);
    forall sub | sub in who ensures !ReleaseAmong(b.spends, sub) {
      CoveredIsDelivered(r, b, sub);
    }
  }

  /** The builders check coins, not subscriptions. While each live release still has its
      coins unspent, and a cancel takes all the unspent coins of every subscription it
      touches, the coin check is enough. */
  lemma UnspentCoinsMakeCareful(r: Rules, b: Books, sp: Spend, unspent: set<Outpoint>)
    requires Enabled(r, b, Insert(sp)) && sp.kind == Cancel
    requires forall i, k :: 0 <= i < |b.spends| && LiveRelease(b.spends[i]) && 0 <= k < |b.spends[i].coins|
               ==> b.spends[i].coins[k].outpoint in unspent
    requires forall i, k :: 0 <= i < |b.spends| && LiveRelease(b.spends[i]) && 0 <= k < |b.spends[i].coins|
               && b.spends[i].coins[k].outpoint in unspent && b.spends[i].coins[k].sub in Subs(sp.coins)
               ==> b.spends[i].coins[k].outpoint in Outpoints(sp.coins)
    ensures Careful(b, Insert(sp))
  {
    forall i, sub | 0 <= i < |b.spends| && LiveRelease(b.spends[i]) && sub in Subs(sp.coins)
      ensures !Covers(b.spends[i], sub)
    {
      assert Holds(b.spends[i], Some(Cancel));
      forall k | 0 <= k < |b.spends[i].coins| ensures b.spends[i].coins[k].sub != sub {
        assert b.spends[i].coins[k].outpoint in Outpoints(b.spends[i].coins);
      }
    }
  }
}
