/** What each handler asks of the books, besides what the code checks, to keep them safe. */
module EscrowCare {
  import opened Prelude
  import opened Chain
  import opened Covenant
  import opened EscrowProtocol
  import opened EscrowSafety
  import opened EscrowExclusion
  import opened EscrowFuture
  import opened EscrowLedger
  import opened EscrowPlans

  /** None of these is in a live release. */
  predicate Uncovered(spends: seq<Spend>, subs: set<SubId>) {
    forall sub :: sub in subs ==> !ReleaseAmong(spends, sub)
  }

  /** What a return asks before it is recorded: a refund or a close's cancel nothing, the
      issuer's own cancel that nobody it takes is in a live release. */
  predicate ReturnCareful(b: Books, kind: Kind, subs: set<SubId>) {
    kind == Refund || b.holder == Closing || Uncovered(b.spends, subs)
  }

  lemma ReturnIsCareful(r: Rules, b: Books, sp: Spend, subs: set<SubId>)
    requires Inv(r, b) && Enabled(r, b, Insert(sp)) && sp.kind != Release
    requires ReturnCareful(b, sp.kind, subs) && Subs(sp.coins) <= subs
    ensures Careful(b, Insert(sp))
  {
    if sp.kind == Cancel && b.holder == Closing { ClosingCancelsAreCareful(r, b, Insert(sp)); }
  }

  lemma MarkIsCareful(r: Rules, b: Books, sub: SubId)
    requires Consistent(r, b) && Enabled(r, b, AwaitCancel(sub))
    requires b.holder == Closing || Uncovered(b.spends, {sub})
    ensures Careful(b, AwaitCancel(sub))
  {
    if b.holder == Closing { ClosingCancelsAreCareful(r, b, AwaitCancel(sub)); }
  }

  /** Recording a cancel or a refund puts nobody into a live release. */
  lemma ReturnCoversNobody(b: Books, sp: Spend, subs: set<SubId>)
    requires sp.kind != Release && Uncovered(b.spends, subs)
    ensures Uncovered(WithSpend(b, sp).spends, subs)
  {
    var spends' := WithSpend(b, sp).spends;
    forall i, sub | 0 <= i < |spends'| && LiveRelease(spends'[i]) && sub in subs ensures !Covers(spends'[i], sub) {
      assert i < |b.spends| && spends'[i] == b.spends[i];
    }
  }

  // ---- the exact condition on a cancel request ----

  /** A recorded cancel changes no live release and adds none. */
  predicate SameReleases(spends: seq<Spend>, spends': seq<Spend>) {
    && |spends'| >= |spends|
    && (forall i :: 0 <= i < |spends| && LiveRelease(spends[i]) ==> spends'[i] == spends[i])
    && (forall i :: 0 <= i < |spends'| && LiveRelease(spends'[i]) ==> i < |spends| && spends'[i] == spends[i])
  }

  lemma CancelKeepsReleases(b: Books, sp: Spend)
    requires sp.kind == Cancel
    ensures SameReleases(b.spends, WithSpend(b, sp).spends)
  {
  }

  /** Live releases stand where they stood, so marking breaks the promise exactly when it
      marks one of theirs. */
  lemma MarkingIsSafeIff(r: Rules, b: Books, b': Books, who: set<SubId>)
    requires Inv(r, b) && SameReleases(b.spends, b'.spends)
    requires b'.settlements == CancelRows(b.settlements, who) && b'.asked == b.asked
    ensures Safe(b') <==> Uncovered(b.spends, who)
  {
    if Uncovered(b.spends, who) {
      MarkingStaysSafe(r, b, b', who);
    } else {
      hide CancelRows, Inv, SameCoverage, CancelAmong, ReturnAmong;
      var sub :| sub in who && ReleaseAmong(b.spends, sub);
      var i :| 0 <= i < |b.spends| && LiveRelease(b.spends[i]) && Covers(b.spends[i], sub);
      assert LiveRelease(b'.spends[i]) && Covers(b'.spends[i], sub);
      assert b'.settlements[sub].phase == AwaitingCancel;
    }
  }

  lemma MarkingStaysSafe(r: Rules, b: Books, b': Books, who: set<SubId>)
    requires Inv(r, b) && SameReleases(b.spends, b'.spends) && Uncovered(b.spends, who)
    requires b'.settlements == CancelRows(b.settlements, who) && b'.asked == b.asked
    ensures Safe(b')
  {
    InvIsSafe(r, b);
    hide CancelRows, Inv;
    forall i, sub | 0 <= i < |b'.spends| && LiveRelease(b'.spends[i]) && Covers(b'.spends[i], sub)
      ensures sub in b'.settlements && b'.settlements[sub].delivery.Some?
      ensures b'.settlements[sub].phase == AwaitingRelease || b'.settlements[sub].phase == Phase.Settled
    {
      assert ReleaseAmong(b.spends, sub) && sub !in who;
    }
  }

  /** A cancel recorded and its subscriptions marked leave the books safe if and only if none
      of those subscriptions is in a live release. */
  lemma CancelIsSafeIff(r: Rules, b: Books, sp: Spend, subs: seq<SubId>)
    requires Inv(r, b) && sp.kind == Cancel
    ensures Safe(Stopped(CancelRecorded(b, sp, subs))) <==> Uncovered(b.spends, Named(subs))
  {
    hide Safe, Inv, Uncovered, SameReleases;
    CancelKeepsReleases(b, sp);
    MarkingIsSafeIff(r, b, Stopped(CancelRecorded(b, sp, subs)), Named(subs));
  }

  /** Nobody the request names awaits release in a live release. */
  predicate NamesNoneReleased(b: Books, want: set<SubId>, all: seq<SubId>) {
    forall sub :: sub in want && sub in all && PhaseIs(b.settlements, sub, AwaitingRelease) ==> !ReleaseAmong(b.spends, sub)
  }

  /** Taking the lock changes nothing a request is judged by. */
  lemma SameRequest(b: Books, h: Holder, want: set<SubId>, all: seq<SubId>)
    ensures NamesNoneReleased(Locked(b, h), want, all) <==> NamesNoneReleased(b, want, all)
  {
  }

  /** A cancel request takes nobody in a live release if and only if it names no such
      subscription; so a request that names nobody never does. */
  lemma CancelRequestIsCareful(r: Rules, b: Books, want: set<SubId>, all: seq<SubId>)
    requires Inv(r, b)
    ensures Uncovered(b.spends, Named(ToCancel(b.subs, b.settlements, want, all, |all|))) <==> NamesNoneReleased(b, want, all)
    ensures want == {} ==> NamesNoneReleased(b, want, all)
  {
    hide ReleaseAmong;
    var subs := ToCancel(b.subs, b.settlements, want, all, |all|);
    forall sub | sub in want && sub in all && PhaseIs(b.settlements, sub, AwaitingRelease) ensures sub in subs {
      assert Cancelled(b.subs, b.settlements, want, sub);
    }
    forall sub | sub in subs && ReleaseAmong(b.spends, sub)
      ensures sub in want && sub in all && PhaseIs(b.settlements, sub, AwaitingRelease)
    {
      CoveredIsDelivered(r, b, sub);
    }
  }

  /** Books that keep the invariant stay safe; unsafe ones do not. */
  lemma Outlook(r: Rules, b: Books)
    ensures r.Sound() && Inv(r, b) ==> StaysSafe(r, b)
    ensures !Safe(b) ==> !StaysSafe(r, b)
  {
    hide StaysSafe, Safe, Inv;
    if r.Sound() && Inv(r, b) { InvStaysSafe(r, b); }
    if StaysSafe(r, b) { StaysSafeIsSafe(r, b); }
  }

  // ---- what a close asks ----

  /** No cancel in flight covers a coin's subscription of the release made, if one is. */
  predicate Unopposed(spends: seq<Spend>, made: Option<Spend>) {
    made.Some? ==> forall sub :: sub in Subs(made.value.coins) ==> !CancelAmong(spends, sub)
  }

  /** Every cancel in flight over one of these subscriptions has been marked. */
  predicate MarkedOver(b: Books, subs: set<SubId>) {
    forall sub :: sub in subs && CancelAmong(b.spends, sub) ==> sub in b.settlements && Returning(b.settlements[sub].phase)
  }

  lemma MarksAreMarked(b: Books, subs: set<SubId>)
    requires CancelsMarked(b) && b.holder == Nobody
    ensures MarkedOver(b, subs)
  {
    forall sub | sub in subs && CancelAmong(b.spends, sub) ensures sub in b.settlements && Returning(b.settlements[sub].phase) {
      var i :| 0 <= i < |b.spends| && b.spends[i].kind == Cancel && InFlight(b.spends[i]) && Covers(b.spends[i], sub);
      assert MarkedOrLatest(b, i, sub);
    }
  }

  /** A delivery leaves alone what is over. */
  lemma {:induction false} DeliveriesKeepReturning(b: Books, covenant: seq<SubId>, p: SubId -> Policy, k: nat, sub: SubId)
    requires k <= |covenant| && sub in b.settlements && Returning(b.settlements[sub].phase)
    ensures var rows := AfterDeliveries(b, covenant, p, k).settlements;
            sub in rows && Returning(rows[sub].phase)
  {
    hide Asks;
    if k > 0 { DeliveriesKeepReturning(b, covenant, p, k - 1, sub); }
  }

  /** While every cancel in flight over the close's subscriptions is marked, no release of what
      it delivers is opposed. */
  lemma ReadyIsUnopposed(b: Books, covenant: seq<SubId>, p: SubId -> Policy, k: nat, made: Option<Spend>)
    requires k <= |covenant| && MarkedOver(b, Named(covenant))
    requires var d := AfterDeliveries(b, covenant, p, k);
             made.Some? ==> Subs(made.value.coins) <= Named(Ready(d.settlements, covenant, |covenant|))
    ensures Unopposed(AfterDeliveries(b, covenant, p, k).spends, made)
  {
    hide AfterDeliveries, CancelAmong;
    var d := AfterDeliveries(b, covenant, p, k);
    DeliveriesTouchRows(b, covenant, p, k);
    if made.Some? {
      forall sub | sub in Subs(made.value.coins) ensures !CancelAmong(d.spends, sub) {
        assert sub in Ready(d.settlements, covenant, |covenant|);
        if CancelAmong(b.spends, sub) { DeliveriesKeepReturning(b, covenant, p, k, sub); }
      }
    }
  }

  lemma ReleaseTakes(w: World, t: Terms, subs: seq<SubId>, fee: nat, sp: Spend)
    requires Releases(w, t, subs, fee, sp)
    ensures Subs(sp.coins) <= Named(subs) && sp.kind == Release && sp.state == Built
  {
  }

  /** Coins that are held make no release. */
  lemma TakenCoinsAreHeld(w: World, t: Terms, spends: seq<Spend>, subs: seq<SubId>, fee: nat)
    ensures !CoinsFree(spends, Release, CoinsOf(w, t.payAsset, subs, |subs|)) ==> !MayRelease(w, t, spends, subs, fee)
  {
  }

  lemma ReleaseMayBeRecorded(r: Rules, b: Books, w: World, subs: seq<SubId>, fee: nat, sp: Spend)
    requires MayRelease(w, r.terms, b.spends, subs, fee) && Releases(w, r.terms, subs, fee, sp)
               && MayTake(r, b, Release, Named(subs))
    ensures CoinsFree(b.spends, Release, sp.coins) && MayTake(r, b, Release, Subs(sp.coins))
  {
    FewerMayBeTaken(r, b, w, Release, subs);
  }

  lemma ReleaseIsCareful(b: Books, sp: Spend)
    requires sp.kind == Release && Unopposed(b.spends, Some(sp))
    ensures Careful(b, Insert(sp))
  {
  }

  lemma LockKeepsMarks(b: Books, h: Holder, subs: set<SubId>)
    ensures MarkedOver(Locked(b, h), subs) <==> MarkedOver(b, subs)
  {
  }

  lemma InvIsConsistent(r: Rules, b: Books)
    ensures Inv(r, b) ==> Consistent(r, b)
  {
  }

  // ---- the books a close leaves ----

  /** As far as the store tells before the close hands out its spends: no cancel that will still be
      in flight covers a subscription of its release. A new cancel replaces those not yet sent. */
  predicate LeftUnopposed(spends: seq<Spend>, release: Option<Spend>, replaced: bool) {
    release.Some? ==>
      forall i, sub ::
        && 0 <= i < |spends| && spends[i].kind == Cancel && InFlight(spends[i]) && Covers(spends[i], sub)
        && sub in Subs(release.value.coins)
        ==> replaced && spends[i].state == Built
  }

  function HandedSpends(d: Books, release: Option<Spend>, cancel: Option<Spend>): seq<Spend> {
    var r := if release.Some? then WithSpend(d, release.value) else d;
    (if cancel.Some? then WithSpend(r, cancel.value) else r).spends
  }

  /** What the spends of the close's books are: the old ones, those replaced set aside, then the new. */
  lemma HandedAre(d: Books, release: Option<Spend>, cancel: Option<Spend>, i: nat)
    requires release.Some? ==> release.value.kind == Release
    requires cancel.Some? ==> cancel.value.kind == Cancel
    requires i < |HandedSpends(d, release, cancel)|
    ensures var f, n := HandedSpends(d, release, cancel), |d.spends|;
            if i < n then
              f[i] == if (Unsigned(d.spends[i], Release) && release.Some?) || (Unsigned(d.spends[i], Cancel) && cancel.Some?)
                      then Aside(d.spends[i]) else d.spends[i]
            else (release.Some? && i == n && f[i] == release.value)
                 || (cancel.Some? && f[i] == cancel.value && i == n + (if release.Some? then 1 else 0))
    ensures var f, n := HandedSpends(d, release, cancel), |d.spends|;
            |f| == n + (if release.Some? then 1 else 0) + (if cancel.Some? then 1 else 0)
  {
  }

  /** What a close's own spends may cover, and when. */
  predicate Sorted(d: Books, release: Option<Spend>, cancel: Option<Spend>) {
    && (release.Some? ==> release.value.kind == Release && release.value.state == Built
                          && forall sub :: sub in Subs(release.value.coins) ==> PhaseIs(d.settlements, sub, AwaitingRelease))
    && (cancel.Some? ==> cancel.value.kind == Cancel && cancel.value.state == Built
                         && forall sub :: sub in Subs(cancel.value.coins) ==> IsUnready(d.settlements, sub))
  }

  /** A return in flight in the close's books is of failed deliveries, or an old cancel not replaced. */
  lemma ReturnLeft(r: Rules, d: Books, release: Option<Spend>, cancel: Option<Spend>, i: nat, sub: SubId)
    requires Inv(r, d) && d.holder == Closing && Sorted(d, release, cancel)
    requires var f := HandedSpends(d, release, cancel); i < |f| && ReturnInFlight(f[i]) && Covers(f[i], sub)
    ensures || IsUnready(d.settlements, sub)
            || (i < |d.spends| && ReturnInFlight(d.spends[i]) && Covers(d.spends[i], sub)
                && d.spends[i].kind == Cancel && !(cancel.Some? && d.spends[i].state == Built))
  {
    HandedAre(d, release, cancel, i);
    hide HandedSpends, NoOpposition, DeliveredFirst, ReleasesCoverDelivered, OneOutcome, RowsAgree, AskedOnce;
  }

  /** A live release in them is an old one, or the new. */
  lemma ReleaseLeft(r: Rules, d: Books, release: Option<Spend>, cancel: Option<Spend>, j: nat, sub: SubId)
    requires Inv(r, d) && Sorted(d, release, cancel)
    requires var f := HandedSpends(d, release, cancel); j < |f| && LiveRelease(f[j]) && Covers(f[j], sub)
    ensures PhaseIs(d.settlements, sub, AwaitingRelease) || PhaseIs(d.settlements, sub, Phase.Settled)
    ensures || (j < |d.spends| && LiveRelease(d.spends[j]) && Covers(d.spends[j], sub))
            || (release.Some? && sub in Subs(release.value.coins))
  {
    HandedAre(d, release, cancel, j);
    hide HandedSpends, NoOpposition, DeliveredFirst, OneOutcome, RowsAgree, AskedOnce, RefundsAreLate;
  }

  lemma LeftUnopposedIsEnough(r: Rules, d: Books, release: Option<Spend>, cancel: Option<Spend>)
    requires Inv(r, d) && d.holder == Closing && Sorted(d, release, cancel)
    requires LeftUnopposed(d.spends, release, cancel.Some?)
    ensures NoOpposition(d.subs, HandedSpends(d, release, cancel))
  {
    hide HandedSpends, Consistent, Sorted;
    var f := HandedSpends(d, release, cancel);
    forall i, j, sub |
      && 0 <= i < |f| && ReturnInFlight(f[i]) && Covers(f[i], sub)
      && 0 <= j < |f| && LiveRelease(f[j]) && Covers(f[j], sub)
      ensures sub in d.subs && d.subs[sub] == SubState.Settled
    {
      ReturnLeft(r, d, release, cancel, i, sub);
      ReleaseLeft(r, d, release, cancel, j, sub);
    }
  }

  lemma OpposedCloseIs(r: Rules, d: Books, release: Option<Spend>, cancel: Option<Spend>)
    requires Inv(r, d) && Sorted(d, release, cancel) && !LeftUnopposed(d.spends, release, cancel.Some?)
    ensures !NoOpposition(d.subs, HandedSpends(d, release, cancel))
  {
    var f := HandedSpends(d, release, cancel);
    var i, sub :| 0 <= i < |d.spends| && d.spends[i].kind == Cancel && InFlight(d.spends[i]) && Covers(d.spends[i], sub)
                  && sub in Subs(release.value.coins) && !(cancel.Some? && d.spends[i].state == Built);
    HandedAre(d, release, cancel, i);
    HandedAre(d, release, cancel, |d.spends|);
    assert PhaseIs(d.settlements, sub, AwaitingRelease);
    assert ReturnInFlight(f[i]) && Covers(f[i], sub) && LiveRelease(f[|d.spends|]) && Covers(f[|d.spends|], sub);
  }

  /** The books a close leaves stay safe if and only if, by the store it found, no cancel left in
      flight covers a subscription of its release. */
  lemma CloseStaysSafeIff(r: Rules, d: Books, b': Books, release: Option<Spend>, cancel: Option<Spend>)
    requires r.Sound() && Inv(r, d) && d.holder == Closing && Sorted(d, release, cancel)
    requires Consistent(r, b') && b'.subs == d.subs && b'.spends == HandedSpends(d, release, cancel)
    ensures StaysSafe(r, b') <==> LeftUnopposed(d.spends, release, cancel.Some?)
  {
    hide Inv, Consistent, NoOpposition, StaysSafe, HandedSpends, LeftUnopposed, Sorted;
    StaysSafeIff(r, b');
    if LeftUnopposed(d.spends, release, cancel.Some?) {
      LeftUnopposedIsEnough(r, d, release, cancel);
    } else {
      OpposedCloseIs(r, d, release, cancel);
    }
  }

  lemma NothingReleased(r: Rules, b: Books)
    ensures LeftUnopposed(b.spends, None, false) && Unopposed(b.spends, None)
    ensures r.Sound() && Inv(r, b) ==> StaysSafe(r, b)
  {
    if r.Sound() && Inv(r, b) { InvStaysSafe(r, b); }
  }

  /** Giving the lock back changes nothing of what is to come. */
  lemma StopKeepsOutlook(r: Rules, b: Books)
    requires r.Sound() && Consistent(r, b)
    ensures StaysSafe(r, Stopped(b)) <==> StaysSafe(r, b)
  {
    hide StaysSafe, NoOpposition;
    StaysSafeIff(r, b);
    WorldKeeps(r, b, Crash);
    StaysSafeIff(r, Stopped(b));
  }

  lemma HandedIsSorted(d: Books, t: Terms, ledger: seq<Entry>, covenant: seq<SubId>, w1: World, w2: World,
                       release: Option<Spend>, cancel: Option<Spend>, handed: bool)
    requires HandedOut(d, t, ledger, covenant, w1, w2, release, cancel, handed)
    ensures Sorted(d, release, cancel)
    ensures Closed(d, covenant, release, cancel, handed).spends == HandedSpends(d, release, cancel)
    ensures Closed(d, covenant, release, cancel, handed).subs == d.subs
  {
    var ready, failed := Ready(d.settlements, covenant, |covenant|), Unready(d.settlements, covenant, |covenant|);
    hide Ready, Unready, MayRelease, MayReturn;
    if release.Some? { ReleaseTakes(w1, t, ready, FeesTogether(ledger, ready, w1.quote, |ready|), release.value); }
    if cancel.Some? { ReturnTakes(w2, t, failed, cancel.value); }
    hide Releases, Returns, LastLike;
    forall sub | release.Some? && sub in Subs(release.value.coins) ensures PhaseIs(d.settlements, sub, AwaitingRelease) {
      assert sub in ready;
    }
    forall sub | cancel.Some? && sub in Subs(cancel.value.coins) ensures IsUnready(d.settlements, sub) {
      assert sub in failed;
    }
  }

  lemma ReturnTakes(w: World, t: Terms, subs: seq<SubId>, sp: Spend)
    requires Returns(w, t, Cancel, subs, sp)
    ensures Subs(sp.coins) <= Named(subs) && sp.kind == Cancel && sp.state == Built
  {
  }
}
