/** No two live spends share a coin when the lock is free, unless a stop comes between a record
    and what it replaces; and only a cancel that names a delivered subscription needs care, unless a stop
    comes while a cancel is being marked. */
module EscrowExclusion {
  import opened Prelude
  import opened Chain
  import opened Covenant
  import opened EscrowProtocol
  import opened EscrowSafety

  // ---- no coin twice ----

  predicate Overlap(a: Spend, b: Spend) {
    !(Outpoints(a.coins) !! Outpoints(b.coins))
  }

  /** No two live spends share a coin. */
  ghost predicate Apart(spends: seq<Spend>) {
    forall i, j :: 0 <= i < |spends| && 0 <= j < |spends| && i != j && Live(spends[i]) && Live(spends[j])
      ==> !Overlap(spends[i], spends[j])
  }

  /** Spends that share a coin are the one recorded last and one it is about to supersede. */
  ghost predicate ApartButLatest(spends: seq<Spend>, latest: Option<nat>) {
    && (latest.Some? ==> latest.value < |spends|)
    && forall i, j :: 0 <= i < |spends| && 0 <= j < |spends| && i != j && Live(spends[i]) && Live(spends[j])
         && Overlap(spends[i], spends[j])
         ==> (latest == Some(i) && Replaced(spends[j], spends[i].kind))
             || (latest == Some(j) && Replaced(spends[i], spends[j].kind))
  }

  ghost predicate Orderly(b: Books) {
    ApartButLatest(b.spends, b.latest) && (b.holder == Nobody ==> b.latest == None)
  }

  lemma TidyIsApart(b: Books)
    requires Orderly(b) && Tidy(b.spends, b.latest)
    ensures Apart(b.spends)
  {
  }

  /** While no two live spends share a coin, the last holder is the only one, and a free
      coin is shared only with a spend the new one supersedes. */
  lemma FreeCoinIsUnheld(spends: seq<Spend>, kind: Kind, coin: Outpoint, i: nat)
    requires Apart(spends) && CoinFree(spends, kind, coin)
    requires i < |spends| && Live(spends[i]) && coin in Outpoints(spends[i].coins)
    ensures Replaced(spends[i], kind)
  {
    var h := LastHolder(spends, |spends|, Some(kind), coin);
    if h.Some? && h.value != i {
      assert Overlap(spends[h.value], spends[i]);
    }
  }

  lemma InsertOrderly(b: Books, sp: Spend)
    requires Apart(b.spends) && CoinsFree(b.spends, sp.kind, sp.coins) && sp.state == Built
    ensures ApartButLatest(b.spends + [sp], Some(|b.spends|))
  {
    var all := b.spends + [sp];
    forall i | 0 <= i < |b.spends| && Live(b.spends[i]) && Overlap(b.spends[i], sp)
      ensures Replaced(b.spends[i], sp.kind)
    {
      var o :| o in Outpoints(b.spends[i].coins) && o in Outpoints(sp.coins);
      FreeCoinIsUnheld(b.spends, sp.kind, o, i);
    }
    assert forall i :: 0 <= i < |b.spends| ==> all[i] == b.spends[i];
  }

  /** Changing one spend's state and nothing else. */
  lemma RestatedOrderly(spends: seq<Spend>, latest: Option<nat>, at: nat, to: SpendState)
    requires ApartButLatest(spends, latest) && at < |spends|
    requires (Apart(spends) && Live(spends[at])) || (to != Built && to != Broadcasting && to != Broadcast)
    ensures ApartButLatest(spends[at := spends[at].(state := to)], latest)
  {
    var spends' := spends[at := spends[at].(state := to)];
    assert forall i :: 0 <= i < |spends| ==> spends'[i].coins == spends[i].coins && spends'[i].kind == spends[i].kind;
    forall i, j | 0 <= i < |spends| && 0 <= j < |spends| && i != j && Live(spends'[i]) && Live(spends'[j])
                  && Overlap(spends'[i], spends'[j])
      ensures (latest == Some(i) && Replaced(spends'[j], spends'[i].kind))
              || (latest == Some(j) && Replaced(spends'[i], spends'[j].kind))
    {
      assert Live(spends[i]) && Live(spends[j]) && Overlap(spends[i], spends[j]);
    }
  }

  /** The spend recorded last shares no coin with one it has still to supersede. */
  predicate CleanStop(b: Books) {
    b.latest.Some? && b.latest.value < |b.spends| && Live(b.spends[b.latest.value]) ==>
      forall i :: 0 <= i < |b.spends| && i != b.latest.value && Replaced(b.spends[i], b.spends[b.latest.value].kind)
        ==> !Overlap(b.spends[i], b.spends[b.latest.value])
  }

  /** A stop leaves no two live spends over one coin if and only if it is clean. */
  lemma StopApartIff(r: Rules, b: Books)
    requires Orderly(b)
    ensures Orderly(After(r, b, Crash)) <==> CleanStop(b)
    ensures Apart(After(r, b, Crash).spends) <==> CleanStop(b)
  {
    if !CleanStop(b) {
      var i :| 0 <= i < |b.spends| && i != b.latest.value && Replaced(b.spends[i], b.spends[b.latest.value].kind)
               && Overlap(b.spends[i], b.spends[b.latest.value]);
      assert Live(b.spends[i]);
    }
  }

  lemma EventOrderly(r: Rules, b: Books, e: Event)
    requires Orderly(b) && Enabled(r, b, e) && (e.Crash? ==> CleanStop(b))
    ensures Orderly(After(r, b, e))
  {
    match e
    case Crash => StopApartIff(r, b);
    case Insert(sp) => TidyIsApart(b); InsertOrderly(b, sp);
    case Move(at, to) =>
      if to != Superseded && to != SpendState.Failed { TidyIsApart(b); }
      RestatedOrderly(b.spends, b.latest, at, to);
    case Land(at) => TidyIsApart(b); RestatedOrderly(b.spends, b.latest, at, Broadcast);
    case Leave => TidyIsApart(b);
    case _ =>
  }

  /** No stop falls between the recording of a spend and the superseding of one it shares a coin with. */
  ghost predicate CleanStops(bs: seq<Books>, es: seq<Event>)
    requires |bs| == |es| + 1
  {
    forall k :: 0 <= k < |es| && es[k].Crash? ==> CleanStop(bs[k])
  }

  lemma {:induction false} CleanRunIsOrderly(r: Rules, bs: seq<Books>, es: seq<Event>, k: nat)
    requires FullRun(r, bs, es) && CleanStops(bs, es) && k <= |es|
    ensures Orderly(bs[k])
  {
    hide Orderly, CleanStop;
    if k > 0 {
      CleanRunIsOrderly(r, bs, es, k - 1);
      assert Next(r, bs[k - 1], es[k - 1], bs[k]);
      EventOrderly(r, bs[k - 1], es[k - 1]);
    } else {
      StartIsOrderly(bs[0]);
    }
  }

  lemma StartIsOrderly(b: Books)
    requires Start(b)
    ensures Orderly(b)
  {
  }

  /** Whenever the offering's lock is free, any two live spends have disjoint coins -- with stops
      anywhere, as long as each is clean. */
  lemma LockFreeMeansApart(r: Rules, bs: seq<Books>, es: seq<Event>, k: nat)
    requires FullRun(r, bs, es) && CleanStops(bs, es) && k <= |es| && bs[k].holder == Nobody
    ensures Apart(bs[k].spends)
  {
    CleanRunIsOrderly(r, bs, es, k);
    TidyIsApart(bs[k]);
  }

  /** A crash right after a spend is recorded leaves the books apart exactly when the
      spend shares no coin with one it was about to supersede. */
  lemma CrashAfterInsertIff(r: Rules, b: Books, sp: Spend)
    requires Apart(b.spends) && Enabled(r, b, Insert(sp))
    ensures var b' := After(r, After(r, b, Insert(sp)), Crash);
            && b'.holder == Nobody
            && (Apart(b'.spends) <==>
                forall i :: 0 <= i < |b.spends| && Replaced(b.spends[i], sp.kind) ==> !Overlap(b.spends[i], sp))
  {
    var all := b.spends + [sp];
    InsertOrderly(b, sp);
    assert all[|b.spends|] == sp && forall i :: 0 <= i < |b.spends| ==> all[i] == b.spends[i];
  }

  // ---- care without crashes ----

  /** A cancel in flight covers only subscriptions nothing can be delivered to or released
      for any more, except while its own handler is still marking them. */
  ghost predicate CancelsMarked(b: Books) {
    forall i, sub :: 0 <= i < |b.spends| && b.spends[i].kind == Cancel && InFlight(b.spends[i]) && Covers(b.spends[i], sub)
      ==> MarkedOrLatest(b, i, sub)
  }

  /** Only the holder of the lock has a latest spend. */
  predicate Held(b: Books) {
    (b.holder == Nobody ==> b.latest == None) && (b.latest.Some? ==> b.latest.value < |b.spends|)
  }

  lemma EventKeepsHeld(r: Rules, b: Books, e: Event)
    requires Held(b) && Enabled(r, b, e)
    ensures Held(After(r, b, e))
  {
  }

  /** The cancel recorded last, if it is one and in flight, has marked everyone it returns. */
  predicate MarkedStop(b: Books) {
    b.latest.Some? && b.latest.value < |b.spends| && b.holder == Serving
    && b.spends[b.latest.value].kind == Cancel && InFlight(b.spends[b.latest.value]) ==>
      forall sub :: sub in Subs(b.spends[b.latest.value].coins) ==> sub in b.settlements && Returning(b.settlements[sub].phase)
  }

  /** A stop leaves every cancel in flight marked if and only if it does not come while one is
      being marked. */
  lemma StopMarkedIff(r: Rules, b: Books)
    requires CancelsMarked(b) && Held(b)
    ensures CancelsMarked(After(r, b, Crash)) <==> MarkedStop(b)
  {
    var b' := After(r, b, Crash);
    if MarkedStop(b) {
      forall i, sub | 0 <= i < |b'.spends| && b'.spends[i].kind == Cancel && InFlight(b'.spends[i]) && Covers(b'.spends[i], sub)
        ensures MarkedOrLatest(b', i, sub)
      {
        assert MarkedOrLatest(b, i, sub);
      }
    } else {
      var i := b.latest.value;
      var sub :| sub in Subs(b.spends[i].coins) && !(sub in b.settlements && Returning(b.settlements[sub].phase));
      assert b'.spends[i].kind == Cancel && InFlight(b'.spends[i]) && Covers(b'.spends[i], sub);
      assert !MarkedOrLatest(b', i, sub);
    }
  }

  lemma EventKeepsMarked(r: Rules, b: Books, e: Event)
    requires CancelsMarked(b) && Held(b) && Enabled(r, b, e) && (e.Crash? ==> MarkedStop(b))
    ensures CancelsMarked(After(r, b, e))
  {
    if e.Crash? {
      StopMarkedIff(r, b);
    } else {
      var b' := After(r, b, e);
      forall i, sub | 0 <= i < |b'.spends| && b'.spends[i].kind == Cancel && InFlight(b'.spends[i]) && Covers(b'.spends[i], sub)
        ensures MarkedOrLatest(b', i, sub)
      {
        if i < |b.spends| {
          assert b.spends[i].kind == Cancel && InFlight(b.spends[i]) && Covers(b.spends[i], sub);
          StillMarked(r, b, e, i, sub);
        }
      }
    }
  }

  predicate MarkedOrLatest(b: Books, i: nat, sub: SubId) {
    || (sub in b.settlements && Returning(b.settlements[sub].phase))
    || (b.latest == Some(i) && b.holder == Serving)
  }

  lemma StillMarked(r: Rules, b: Books, e: Event, i: nat, sub: SubId)
    requires Held(b) && Enabled(r, b, e) && !e.Crash?
    requires i < |b.spends| && b.spends[i].kind == Cancel && Covers(b.spends[i], sub) && MarkedOrLatest(b, i, sub)
    ensures MarkedOrLatest(After(r, b, e), i, sub)
  {
    if sub in b.settlements && Returning(b.settlements[sub].phase) { ReturningStays(r, b, e, sub); }
  }

  /** No stop falls while a recorded cancel is being marked. */
  ghost predicate MarkedStops(bs: seq<Books>, es: seq<Event>)
    requires |bs| == |es| + 1
  {
    forall k :: 0 <= k < |es| && es[k].Crash? ==> MarkedStop(bs[k])
  }

  lemma {:induction false} MarkedStopsKeepMarked(r: Rules, bs: seq<Books>, es: seq<Event>, k: nat)
    requires FullRun(r, bs, es) && MarkedStops(bs, es) && k <= |es|
    ensures Held(bs[k]) && CancelsMarked(bs[k])
  {
    if k > 0 {
      MarkedStopsKeepMarked(r, bs, es, k - 1);
      assert Next(r, bs[k - 1], es[k - 1], bs[k]);
      hide Held, CancelsMarked, MarkedStop;
      EventKeepsHeld(r, bs[k - 1], es[k - 1]);
      EventKeepsMarked(r, bs[k - 1], es[k - 1]);
    }
  }

  /** Every cancel step of a run is careful; nothing is asked of the releases. */
  ghost predicate CancelCareful(bs: seq<Books>, es: seq<Event>)
    requires |bs| == |es| + 1
  {
    forall k :: 0 <= k < |es| && !(es[k].Insert? && es[k].spend.kind == Release) ==> Careful(bs[k], es[k])
  }

  lemma MarkedReleaseIsCareful(r: Rules, b: Books, sp: Spend)
    requires CancelsMarked(b) && Enabled(r, b, Insert(sp)) && sp.kind == Release
    ensures Careful(b, Insert(sp))
  {
    forall sub | sub in Subs(sp.coins) ensures !CancelAmong(b.spends, sub) {
      assert PhaseIs(b.settlements, sub, AwaitingRelease);
    }
  }

  /** In a run no stop of which falls while a cancel is being marked, careful cancels alone make the
      whole run careful, and so safe. */
  lemma CancelCareIsEnough(r: Rules, bs: seq<Books>, es: seq<Event>)
    requires FullRun(r, bs, es) && MarkedStops(bs, es) && CancelCareful(bs, es)
    ensures CarefulRun(bs, es)
  {
    forall k | 0 <= k < |es| ensures Careful(bs[k], es[k]) {
      if es[k].Insert? && es[k].spend.kind == Release {
        MarkedStopsKeepMarked(r, bs, es, k);
        assert Next(r, bs[k], es[k], bs[k + 1]);
        MarkedReleaseIsCareful(r, bs[k], es[k].spend);
      }
    }
  }

  lemma CrashFreeIsClean(bs: seq<Books>, es: seq<Event>)
    requires |bs| == |es| + 1 && CrashFree(es)
    ensures CleanStops(bs, es) && MarkedStops(bs, es)
  {
  }
}
