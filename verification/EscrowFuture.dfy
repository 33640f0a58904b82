/** Which books stay safe whatever careful steps follow: the promise itself, not only the
    invariant behind it, turns on one test of the store. */
module EscrowFuture {
  import opened Prelude
  import opened Chain
  import opened Covenant
  import opened EscrowProtocol
  import opened EscrowSafety

  /** Every run of careful steps from here, stops included, ends in safe books. */
  ghost predicate StaysSafe(r: Rules, b: Books) {
    forall bs, es :: Onward(r, b, bs, es) ==> Safe(bs[|es|])
  }

  ghost predicate Onward(r: Rules, b: Books, bs: seq<Books>, es: seq<Event>) {
    Run(r, bs, es) && bs[0] == b && CarefulRun(bs, es)
  }

  lemma {:induction false} InvAlong(r: Rules, bs: seq<Books>, es: seq<Event>, k: nat)
    requires r.Sound() && Run(r, bs, es) && Inv(r, bs[0]) && CarefulRun(bs, es) && k <= |es|
    ensures Inv(r, bs[k])
  {
    if k > 0 {
      InvAlong(r, bs, es, k - 1);
      assert Next(r, bs[k - 1], es[k - 1], bs[k]);
      EventKeepsIff(r, bs[k - 1], es[k - 1]);
    }
  }

  lemma InvStaysSafe(r: Rules, b: Books)
    requires r.Sound() && Inv(r, b)
    ensures StaysSafe(r, b)
  {
    hide Inv, Safe;
    forall bs, es | Onward(r, b, bs, es) ensures Safe(bs[|es|]) {
      InvAlong(r, bs, es, |es|);
      InvIsSafe(r, bs[|es|]);
    }
  }

  lemma StaysSafeIsSafe(r: Rules, b: Books)
    requires StaysSafe(r, b)
    ensures Safe(b)
  {
    assert Onward(r, b, [b], []);
  }

  // ---- opposed books have an unsafe future ----

  /** Return i and release j can still meet on a subscription not yet settled. */
  predicate Opposed(b: Books, i: nat, j: nat, sub: SubId) {
    && i < |b.spends| && ReturnInFlight(b.spends[i]) && Covers(b.spends[i], sub)
    && j < |b.spends| && LiveRelease(b.spends[j]) && Covers(b.spends[j], sub)
    && !(sub in b.subs && b.subs[sub] == SubState.Settled)
  }

  lemma OpposedIff(b: Books)
    ensures !NoOpposition(b.subs, b.spends) <==> exists i, j, sub :: Opposed(b, i, j, sub)
  {
    if !NoOpposition(b.subs, b.spends) {
      var i, j, sub :|
        && 0 <= i < |b.spends| && ReturnInFlight(b.spends[i]) && Covers(b.spends[i], sub)
        && 0 <= j < |b.spends| && LiveRelease(b.spends[j]) && Covers(b.spends[j], sub)
        && !(sub in b.subs && b.subs[sub] == SubState.Settled);
      assert Opposed(b, i, j, sub);
    }
  }

  /** The process stops, the next request takes the lock, and the return is sent if it was not. */
  function Sending(r: Rules, b: Books, i: nat): Books
    requires i < |b.spends|
  {
    var b' := b.(holder := Serving, latest := None, asking := None);
    if b.spends[i].state == Built then b'.(spends := b.spends[i := b.spends[i].(state := Broadcasting)]) else b'
  }

  ghost predicate LeadsTo(r: Rules, b: Books, b': Books) {
    exists bs, es :: Onward(r, b, bs, es) && bs[|es|] == b'
  }

  lemma StartOnward(r: Rules, b: Books)
    ensures LeadsTo(r, b, b)
  {
    assert Onward(r, b, [b], []);
  }

  lemma StepOnward(r: Rules, b: Books, b': Books, e: Event)
    requires LeadsTo(r, b, b') && Enabled(r, b', e) && Careful(b', e)
    ensures LeadsTo(r, b, After(r, b', e))
  {
    var bs, es :| Onward(r, b, bs, es) && bs[|es|] == b';
    RunOn(r, bs, es, e, After(r, b', e));
    var more, all := bs + [After(r, b', e)], es + [e];
    forall k | 0 <= k < |all| ensures Careful(more[k], all[k]) {
      if k < |es| { assert more[k] == bs[k] && all[k] == es[k]; }
    }
    assert Onward(r, b, more, all) && more[|all|] == After(r, b', e);
  }

  lemma SendingFollows(r: Rules, b: Books, i: nat)
    requires i < |b.spends| && ReturnInFlight(b.spends[i])
    ensures LeadsTo(r, b, Sending(r, b, i))
    ensures Sending(r, b, i).spends[i].state == Broadcasting && Sending(r, b, i).spends[i].coins == b.spends[i].coins
  {
    hide LeadsTo;
    StartOnward(r, b);
    StepOnward(r, b, b, Crash);
    var stopped := After(r, b, Crash);
    StepOnward(r, b, stopped, Enter(Serving));
    var held := After(r, stopped, Enter(Serving));
    if b.spends[i].state == Built { StepOnward(r, b, held, Move(i, Broadcasting)); }
  }

  /** Once the return lands, a subscription in a live release is refunded. */
  lemma LandingBreaks(r: Rules, b: Books, i: nat, j: nat, sub: SubId)
    requires Consistent(r, b) && Opposed(b, i, j, sub)
    ensures !Safe(Landed(Sending(r, b, i), i))
  {
    var sent := Sending(r, b, i);
    var landed := Landed(sent, i);
    assert PhaseIs(b.settlements, sub, AwaitingRelease) || PhaseIs(b.settlements, sub, Phase.Settled);
    assert i != j && landed.spends[j] == b.spends[j];
    assert landed.settlements[sub].phase == Phase.Refunded;
    assert LiveRelease(landed.spends[j]) && Covers(landed.spends[j], sub);
  }

  lemma OpposedIsDoomed(r: Rules, b: Books, i: nat, j: nat, sub: SubId)
    requires Consistent(r, b) && Opposed(b, i, j, sub)
    ensures !StaysSafe(r, b)
  {
    hide Safe, Consistent;
    SendingFollows(r, b, i);
    LandingBreaks(r, b, i, j, sub);
    var sent := Sending(r, b, i);
    StepOnward(r, b, sent, Land(i));
    var bs, es :| Onward(r, b, bs, es) && bs[|es|] == Landed(sent, i);
  }

  /** Books whose rows tell one story stay safe under careful steps if and only if no return in
      flight covers a subscription in a live release, unless it is settled. */
  lemma StaysSafeIff(r: Rules, b: Books)
    requires r.Sound() && Consistent(r, b)
    ensures StaysSafe(r, b) <==> NoOpposition(b.subs, b.spends)
  {
    hide StaysSafe, Consistent, NoOpposition;
    if NoOpposition(b.subs, b.spends) {
      InvStaysSafe(r, b);
    } else {
      OpposedIff(b);
      var i, j, sub :| Opposed(b, i, j, sub);
      OpposedIsDoomed(r, b, i, j, sub);
    }
  }

  // ---- one step ----

  /** From books that stay safe, one more step keeps them so if and only if it is careful. */
  lemma StepStaysSafeIff(r: Rules, b: Books, e: Event)
    requires r.Sound() && Inv(r, b) && Enabled(r, b, e)
    ensures StaysSafe(r, After(r, b, e)) <==> Careful(b, e)
  {
    hide StaysSafe, Consistent, NoOpposition;
    EventKeepsIff(r, b, e);
    if Careful(b, e) {
      InvStaysSafe(r, After(r, b, e));
    } else if e.Insert? {
      InsertConsistent(r, b, e.spend);
      StaysSafeIff(r, After(r, b, e));
    } else {
      MarkedReleaseIsUnsafe(r, b, e.sub);
    }
  }

  lemma MarkedReleaseIsUnsafe(r: Rules, b: Books, sub: SubId)
    requires Enabled(r, b, AwaitCancel(sub)) && ReleaseAmong(b.spends, sub)
    ensures !StaysSafe(r, After(r, b, AwaitCancel(sub)))
  {
    var b' := After(r, b, AwaitCancel(sub));
    var i :| 0 <= i < |b.spends| && LiveRelease(b.spends[i]) && Covers(b.spends[i], sub);
    assert LiveRelease(b'.spends[i]) && Covers(b'.spends[i], sub) && b'.settlements[sub].phase == AwaitingCancel;
    assert Onward(r, b', [b'], []) && !Safe([b'][0]);
  }

  /** Recording a release keeps the promise for good if and only if no cancel in flight covers
      one of its subscriptions. */
  lemma ReleaseStaysSafeIff(r: Rules, b: Books, sp: Spend)
    requires r.Sound() && Inv(r, b) && Enabled(r, b, Insert(sp)) && sp.kind == Release
    ensures StaysSafe(r, After(r, b, Insert(sp))) <==> forall sub :: sub in Subs(sp.coins) ==> !CancelAmong(b.spends, sub)
  {
    hide StaysSafe, Inv;
    StepStaysSafeIff(r, b, Insert(sp));
  }
}
