/** What the node's and the policy server's answers can do to the books, and what they cannot. */
module EscrowAnswers {
  import opened Prelude
  import opened Chain
  import opened Covenant
  import opened EscrowProtocol
  import opened EscrowPlans

  // ---- the node ----

  /** A spend sent is answered for -- on chain, dead, or set back -- unless the node was not
      reached and nothing of it shows. */
  lemma AnsweredIff(b: Books, at: nat, node: Node)
    requires at < |b.spends| && b.spends[at].state == Broadcasting
    ensures Finished(b, at, node).spends[at].state != Broadcasting
            <==> node.sent != Unreached || StillThere(b.spends[at], node) || CoinGone(b.spends[at], node)
  {
  }

  /** A spend that may be out keeps holding its coins until one of them is seen gone: only a
      refusal frees them. */
  lemma MayBeOutStaysHeld(b: Books, at: nat, node: Node, except: Option<Kind>)
    requires at < |b.spends| && b.spends[at].state == Broadcasting
    requires node.sent != Refused && !CoinGone(b.spends[at], node)
    ensures Holds(Finished(b, at, node).spends[at], except)
  {
  }

  /** A refund is never set back to wait for a signature, which nobody gives. */
  lemma RefundNeverWaits(b: Books, at: nat, node: Node)
    requires at < |b.spends| && b.spends[at].state == Broadcasting && b.spends[at].kind == Refund
    ensures Finished(b, at, node).spends[at].state != Built
  {
  }

  /** Subscriptions change only when the spend is on chain, and every other spend stays as it was. */
  lemma OnlyLandingSettles(b: Books, at: nat, node: Node, j: nat)
    requires at < |b.spends| && b.spends[at].state == Broadcasting && j < |b.spends|
    ensures var b' := Finished(b, at, node);
            && (b'.subs != b.subs || b'.settlements != b.settlements ==> b'.spends[at].state == Broadcast)
            && (b'.spends[at].state == Broadcast <==> node.sent == Accepted || StillThere(b.spends[at], node))
            && (j != at ==> b'.spends[j] == b.spends[j])
  {
  }

  /** Signatures put a spend on chain exactly when they verify for a built release or cancel, the
      close has passed for a release, and the node takes it; nothing else not under way is touched. */
  lemma SignaturesLandIff(r: Rules, b: Books, at: nat, sound: bool, node: Node)
    requires at < |b.spends| && InFlight(b.spends[at]) && b.spends[at].state != Broadcasting
    ensures Signed(r, b, at, sound, node).spends[at].state == Broadcast
            <==> && sound && b.spends[at].kind != Refund
                 && (b.spends[at].kind == Release ==> LockReached(r.terms.closeLock, b.tip, b.mtp))
                 && (node.sent == Accepted || StillThere(b.spends[at], node))
    ensures b.spends[at].kind == Refund || !sound ==> Signed(r, b, at, sound, node) == b
  {
  }

  /** In every run, careful or not, a spend landed, dead or superseded stays as it is, and is not
      sent again. */
  lemma {:induction false} OverIsOver(r: Rules, bs: seq<Books>, es: seq<Event>, at: nat, j: nat, k: nat)
    requires Run(r, bs, es) && j <= k <= |es| && at < |bs[j].spends| && !InFlight(bs[j].spends[at])
    ensures at < |bs[k].spends| && bs[k].spends[at] == bs[j].spends[at]
    ensures forall sound, node :: Signed(r, bs[k], at, sound, node) == bs[k]
  {
    if j < k {
      OverIsOver(r, bs, es, at, j, k - 1);
      assert Next(r, bs[k - 1], es[k - 1], bs[k]);
    }
  }

  // ---- one delivery ----

  /** An attempt decides a delivery unless it finds one interrupted whose tokens have not arrived. */
  lemma AttemptDecidesIff(st: Settlement, p: Policy)
    ensures !Decided(Attempt(st, p).phase)
            <==> st.phase == Delivering && st.delivery == None && p.known && !p.landed
  {
  }

  /** After one attempt no answer of the policy server brings another request. */
  lemma NoSecondRequest(st: Settlement, p: Policy, q: Policy)
    ensures !Asks(Attempt(st, p), q)
  {
  }

  /** A decided delivery is the same after any later attempt, and an undecided one was never asked
      for by the earlier. */
  lemma AttemptIsFinalIff(st: Settlement, p: Policy)
    ensures (forall q :: Attempt(Attempt(st, p), q) == Attempt(st, p)) <==> Decided(Attempt(st, p).phase)
    ensures !Decided(Attempt(st, p).phase) ==> Attempt(st, p) == st && !Asks(st, p)
  {
    var q := Policy(false, None, false);
    assert Decided(Attempt(Attempt(st, p), q).phase);
  }

  /** A recorded delivery is never forgotten or replaced, and none awaits release without one. */
  lemma DeliveryKept(st: Settlement, p: Policy)
    ensures st.delivery.Some? ==> Attempt(st, p).delivery == st.delivery
    ensures Attempt(st, p).phase == AwaitingRelease && st.phase != AwaitingRelease ==> Attempt(st, p).delivery.Some?
    ensures Attempt(st, p).release == st.release && Attempt(st, p).refund == st.refund
  {
  }

  // ---- tokens and money ----

  /** A delivery said to have failed left no tokens behind. */
  ghost predicate FailedUndelivered(rows: Rows) {
    forall sub :: PhaseIs(rows, sub, DeliveryFailed) ==> rows[sub].delivery == None
  }

  /** Every event keeps that but the failing of a delivery already recorded. */
  lemma FailureIsTrueIff(r: Rules, b: Books, e: Event)
    requires Enabled(r, b, e) && FailedUndelivered(b.settlements)
    ensures FailedUndelivered(After(r, b, e).settlements)
            <==> !(e.FailDelivery? && b.settlements[e.sub].delivery.Some?)
  {
    var rows' := After(r, b, e).settlements;
    if e.FailDelivery? && b.settlements[e.sub].delivery.Some? {
      assert PhaseIs(rows', e.sub, DeliveryFailed);
    } else {
      forall sub | PhaseIs(rows', sub, DeliveryFailed) ensures rows'[sub].delivery == None {
        assert PhaseIs(b.settlements, sub, DeliveryFailed) || (e.FailDelivery? && e.sub == sub);
      }
    }
  }

  /** An attempt does not fail a recorded delivery: it is over, its account is known, or nothing is recorded. */
  predicate FailsTruly(st: Settlement, p: Policy) {
    Decided(st.phase) || p.known || st.delivery == None
  }

  lemma AttemptFailsTrulyIff(b: Books, sub: SubId, p: Policy)
    requires FailedUndelivered(b.settlements)
    ensures FailedUndelivered(Delivered(b, sub, p).settlements) <==> FailsTruly(RowOf(b.settlements, sub), p)
  {
    var rows' := Delivered(b, sub, p).settlements;
    assert PhaseIs(rows', sub, rows'[sub].phase);
    if sub in b.settlements { assert PhaseIs(b.settlements, sub, b.settlements[sub].phase); }
    if FailsTruly(RowOf(b.settlements, sub), p) {
      forall other | PhaseIs(rows', other, DeliveryFailed) ensures rows'[other].delivery == None {
        if other != sub { assert PhaseIs(b.settlements, other, DeliveryFailed); }
      }
    }
  }

  lemma FalseFailureStays(b: Books, sub: SubId, p: Policy)
    requires !FailedUndelivered(b.settlements)
    ensures !FailedUndelivered(Delivered(b, sub, p).settlements)
  {
    var other :| PhaseIs(b.settlements, other, DeliveryFailed) && b.settlements[other].delivery.Some?;
    assert PhaseIs(Delivered(b, sub, p).settlements, other, DeliveryFailed);
  }

  /** A close fails no recorded delivery -- and so cancels nobody who has the tokens -- if and only if
      the account of each subscription it finds with one, not decided, is known. */
  lemma {:induction false} CloseFailsTrulyIff(b: Books, covenant: seq<SubId>, p: SubId -> Policy, k: nat)
    requires k <= |covenant| && Paid(b, covenant) && FailedUndelivered(b.settlements)
    ensures FailedUndelivered(AfterDeliveries(b, covenant, p, k).settlements)
            <==> forall j :: 0 <= j < k ==> FailsTruly(RowOf(b.settlements, covenant[j]), p(covenant[j]))
  {
    hide FailedUndelivered, FailsTruly, Delivered, Paid, RowOf;
    if k > 0 {
      CloseFailsTrulyIff(b, covenant, p, k - 1);
      var before := AfterDeliveries(b, covenant, p, k - 1);
      DeliveriesAre(b, covenant, p, k - 1, k - 1);
      if FailedUndelivered(before.settlements) {
        AttemptFailsTrulyIff(before, covenant[k - 1], p(covenant[k - 1]));
      } else {
        FalseFailureStays(before, covenant[k - 1], p(covenant[k - 1]));
      }
    }
  }

  // ---- many answers ----

  /** One delivery tried again and again, once in each close. */
  function Tries(st: Settlement, ps: seq<Policy>, k: nat): Settlement
    requires k <= |ps|
  {
    if k == 0 then st else Attempt(Tries(st, ps, k - 1), ps[k - 1])
  }

  /** How often the first k attempts ask for the tokens. */
  function Requests(st: Settlement, ps: seq<Policy>, k: nat): nat
    requires k <= |ps|
  {
    if k == 0 then 0 else Requests(st, ps, k - 1) + (if Asks(Tries(st, ps, k - 1), ps[k - 1]) then 1 else 0)
  }

  /** Over any number of attempts the tokens are asked for at most once, and only by the first; and
      once one decides, the row is what that one left. */
  lemma {:induction false} ManyTries(st: Settlement, ps: seq<Policy>, j: nat, k: nat)
    requires j <= k <= |ps|
    ensures Requests(st, ps, k) == if k > 0 && Asks(st, ps[0]) then 1 else 0
    ensures Decided(Tries(st, ps, j).phase) ==> Tries(st, ps, k) == Tries(st, ps, j)
  {
    if k > 0 {
      if j < k { ManyTries(st, ps, j, k - 1); } else { ManyTries(st, ps, k - 1, k - 1); }
      if k > 1 { NoSecondRequest(Tries(st, ps, k - 2), ps[k - 2], ps[k - 1]); }
    }
  }

  /** A spend sent again and again: nothing more is sent once it is answered for. */
  function Heals(b: Books, at: nat, nodes: seq<Node>, k: nat): (b': Books)
    requires k <= |nodes| && at < |b.spends|
    ensures |b'.spends| == |b.spends|
  {
    if k == 0 then b
    else
      var before := Heals(b, at, nodes, k - 1);
      if before.spends[at].state == Broadcasting then Finished(before, at, nodes[k - 1]) else before
  }

  predicate Answers(sp: Spend, node: Node) {
    node.sent != Unreached || StillThere(sp, node) || CoinGone(sp, node)
  }

  /** However often it is sent, the first answer decides, and until there is one nothing changes. */
  lemma {:induction false} FirstAnswerDecides(b: Books, at: nat, nodes: seq<Node>, i: nat, k: nat)
    requires at < |b.spends| && b.spends[at].state == Broadcasting && i <= k <= |nodes|
    requires forall j :: 0 <= j < i ==> !Answers(b.spends[at], nodes[j])
    ensures Heals(b, at, nodes, i) == b
    ensures i < k && Answers(b.spends[at], nodes[i]) ==> Heals(b, at, nodes, k) == Finished(b, at, nodes[i])
  {
    hide Finished, Answers;
    if i < k {
      FirstAnswerDecides(b, at, nodes, i, k - 1);
      if Answers(b.spends[at], nodes[i]) { Decides(b, at, nodes[i]); }
    } else if i > 0 {
      FirstAnswerDecides(b, at, nodes, i - 1, i - 1);
      Decides(b, at, nodes[i - 1]);
    }
  }

  lemma Decides(b: Books, at: nat, node: Node)
    requires at < |b.spends| && b.spends[at].state == Broadcasting
    ensures |Finished(b, at, node).spends| == |b.spends|
    ensures if Answers(b.spends[at], node) then Finished(b, at, node).spends[at].state != Broadcasting
            else Finished(b, at, node) == b
  {
  }
}
