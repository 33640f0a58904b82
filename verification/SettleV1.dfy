/** The two-transaction close of one subscription: its release is sent from a shared wallet
    under a marker of its own, looked for before any retry. */
module SettleV1 {
  import opened Prelude
  import opened Chain

  datatype Stage =
    Pending | Delivering | Delivered | Releasing | Released | Settled | Refunding | Refunded | Failed

  datatype Row = Row(stage: Stage, delivery: Option<Txid>, release: Option<Txid>)

  /** A payment out of the shared wallet and the comment it carries. */
  datatype Payment = Payment(marker: nat, txid: Txid)

  /** ready tells that the request being served has written its intent to release, having
      looked for an earlier send and found none. */
  datatype Books = Books(row: Row, wallet: seq<Payment>, ready: bool)

  datatype Event =
    | Crash
    | OtherSend(p: Payment)
    | StartDelivery
    | RecordDelivery(txid: Txid)
    | StartRefund
    | EndRefund(to: Stage)
    | IntendRelease
    | SendRelease(txid: Txid)
    | RecordRelease(txid: Txid)
    | Fail
    | Settle

  /** How many payments among the first k carry a marker. */
  function Count(wallet: seq<Payment>, marker: nat, k: nat): nat
    requires k <= |wallet|
  {
    if k == 0 then 0 else Count(wallet, marker, k - 1) + (if wallet[k - 1].marker == marker then 1 else 0)
  }

  function Releases(wallet: seq<Payment>, marker: nat): nat {
    Count(wallet, marker, |wallet|)
  }

  lemma {:induction false} CountAgrees(a: seq<Payment>, b: seq<Payment>, marker: nat, k: nat)
    requires k <= |a| && k <= |b| && forall i :: 0 <= i < k ==> a[i] == b[i]
    ensures Count(a, marker, k) == Count(b, marker, k)
  {
    if k > 0 { CountAgrees(a, b, marker, k - 1); }
  }

  lemma CountSnoc(wallet: seq<Payment>, p: Payment, marker: nat)
    ensures Releases(wallet + [p], marker) == Releases(wallet, marker) + (if p.marker == marker then 1 else 0)
  {
    CountAgrees(wallet + [p], wallet, marker, |wallet|);
  }

  /** Rows a close leaves alone. */
  predicate Over(s: Stage) {
    s == Settled || s == Refunded || s == Failed
  }

  predicate Enabled(b: Books, marker: nat, e: Event) {
    match e
    case Crash => true
    case OtherSend(p) => p.marker != marker
    case StartDelivery => !Over(b.row.stage) && b.row.delivery == None
    case RecordDelivery(_) => b.row.stage == Delivering && b.row.delivery == None
    case StartRefund => b.row.delivery == None && (b.row.stage == Delivering || b.row.stage == Refunding)
    case EndRefund(to) => b.row.stage == Refunding && (to == Refunded || to == Failed)
    case IntendRelease =>
      && !Over(b.row.stage) && b.row.delivery.Some? && b.row.release == None
      && (b.row.stage == Releasing ==> Releases(b.wallet, marker) == 0)
    case SendRelease(_) => b.ready
    case RecordRelease(txid) =>
      && !Over(b.row.stage) && b.row.delivery.Some? && b.row.release == None && b.row.stage == Releasing
      && Payment(marker, txid) in b.wallet
    case Fail => !Over(b.row.stage)
    case Settle => !Over(b.row.stage) && b.row.release.Some?
  }

  function After(b: Books, marker: nat, e: Event): Books
    requires Enabled(b, marker, e)
  {
    match e
    case Crash => b.(ready := false)
    case OtherSend(p) => b.(wallet := b.wallet + [p])
    case StartDelivery => b.(row := b.row.(stage := Delivering), ready := false)
    case RecordDelivery(txid) => b.(row := b.row.(stage := Delivered, delivery := Some(txid)))
    case StartRefund => b.(row := b.row.(stage := Refunding), ready := false)
    case EndRefund(to) => b.(row := b.row.(stage := to))
    case IntendRelease => b.(row := b.row.(stage := Releasing), ready := true)
    case SendRelease(txid) => b.(wallet := b.wallet + [Payment(marker, txid)], ready := false)
    case RecordRelease(txid) => b.(row := b.row.(stage := Released, release := Some(txid)), ready := false)
    case Fail => b.(row := b.row.(stage := Failed), ready := false)
    case Settle => b.(row := b.row.(stage := Settled), ready := false)
  }

  /** At most one release was sent; one that was has left the row releasing, released or over. */
  predicate Inv(b: Books, marker: nat) {
    && Releases(b.wallet, marker) <= 1
    && (Releases(b.wallet, marker) == 1 ==>
          b.row.delivery.Some? && (b.row.stage == Releasing || b.row.stage == Released || Over(b.row.stage)))
    && (b.row.release.Some? ==> b.row.delivery.Some? && (b.row.stage == Released || Over(b.row.stage)))
    && (b.row.stage == Released ==> b.row.release.Some?)
    && (b.row.stage == Refunding ==> b.row.delivery == None)
    && (b.ready ==> b.row.stage == Releasing && b.row.delivery.Some? && b.row.release == None
                    && Releases(b.wallet, marker) == 0)
  }

  lemma EventKeeps(b: Books, marker: nat, e: Event)
    requires Inv(b, marker) && Enabled(b, marker, e)
    ensures Inv(After(b, marker, e), marker)
    ensures Releases(b.wallet, marker) <= Releases(After(b, marker, e).wallet, marker)
  {
    match e
    case OtherSend(p) => CountSnoc(b.wallet, p, marker);
    case SendRelease(txid) => CountSnoc(b.wallet, Payment(marker, txid), marker);
    case _ =>
  }

  // ---- every run ----

  ghost predicate Trace(bs: seq<Books>, es: seq<Event>, marker: nat) {
    && |bs| == |es| + 1
    && forall k :: 0 <= k < |es| ==> Enabled(bs[k], marker, es[k]) && bs[k + 1] == After(bs[k], marker, es[k])
  }

  /** A settlement row just made, and no payment under its marker. */
  predicate Start(b: Books, marker: nat) {
    b.row == Row(Pending, None, None) && Releases(b.wallet, marker) == 0 && !b.ready
  }

  lemma {:induction false} InvAlong(bs: seq<Books>, es: seq<Event>, marker: nat, k: nat)
    requires Trace(bs, es, marker) && Start(bs[0], marker) && k <= |es|
    ensures Inv(bs[k], marker)
  {
    if k > 0 {
      InvAlong(bs, es, marker, k - 1);
      EventKeeps(bs[k - 1], marker, es[k - 1]);
    }
  }

  /** Counting to nothing, or to one, means there is no such payment, or no two. */
  lemma {:induction false} OneAtMost(wallet: seq<Payment>, marker: nat, k: nat)
    requires k <= |wallet|
    ensures Count(wallet, marker, k) == 0 <==> forall i :: 0 <= i < k ==> wallet[i].marker != marker
    ensures Count(wallet, marker, k) <= 1 <==>
            forall i, j :: 0 <= i < j < k ==> !(wallet[i].marker == marker && wallet[j].marker == marker)
  {
    if k > 0 { OneAtMost(wallet, marker, k - 1); }
  }

  /** Over any number of closes, stopped at any write, the release is sent at most once. */
  lemma ReleasedAtMostOnce(bs: seq<Books>, es: seq<Event>, marker: nat, k: nat)
    requires Trace(bs, es, marker) && Start(bs[0], marker) && k <= |es|
    ensures Releases(bs[k].wallet, marker) <= 1
    ensures forall i, j :: 0 <= i < j < |bs[k].wallet| ==> !(bs[k].wallet[i].marker == marker && bs[k].wallet[j].marker == marker)
  {
    InvAlong(bs, es, marker, k);
    OneAtMost(bs[k].wallet, marker, |bs[k].wallet|);
  }

  /** A failure that was recorded is final: from then on nothing more is sent under the marker. */
  lemma {:induction false} NeverAfterFailure(bs: seq<Books>, es: seq<Event>, marker: nat, j: nat, k: nat)
    requires Trace(bs, es, marker) && Start(bs[0], marker) && j <= k <= |es|
    requires bs[j].row.stage == Failed
    ensures bs[k].row == bs[j].row && Releases(bs[k].wallet, marker) == Releases(bs[j].wallet, marker)
  {
    if j < k {
      NeverAfterFailure(bs, es, marker, j, k - 1);
      InvAlong(bs, es, marker, k - 1);
      var b, e := bs[k - 1], es[k - 1];
      if e.OtherSend? { CountSnoc(b.wallet, e.p, marker); }
    }
  }

  // ---- the close itself ----

  /** What the outside says during one close: whether the investor's account is there, whether
      the tokens are on their balance, the transfer's txid if it is made, and the release's:
      sent and answered, sent with the answer lost, or not sent. */
  datatype Reply = Sent(txid: Txid) | SentUnheard(txid: Txid) | NotSent

  datatype World = World(known: bool, landed: bool, transfer: Option<Txid>, release: Reply)

  /** What stands for the txid of a delivery found by balance. */
  const RECONCILED: Txid := 0

  ghost predicate Leads(es: seq<Event>, b: Books, marker: nat) {
    exists bs :: Trace(bs, es, marker) && Start(bs[0], marker) && bs[|es|] == b
  }

  lemma LeadsOn(es: seq<Event>, b: Books, marker: nat, e: Event)
    requires Leads(es, b, marker) && Enabled(b, marker, e)
    ensures Leads(es + [e], After(b, marker, e), marker)
  {
    var bs :| Trace(bs, es, marker) && Start(bs[0], marker) && bs[|es|] == b;
    var more, all := bs + [After(b, marker, e)], es + [e];
    assert Trace(more, all, marker) && more[|all|] == After(b, marker, e);
  }

  lemma LedOnce(es: seq<Event>, b: Books, marker: nat)
    requires Leads(es, b, marker)
    ensures Inv(b, marker)
  {
    var bs :| Trace(bs, es, marker) && Start(bs[0], marker) && bs[|es|] == b;
    InvAlong(bs, es, marker, |es|);
  }

  /** The first payment that carries a marker. */
  method FindSend(wallet: seq<Payment>, marker: nat) returns (found: Option<Txid>)
    ensures found == None <==> Releases(wallet, marker) == 0
    ensures found == None <==> forall i :: 0 <= i < |wallet| ==> wallet[i].marker != marker
    ensures found.Some? ==> Payment(marker, found.value) in wallet
  {
    for i := 0 to |wallet|
      invariant Count(wallet, marker, i) == 0 && forall j :: 0 <= j < i ==> wallet[j].marker != marker
    {
      if wallet[i].marker == marker {
        CountGrows(wallet, marker, i + 1, |wallet|);
        return Some(wallet[i].txid);
      }
    }
    return None;
  }

  lemma {:induction false} CountGrows(wallet: seq<Payment>, marker: nat, k: nat, n: nat)
    requires k <= n <= |wallet|
    ensures Count(wallet, marker, k) <= Count(wallet, marker, n)
  {
    if k < n { CountGrows(wallet, marker, k, n - 1); }
  }

  class Closer {
    const marker: nat
    var books: Books
    /** How many more writes and requests this process makes before it stops. */
    var budget: nat
    ghost var log: seq<Event>

    ghost predicate Valid()
      reads this
    {
      Leads(log, books, marker)
    }

    constructor (marker: nat, wallet: seq<Payment>, budget: nat)
      requires Releases(wallet, marker) == 0
      ensures Valid() && this.marker == marker && this.budget == budget
      ensures books == Books(Row(Pending, None, None), wallet, false)
    {
      this.marker, this.budget, log := marker, budget, [];
      books := Books(Row(Pending, None, None), wallet, false);
      new;
      assert Trace([books], [], marker) && [books][0] == books;
    }

    method Write(e: Event) returns (alive: bool)
      requires Valid() && Enabled(books, marker, e)
      modifies `books, `log, `budget
      ensures Valid() && books == After(old(books), marker, if alive then e else Crash)
    {
      alive := budget > 0;
      var happened := if alive then e else Crash;
      if alive {
        budget := budget - 1;
      }
      LeadsOn(log, books, marker, happened);
      books, log := After(books, marker, happened), log + [happened];
    }

    /** Delivers the tokens if they are not delivered; undelivered means the refund takes over. */
    method Deliver(w: World) returns (undelivered: bool, alive: bool)
      requires Valid() && !Over(books.row.stage) && books.row.delivery == None
      modifies `books, `log, `budget
      ensures Valid() && books.wallet == old(books.wallet)
      ensures undelivered ==> !w.landed && w.transfer == None
      ensures alive && undelivered ==> books.row == old(books.row).(stage := Delivering) && !w.landed && w.transfer == None
      ensures alive && !undelivered ==>
                && (w.landed || w.transfer.Some?)
                && books.row.stage == Delivered && books.row.release == old(books.row.release)
                && books.row.delivery == if w.landed && (old(books.row.stage) == Delivering || w.transfer == None)
                                         then Some(RECONCILED) else w.transfer
    {
      hide Leads;
      undelivered := false;
      if books.row.stage == Delivering && w.landed {
        alive := Write(RecordDelivery(RECONCILED));
        return;
      }
      alive := Write(StartDelivery);
      if !alive { return; }
      if w.transfer.Some? {
        alive := Write(RecordDelivery(w.transfer.value));
      } else if w.landed {
        alive := Write(RecordDelivery(RECONCILED));
      } else {
        undelivered := true;
      }
    }

    /** Releases the payment: found under its marker if it was sent before, else sent. */
    method Release(reply: Reply) returns (alive: bool)
      requires Valid() && !Over(books.row.stage) && books.row.delivery.Some? && books.row.release == None
      modifies `books, `log, `budget
      ensures Valid()
      ensures alive ==> books.row.stage == Released || books.row.stage == Failed
      ensures alive ==> books.row.delivery == old(books.row.delivery)
      ensures alive && books.row.stage == Released ==>
                books.row.release.Some? && Payment(marker, books.row.release.value) in books.wallet
      ensures old(books.row.stage) == Releasing && Releases(old(books.wallet), marker) > 0 ==>
                books.wallet == old(books.wallet) && (alive ==> books.row.stage == Released)
      ensures alive && !(old(books.row.stage) == Releasing && Releases(old(books.wallet), marker) > 0) ==>
                && books.wallet == old(books.wallet) + (if reply.NotSent? then [] else [Payment(marker, reply.txid)])
                && (books.row.stage == Released <==> reply.Sent?)
                && (reply.Sent? ==> books.row.release == Some(reply.txid))
    {
      hide Leads, Releases;
      var found: Option<Txid> := None;
      if books.row.stage == Releasing {
        found := FindSend(books.wallet, marker);
      }
      if found == None {
        alive := Write(IntendRelease);
        if !alive { return; }
        if reply.NotSent? {
          alive := Write(Fail);
          return;
        }
        alive := Write(SendRelease(reply.txid));
        if !alive { return; }
        if reply.SentUnheard? {
          alive := Write(Fail);
          return;
        }
        found := Some(reply.txid);
      }
      alive := Write(RecordRelease(found.value));
    }

    /** One close of this subscription, from wherever the last one stopped. */
    method SettleOne(w: World) returns (undelivered: bool, alive: bool)
      requires Valid()
      modifies `books, `log, `budget
      ensures Valid() && Inv(books, marker)
      ensures Over(old(books.row.stage)) <==>
              old(books.row.stage) == Settled || old(books.row.stage) == Refunded || old(books.row.stage) == Failed
      ensures Over(old(books.row.stage)) ==> books == old(books)
      ensures alive && !undelivered ==>
                books.row.stage == Settled || books.row.stage == Failed || (books.row.stage == Refunded && books == old(books))
      ensures alive && !Over(old(books.row.stage)) && !w.known ==> books == After(old(books), marker, Fail) && !undelivered
      ensures undelivered ==>
                old(books.row.delivery) == None && w.known && !w.landed && w.transfer == None
                && books.wallet == old(books.wallet) && (alive ==> books.row.stage == Delivering)
      ensures alive && !Over(old(books.row.stage)) && w.known && !undelivered ==>
                (books.row.stage == Settled <==>
                  || old(books.row.release).Some?
                  || (old(books.row.stage) == Releasing && Releases(old(books.wallet), marker) > 0)
                  || w.release.Sent?)
      ensures alive && books.row.stage == Settled && !Over(old(books.row.stage)) ==>
                && books.row.release.Some?
                && books.row.delivery == (if old(books.row.delivery).Some? then old(books.row.delivery)
                                          else if w.landed && (old(books.row.stage) == Delivering || w.transfer == None)
                                          then Some(RECONCILED) else w.transfer)
                && (if old(books.row.release).Some? then books.row.release == old(books.row.release)
                    else Payment(marker, books.row.release.value) in books.wallet)
      ensures alive && !Over(old(books.row.stage)) && w.known && !undelivered ==>
                var unsent := old(books.row.release).Some?
                              || (old(books.row.stage) == Releasing && Releases(old(books.wallet), marker) > 0)
                              || w.release.NotSent?;
                books.wallet == old(books.wallet) + (if unsent then [] else [Payment(marker, w.release.txid)])
    {
      hide Leads, Releases;
      LedOnce(log, books, marker);
      undelivered, alive := false, true;
      if Over(books.row.stage) {
        return;
      }
      if !w.known {
        alive := Write(Fail);
        LedOnce(log, books, marker);
        return;
      }
      if books.row.delivery == None {
        undelivered, alive := Deliver(w);
        LedOnce(log, books, marker);
        if !alive || undelivered { return; }
      }
      if books.row.release == None {
        alive := Release(w.release);
        LedOnce(log, books, marker);
        if !alive || books.row.stage == Failed { return; }
      }
      alive := Write(Settle);
      LedOnce(log, books, marker);
    }
  }
}
