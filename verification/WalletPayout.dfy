/** The other way to pay a run: one payment to its holders' wallets. Its handlers hold another
    lock than the execution of the run does, and write the same rows. */
module WalletPayout {
  import opened Prelude
  import opened Chain
  import opened Payout

  /** What a payment made by the issuer's wallet is known by. */
  type Reference = nat

  /** The payment a run is handed to: whom it lists, what was paid for it, and for which of them
      it is recorded as gone out. A payment that became void is forgotten: it paid nobody. */
  datatype Payment = Payment(listed: set<nat>, reference: Option<Reference>, released: bool, gone: set<nat>)

  /** How far the request that holds the run's lock is: let in while the run had no wallet
      payment, or past its first write. */
  datatype Request = Nobody | Admitted | Writing

  /** A run, the request executing it, the wallet payment, and whether the handler making that
      payment has rows left to rewrite. */
  datatype Shared = Shared(run: Run, request: Request, payment: Option<Payment>, handing: bool)

  datatype Step =
    | Admit
    | Exec(event: Event)
    | Hand(able: set<nat>)
    | Relist(at: nat)
    | HandRun
    | Refer(reference: Reference)
    | Void
    | Release
    | WentOut(at: nat, round: Txid)
    | RunWentOut(round: Txid)
    | Return(at: nat)

  /** The holders a wallet payment lists: owed something, and able to be paid that way. */
  function Listed(rows: seq<PayRow>, able: set<nat>): set<nat> {
    set i | i in able && i < |rows| && rows[i].net > 0
  }

  predicate Allowed(s: Shared, e: Step) {
    match e
    case Admit => s.request == Nobody && s.run.state != Complete && s.payment == None
    case Exec(x) => Enabled(s.run, x) && (x.Crash? || s.request == Admitted || (s.request == Writing && !x.IntendRun?))
    case Hand(able) => s.payment == None && s.run.state == Snapshotted && Listed(s.run.rows, able) != {}
    case Relist(i) => s.payment.Some? && s.handing && i < |s.run.rows|
    case HandRun => s.payment.Some? && s.handing
    case Refer(_) => Following(s) && s.payment.value.reference == None
    case Void => Following(s) && s.payment.value.reference.Some? && !s.payment.value.released
    case Release => Following(s) && s.payment.value.reference.Some? && !s.payment.value.released
    case WentOut(i, _) => Following(s) && s.payment.value.released && i < |s.run.rows|
                          && i in s.payment.value.listed - s.payment.value.gone
    case RunWentOut(_) => Following(s) && s.payment.value.released
    case Return(i) => Following(s) && s.payment.value.released && i < |s.run.rows| && i in s.payment.value.gone
  }

  predicate Following(s: Shared) {
    s.payment.Some? && !s.handing
  }

  function Relisted(row: PayRow, listed: bool): PayRow {
    row.(state := if row.net == 0 then NoPayment else if listed then Planned else Skipped)
  }

  function SetRow(r: Run, i: nat, row: PayRow): Run
    requires i < |r.rows|
  {
    r.(rows := r.rows[i := row])
  }

  function Then(s: Shared, e: Step): Shared
    requires Allowed(s, e)
  {
    match e
    case Admit => s.(request := Admitted)
    case Exec(x) =>
      s.(run := After(s.run, x), request := if x.Crash? || x.Leave? then Nobody else Writing,
         handing := s.handing && !x.Crash?)
    case Hand(able) => s.(payment := Some(Payment(Listed(s.run.rows, able), None, false, {})), handing := true)
    case Relist(i) => s.(run := SetRow(s.run, i, Relisted(s.run.rows[i], i in s.payment.value.listed)))
    case HandRun => s.(run := s.run.(state := InPayment), handing := false)
    case Refer(reference) => s.(payment := Some(s.payment.value.(reference := Some(reference))))
    case Void => s.(payment := Some(s.payment.value.(reference := None)))
    case Release => s.(payment := Some(s.payment.value.(released := true)))
    case WentOut(i, round) =>
      s.(run := SetRow(s.run, i, s.run.rows[i].(state := Paid, txid := Some(round))),
         payment := Some(s.payment.value.(gone := s.payment.value.gone + {i})))
    case RunWentOut(round) => s.(run := s.run.(state := Complete, payout := Some(round)))
    case Return(i) => s.(run := SetRow(s.run, i, s.run.rows[i].(state := Returned)))
  }

  ghost predicate Trace(ss: seq<Shared>, es: seq<Step>) {
    && |ss| == |es| + 1
    && forall k :: 0 <= k < |es| ==> Allowed(ss[k], es[k]) && ss[k + 1] == Then(ss[k], es[k])
  }

  /** A register just snapshotted, and nobody at it. */
  predicate Start(s: Shared) {
    Payout.Start(s.run) && s.request == Nobody && s.payment == None && !s.handing
  }

  /** Nothing stops inside an intent. */
  predicate Whole(s: Shared, e: Step) {
    e.Exec? ==> Careful(s.run, e.event)
  }

  // ---- nobody is paid in two ways ----

  datatype Means = OnChain(txid: Txid) | ToWallet(reference: Reference)

  /** What may have paid row i: the transactions that may have been broadcast for it, and the
      wallet payment that names it. */
  predicate MayPay(s: Shared, i: nat, m: Means)
    requires i < |s.run.out|
  {
    match m
    case OnChain(txid) => txid in s.run.out[i]
    case ToWallet(reference) => s.payment.Some? && i in s.payment.value.listed && s.payment.value.reference == Some(reference)
  }

  ghost predicate PaysOnce(s: Shared) {
    forall i, m, m' :: 0 <= i < |s.run.out| && MayPay(s, i, m) && MayPay(s, i, m') ==> m == m'
  }

  /** A run is handed over cleanly: nobody listed is paid already, and no request is about to
      pay them. */
  predicate Clean(s: Shared, e: Step) {
    e.Hand? ==> s.request != Admitted && forall i :: i in Listed(s.run.rows, e.able) ==> s.run.rows[i].state != Paid
  }

  /** Once handed over, nothing more is sent for the run, and nothing was for those listed. */
  ghost predicate Apart(s: Shared) {
    && s.payment.Some? && s.request != Admitted && s.run.answer == None && s.run.todo == {}
    && (s.run.payout.Some? ==> s.run.state == Complete && !s.handing)
    && Payout.PaysOnce(s.run)
    && (forall i :: i in s.payment.value.listed && i < |s.run.out| ==> s.run.out[i] == {})
  }

  ghost predicate Joint(s: Shared) {
    if s.payment == None then Inv(s.run) && !s.handing else Apart(s)
  }

  lemma HandKeeps(s: Shared, e: Step)
    requires Joint(s) && Allowed(s, e) && e.Hand? && Clean(s, e)
    ensures Joint(Then(s, e))
  {
    InvPaysOnce(s.run);
    forall i | i in Listed(s.run.rows, e.able) ensures s.run.out[i] == {} {
      assert OutOnce(s.run, i);
    }
  }

  lemma StepKeeps(s: Shared, e: Step)
    requires Joint(s) && Allowed(s, e) && Clean(s, e) && Whole(s, e)
    ensures Joint(Then(s, e))
  {
    if e.Hand? {
      HandKeeps(s, e);
    } else if s.payment == None && e.Exec? {
      EventKeepsIff(s.run, e.event);
    }
  }

  lemma JointPaysOnce(s: Shared)
    requires Joint(s)
    ensures PaysOnce(s)
  {
    if s.payment == None { InvPaysOnce(s.run); }
  }

  lemma {:induction false} JointAlong(ss: seq<Shared>, es: seq<Step>, k: nat)
    requires Trace(ss, es) && Joint(ss[0]) && k <= |es|
    requires forall j :: 0 <= j < |es| ==> Clean(ss[j], es[j]) && Whole(ss[j], es[j])
    ensures Joint(ss[k])
  {
    if k > 0 {
      JointAlong(ss, es, k - 1);
      StepKeeps(ss[k - 1], es[k - 1]);
    }
  }

  lemma StartIsJoint(s: Shared)
    requires Start(s)
    ensures Joint(s)
  {
  }

  /** In every run of executions, hand-overs, wallet payments made, voided, released and
      returned, and stops anywhere but inside an intent: as long as a run is only handed over
      cleanly, nobody is paid twice, by two transactions or by a transaction and a wallet payment. */
  lemma EveryRunPaysOnce(ss: seq<Shared>, es: seq<Step>, k: nat)
    requires Trace(ss, es) && Start(ss[0]) && k <= |es|
    requires forall j :: 0 <= j < |es| ==> Clean(ss[j], es[j]) && Whole(ss[j], es[j])
    ensures PaysOnce(ss[k])
  {
    StartIsJoint(ss[0]);
    JointAlong(ss, es, k);
    JointPaysOnce(ss[k]);
  }

  // ---- a hand-over that is not clean can pay twice ----

  ghost predicate Onward(s: Shared, ss: seq<Shared>, es: seq<Step>) {
    Trace(ss, es) && ss[0] == s && forall j :: 0 <= j < |es| ==> Whole(ss[j], es[j])
  }

  /** Whatever follows, stops inside an intent apart, nobody is paid twice. */
  ghost predicate StaysOnce(s: Shared) {
    forall ss, es :: Onward(s, ss, es) ==> PaysOnce(ss[|es|])
  }

  lemma StaysOnceIsOnce(s: Shared)
    requires StaysOnce(s)
    ensures PaysOnce(s)
  {
    assert Onward(s, [s], []);
  }

  lemma StaysOnceNext(s: Shared, e: Step)
    requires StaysOnce(s) && Allowed(s, e) && Whole(s, e)
    ensures StaysOnce(Then(s, e))
  {
    var s' := Then(s, e);
    forall ss, es | Onward(s', ss, es) ensures PaysOnce(ss[|es|]) {
      var more, all := [s] + ss, [e] + es;
      assert forall k :: 0 < k <= |all| ==> more[k] == ss[k - 1];
      assert forall k :: 0 < k < |all| ==> all[k] == es[k - 1];
      assert Onward(s, more, all) && more[|all|] == ss[|es|];
    }
  }

  lemma {:induction false} ApartAlong(ss: seq<Shared>, es: seq<Step>, k: nat)
    requires Trace(ss, es) && Apart(ss[0]) && k <= |es|
    requires forall j :: 0 <= j < |es| ==> Whole(ss[j], es[j])
    ensures Apart(ss[k])
  {
    if k > 0 {
      ApartAlong(ss, es, k - 1);
      StepKeeps(ss[k - 1], es[k - 1]);
    }
  }

  lemma ApartStaysOnce(s: Shared)
    requires Apart(s)
    ensures StaysOnce(s)
  {
    forall ss, es | Onward(s, ss, es) ensures PaysOnce(ss[|es|]) {
      ApartAlong(ss, es, |es|);
      JointPaysOnce(ss[|es|]);
    }
  }

  /** Somebody on the list may have been paid by a transaction already. */
  predicate PaidBefore(s: Shared, i: nat, txid: Txid) {
    s.payment.Some? && i in s.payment.value.listed && i < |s.run.out| && txid in s.run.out[i]
  }

  lemma PaidBeforePaysTwice(s: Shared, i: nat, txid: Txid)
    requires PaidBefore(s, i, txid) && s.payment.value.reference == None
    ensures !StaysOnce(s)
  {
    if StaysOnce(s) {
      var handed := if s.handing then Then(s, HandRun) else s;
      if s.handing { StaysOnceNext(s, HandRun); }
      StaysOnceNext(handed, Refer(0));
      var named := Then(handed, Refer(0));
      StaysOnceIsOnce(named);
      assert MayPay(named, i, OnChain(txid)) && MayPay(named, i, ToWallet(0));
      assert false;
    }
  }

  /** A payout is being recorded that pays somebody on the list. */
  predicate PayingListed(s: Shared, i: nat, txid: Txid) {
    && s.payment.Some? && i in s.payment.value.listed && i < |s.run.out| && i in s.run.carried
    && s.payment.value.reference == None && s.request == Writing
    && s.run.state == InPayment && s.run.payout == Some(txid) && s.run.answer == None
    && forall j :: j in s.run.todo ==> j < |s.run.rows|
  }

  lemma {:induction false} PayingListedPaysTwice(s: Shared, i: nat, txid: Txid)
    requires PayingListed(s, i, txid)
    ensures !StaysOnce(s)
    decreases |s.run.todo|
  {
    if s.run.todo == {} {
      var sent := Then(s, Exec(Send(Accepted)));
      PaidBeforePaysTwice(sent, i, txid);
      if StaysOnce(s) { StaysOnceNext(s, Exec(Send(Accepted))); }
    } else {
      var j :| j in s.run.todo;
      PayingListedPaysTwice(Then(s, Exec(IntendRow(j, 0))), i, txid);
      if StaysOnce(s) { StaysOnceNext(s, Exec(IntendRow(j, 0))); }
    }
  }

  /** A request let in before the hand-over can still take up a row the hand-over planned. */
  lemma AdmittedPaysTwice(s: Shared, i: nat)
    requires s.payment.Some? && s.handing && s.request == Admitted && s.payment.value.reference == None
    requires s.run.state == Snapshotted && i in s.payment.value.listed && i < |s.run.rows| == |s.run.out|
    requires s.run.rows[i].net > 0
    ensures !StaysOnce(s)
  {
    if StaysOnce(s) {
      StaysOnceNext(s, Relist(i));
      var listed := Then(s, Relist(i));
      assert i in PlannedRows(listed.run.rows);
      StaysOnceNext(listed, Exec(IntendRun(7)));
      PayingListedPaysTwice(Then(listed, Exec(IntendRun(7))), i, 7);
    }
  }

  /** From a run whose record is true, a hand-over leaves nobody ever paid twice if and only if
      nobody it lists is recorded paid and no request has been let in that has yet to write. */
  lemma HandOverStaysOnceIff(s: Shared, able: set<nat>)
    requires Joint(s) && Honest(s.run) && Allowed(s, Hand(able))
    ensures StaysOnce(Then(s, Hand(able))) <==> Clean(s, Hand(able))
  {
    hide StaysOnce;
    var handed := Then(s, Hand(able));
    if Clean(s, Hand(able)) {
      HandKeeps(s, Hand(able));
      ApartStaysOnce(handed);
    } else if s.request == Admitted {
      var i :| i in Listed(s.run.rows, able);
      AdmittedPaysTwice(handed, i);
    } else {
      var i :| i in Listed(s.run.rows, able) && s.run.rows[i].state == Paid;
      var txid :| txid in s.run.out[i];
      PaidBeforePaysTwice(handed, i, txid);
    }
  }

  // ---- what is recorded paid stays ----

  /** A step leaves every paid row as it is unless it rewrites one: listing it anew, recording
      another payment of it, or recording that a payment came back. */
  lemma StepKeepsPaidIff(s: Shared, e: Step)
    requires Intending(s.run) && Allowed(s, e)
    ensures PaidKept(s.run.rows, Then(s, e).run.rows) <==>
            match e
            case Relist(i) => s.run.rows[i].state != Paid
            case WentOut(i, round) => s.run.rows[i].state != Paid || s.run.rows[i].txid == Some(round)
            case Return(i) => s.run.rows[i].state != Paid
            case _ => true
  {
    if e.Exec? {
      EventKeepsPaid(s.run, e.event);
    } else if e.Relist? || e.WentOut? || e.Return? {
      var before, after := s.run.rows, Then(s, e).run.rows;
      assert forall i :: 0 <= i < |before| && i != e.at ==> after[i] == before[i];
      if before[e.at].state == Paid && after[e.at] != before[e.at] {
        assert !PaidKept(before, after);
      }
    }
  }

  /** No row at all is paid when the run is handed over. */
  predicate Fresh(s: Shared, e: Step) {
    e.Hand? ==> s.request != Admitted && forall i :: 0 <= i < |s.run.rows| ==> s.run.rows[i].state != Paid
  }

  /** After such a hand-over, only rows whose payment went out are paid, or were. */
  ghost predicate Recorded(s: Shared) {
    && Intending(s.run)
    && (s.payment == None ==>
          && !s.handing && (s.run.state == Snapshotted ==> s.run.payout == None && s.run.answer == None)
          && forall i :: 0 <= i < |s.run.rows| ==> s.run.rows[i].state != Returned)
    && (s.payment.Some? ==>
          && s.request != Admitted && s.run.todo == {} && s.run.answer == None
          && (s.run.payout.Some? ==> s.run.state == Complete && !s.handing)
          && (s.handing ==> s.payment.value.gone == {})
          && forall i :: 0 <= i < |s.run.rows| && (s.run.rows[i].state == Paid || s.run.rows[i].state == Returned) ==>
               i in s.payment.value.gone)
  }

  /** Every paid row is as it was, or its payment came back and nothing else changed; and one
      that came back stays so. */
  predicate PaidOrReturned(rows: seq<PayRow>, rows': seq<PayRow>) {
    |rows| == |rows'|
    && forall i :: 0 <= i < |rows| && (rows[i].state == Paid || rows[i].state == Returned) ==>
         rows'[i] == rows[i] || rows'[i] == rows[i].(state := Returned)
  }

  /** Rows paid or returned are as they were, and if none is marked paid none more is. */
  predicate OnlyMarks(rows: seq<PayRow>, rows': seq<PayRow>, marks: bool) {
    |rows| == |rows'|
    && forall i :: 0 <= i < |rows| ==>
         || rows'[i] == rows[i]
         || (rows[i].state != Paid && rows[i].state != Returned && rows'[i].state != Returned
             && (rows'[i].state == Paid ==> marks))
  }

  lemma EventOnlyMarks(r: Run, x: Event)
    requires Intending(r) && Enabled(r, x)
    ensures Intending(After(r, x)) && OnlyMarks(r.rows, After(r, x).rows, x.MarkPaid?)
  {
  }

  lemma ExecKeepsRecorded(s: Shared, e: Step)
    requires Recorded(s) && Allowed(s, e) && e.Exec?
    ensures Recorded(Then(s, e)) && PaidOrReturned(s.run.rows, Then(s, e).run.rows)
  {
    EventOnlyMarks(s.run, e.event);
    hide Intending;
    if s.payment == None {
    } else if e.event.MarkPaid? {
      assert false;
    }
  }

  lemma WalletKeepsRecorded(s: Shared, e: Step)
    requires Recorded(s) && Allowed(s, e) && Fresh(s, e) && !e.Exec?
    ensures Recorded(Then(s, e)) && PaidOrReturned(s.run.rows, Then(s, e).run.rows)
  {
    hide Enabled, After;
  }

  lemma StepKeepsRecorded(s: Shared, e: Step)
    requires Recorded(s) && Allowed(s, e) && Fresh(s, e)
    ensures Recorded(Then(s, e)) && PaidOrReturned(s.run.rows, Then(s, e).run.rows)
  {
    hide Recorded, PaidOrReturned, Allowed, Then, Fresh;
    if e.Exec? { ExecKeepsRecorded(s, e); } else { WalletKeepsRecorded(s, e); }
  }

  lemma {:induction false} RecordedAlong(ss: seq<Shared>, es: seq<Step>, k: nat)
    requires Trace(ss, es) && Start(ss[0]) && k <= |es| && forall j :: 0 <= j < |es| ==> Fresh(ss[j], es[j])
    ensures Recorded(ss[k])
  {
    if k > 0 {
      RecordedAlong(ss, es, k - 1);
      StepKeepsRecorded(ss[k - 1], es[k - 1]);
    }
  }

  /** In every run, stops inside an intent included, that hands the run over only while nobody is
      paid, a paid row stays as it is until its payment comes back, and then stays so. */
  lemma {:induction false} PaidStays(ss: seq<Shared>, es: seq<Step>, j: nat, k: nat)
    requires Trace(ss, es) && Start(ss[0]) && j <= k <= |es| && forall i :: 0 <= i < |es| ==> Fresh(ss[i], es[i])
    ensures PaidOrReturned(ss[j].run.rows, ss[k].run.rows)
  {
    if j < k {
      PaidStays(ss, es, j, k - 1);
      RecordedAlong(ss, es, k - 1);
      StepKeepsRecorded(ss[k - 1], es[k - 1]);
    }
  }

  // ---- a partial round, then handed over ----

  /** Some run without any stop leads here. */
  ghost predicate Led(s: Shared) {
    exists ss, es :: Trace(ss, es) && Start(ss[0]) && ss[|es|] == s && forall k :: 0 <= k < |es| ==> !Stops(es[k])
  }

  predicate Stops(e: Step) {
    e.Exec? && e.event.Crash?
  }

  lemma Next(s: Shared, e: Step) returns (s': Shared)
    requires Led(s) && Allowed(s, e) && !Stops(e)
    ensures s' == Then(s, e) && Led(s')
  {
    var ss, es :| Trace(ss, es) && Start(ss[0]) && ss[|es|] == s && forall k :: 0 <= k < |es| ==> !Stops(es[k]);
    s' := Then(s, e);
    var more, all := ss + [s'], es + [e];
    assert Trace(more, all) && more[|all|] == s' && more[0] == ss[0];
    assert forall k :: 0 <= k < |all| ==> !Stops(all[k]);
  }

  const PLANNED_ROW := FRESH_ROW.(state := Planned)
  const PAID_ROW := PayRow(Paid, 100, 5, Some(7), Some(0))
  const FAILED_ROW := FRESH_ROW.(state := Failed)
  const TWO := FRESH_RUN.(rows := [FRESH_ROW, FRESH_ROW], out := [{}, {}])
  const HALF_PLANNED := TWO.(rows := [PLANNED_ROW, FAILED_ROW])
  const HALF_PAID := TWO.(rows := [PAID_ROW, FAILED_ROW], out := [{7}, {}])

  /** The payout address of the second of two holders cannot be checked. */
  lemma HalfPlanned()
    ensures Led(Shared(HALF_PLANNED, Nobody, None, false))
  {
    hide Led;
    var s := Shared(TWO, Nobody, None, false);
    assert Led(s) by { Begun(s); }
    s := Next(s, Admit);
    s := Next(s, Exec(PlanRow(0, Planned, 5)));
    s := Next(s, Exec(PlanRow(1, Failed, 5)));
    s := Next(s, Exec(Leave));
    assert s.run.rows == HALF_PLANNED.rows;
  }

  lemma Begun(s: Shared)
    requires Start(s)
    ensures Led(s)
  {
    assert Trace([s], []) && [s][0] == s;
  }

  lemma SentForFirst()
    ensures Sent([{}, {}], {0}, 7) == [{7}, {}]
  {
    var sent := Sent([{}, {}], {0}, 7);
    assert sent[0] == {} + {7} == {7} && sent[1] == {};
  }

  /** The first is recorded and sent for. */
  lemma HalfSent() returns (s: Shared)
    ensures Led(s) && s.request == Writing && s.payment == None && !s.handing
    ensures s.run == HALF_PLANNED.(state := InPayment, payout := Some(7), carried := {0}, answer := Some(Accepted), mine := true,
                                   rows := [PAID_ROW.(state := Paying), FAILED_ROW], out := [{7}, {}])
  {
    hide Led;
    HalfPlanned();
    s := Next(Shared(HALF_PLANNED, Nobody, None, false), Admit);
    assert PlannedRows(HALF_PLANNED.rows) == {0} && PaidBy(HALF_PLANNED.rows, 7) == {0};
    s := Next(s, Exec(IntendRun(7)));
    s := Next(s, Exec(IntendRow(0, 0)));
    assert s.run.rows == [PAID_ROW.(state := Paying), FAILED_ROW] && s.run.todo == {};
    SentForFirst();
    s := Next(s, Exec(Send(Accepted)));
  }

  /** The first is paid, and the run goes back to be planned for the second. */
  lemma HalfPaid()
    ensures Led(Shared(HALF_PAID, Nobody, None, false))
  {
    hide Led;
    var s := HalfSent();
    s := Next(s, Exec(MarkPaid(0)));
    assert s.run.rows == HALF_PAID.rows;
    s := Next(s, Exec(Reopen));
    s := Next(s, Exec(Leave));
    assert s.run == HALF_PAID;
  }

  /** The run is handed to the wallets with both holders on the list, and the wallet pays: the
      first is paid again. */
  lemma HandedOverPaysTwice() returns (s: Shared)
    ensures Led(s) && s.payment.Some? && s.payment.value.released && !PaysOnce(s)
  {
    hide Led;
    HalfPaid();
    s := Shared(HALF_PAID, Nobody, None, false);
    assert 0 in Listed(s.run.rows, {0, 1});
    s := Next(s, Hand({0, 1}));
    s := Next(s, Relist(0));
    s := Next(s, Relist(1));
    s := Next(s, HandRun);
    s := Next(s, Refer(9));
    s := Next(s, Release);
    assert MayPay(s, 0, OnChain(7)) && MayPay(s, 0, ToWallet(9));
  }
}
