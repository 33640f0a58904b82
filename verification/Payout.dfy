/** Paying a distribution in one transaction: the run and its rows as a state machine, one
    event per store write, and which transactions may have paid each row. */
module Payout {
  import opened Prelude
  import opened Chain

  datatype RowState = Pending | Planned | Paying | Paid | Failed | Skipped | NoPayment | Returned

  datatype PayRow = PayRow(state: RowState, net: nat, script: Script, txid: Option<Txid>, vout: Option<nat>)

  datatype RunState = Snapshotted | InPayment | Complete

  /** Landed is a refusal the chain contradicts: one of the outputs is still unspent. */
  datatype Answer = Accepted | Landed | Refused | Unreached

  /** A distribution run. out lists, row by row, the transactions that pay the row and may have
      been broadcast; carried is the rows the recorded payout pays. todo, answer and mine are
      what the request being served still knows: the rows it has yet to mark, what the node
      said, and whether it recorded the payout itself. */
  datatype Run = Run(
    state: RunState, payout: Option<Txid>, rows: seq<PayRow>, out: seq<set<Txid>>, carried: set<nat>,
    todo: set<nat>, answer: Option<Answer>, mine: bool)

  predicate Good(a: Option<Answer>) {
    a == Some(Accepted) || a == Some(Landed)
  }

  predicate Terminal(s: RowState) {
    s == Paid || s == Skipped || s == NoPayment
  }

  datatype Event =
    | Crash
    | Leave
    | PlanRow(at: nat, to: RowState, script: Script)
    | IntendRun(txid: Txid)
    | IntendRow(at: nat, vout: nat)
    | Send(answer: Answer)
    | MarkPaid(at: nat)
    | Reopen
    | Finish
    | RollBackRun
    | RollBackRow(at: nat)

  function PlannedRows(rows: seq<PayRow>): set<nat> {
    set i | 0 <= i < |rows| && rows[i].state == Planned
  }

  /** The rows this transaction pays: those planned, and any still marked from an earlier
      intent to send that same transaction. */
  function PaidBy(rows: seq<PayRow>, txid: Txid): set<nat> {
    set i | 0 <= i < |rows| && (rows[i].state == Planned || (rows[i].state == Paying && rows[i].txid == Some(txid)))
  }

  predicate Enabled(r: Run, e: Event) {
    match e
    case Crash => true
    case Leave => r.todo == {}
    case PlanRow(i, to, _) =>
      && r.state == Snapshotted && i < |r.rows| && (r.rows[i].state == Pending || r.rows[i].state == Failed)
      && (to == Planned || to == Failed || to == Skipped || to == NoPayment)
    case IntendRun(_) => r.state == Snapshotted && PlannedRows(r.rows) != {}
    case IntendRow(i, _) => r.payout.Some? && i in r.todo && i < |r.rows|
    case Send(_) => r.state == InPayment && r.payout.Some? && r.todo == {} && r.answer == None
    case MarkPaid(i) => r.state == InPayment && Good(r.answer) && i < |r.rows| && r.rows[i].state == Paying
    case Reopen => r.state == InPayment && Good(r.answer) && NonePaying(r.rows)
    case Finish => r.state == InPayment && Good(r.answer) && NonePaying(r.rows)
    case RollBackRun => r.state == InPayment && r.mine && r.todo == {} && r.answer == Some(Refused)
    case RollBackRow(i) => r.state == Snapshotted && i < |r.rows| && r.rows[i].state == Paying
  }

  predicate NonePaying(rows: seq<PayRow>) {
    forall i :: 0 <= i < |rows| ==> rows[i].state != Paying
  }

  /** The payout joins what may have been broadcast for the rows it carries. */
  function Sent(out: seq<set<Txid>>, carried: set<nat>, txid: Txid): (r: seq<set<Txid>>)
    ensures |r| == |out|
    ensures forall i :: 0 <= i < |out| ==> r[i] == if i in carried then out[i] + {txid} else out[i]
  {
    seq(|out|, i requires 0 <= i < |out| => if i in carried then out[i] + {txid} else out[i])
  }

  function After(r: Run, e: Event): Run
    requires Enabled(r, e)
  {
    match e
    case Crash => r.(todo := {}, answer := None, mine := false)
    case Leave => r.(todo := {}, answer := None, mine := false)
    case PlanRow(i, to, script) => r.(rows := r.rows[i := r.rows[i].(state := to, script := script)])
    case IntendRun(txid) =>
      r.(state := InPayment, payout := Some(txid), carried := PaidBy(r.rows, txid), todo := PlannedRows(r.rows),
         answer := None, mine := true)
    case IntendRow(i, vout) =>
      r.(rows := r.rows[i := r.rows[i].(state := Paying, txid := r.payout, vout := Some(vout))], todo := r.todo - {i})
    case Send(a) =>
      r.(answer := Some(a), out := if a == Refused then r.out else Sent(r.out, r.carried, r.payout.value))
    case MarkPaid(i) => r.(rows := r.rows[i := r.rows[i].(state := Paid)])
    case Reopen => r.(state := Snapshotted, payout := None, carried := {}, answer := None)
    case Finish => r.(state := Complete, answer := None)
    case RollBackRun => r.(state := Snapshotted, payout := None, carried := {}, answer := None, mine := false)
    case RollBackRow(i) => r.(rows := r.rows[i := r.rows[i].(state := Planned, txid := None, vout := None)])
  }

  // ---- the invariant ----

  /** Row i was marked for the recorded payout. */
  predicate Marked(r: Run, i: nat)
    requires i < |r.rows|
  {
    r.rows[i].txid == r.payout && (r.rows[i].state == Paying || r.rows[i].state == Paid)
  }

  /** What may have been broadcast for row i: nothing, or the one transaction its row names,
      which has paid it or is the payout being sent. */
  predicate OutOnce(r: Run, i: nat)
    requires i < |r.rows| == |r.out|
  {
    || r.out[i] == {}
    || (r.rows[i].txid.Some? && r.out[i] == {r.rows[i].txid.value}
        && (r.rows[i].state == Paid || (r.rows[i].state == Paying && i in r.carried && r.rows[i].txid == r.payout)))
  }

  ghost predicate Inv(r: Run) {
    && |r.out| == |r.rows|
    && (r.state == InPayment ==> r.payout.Some?)
    && (r.state == Snapshotted ==> r.payout == None)
    && (r.payout == None ==> r.carried == {})
    && r.todo <= r.carried
    && (r.todo != {} ==> r.state == InPayment && r.answer == None && r.mine)
    && (r.answer.Some? ==> r.payout.Some?)
    && (r.state == Complete ==> NonePaying(r.rows))
    && (forall i :: i in r.todo ==> i < |r.rows| && r.rows[i].state == Planned)
    && (r.state == InPayment ==> PlannedRows(r.rows) <= r.todo)
    && (forall i :: i in r.carried ==> i < |r.rows| && (i in r.todo || Marked(r, i)))
    && (r.payout.Some? ==>
          forall i :: 0 <= i < |r.rows| && r.rows[i].state == Paying && r.rows[i].txid == r.payout ==> i in r.carried)
    && (forall i :: 0 <= i < |r.rows| ==> OutOnce(r, i))
    && (r.mine && (r.answer == None || r.answer == Some(Refused)) && r.state == InPayment ==>
          forall i :: i in r.carried && i < |r.out| ==> r.out[i] == {})
    && (Good(r.answer) ==> forall i :: i in r.carried && i < |r.out| ==> r.out[i] == {r.payout.value})
  }

  /** The run is recorded as paying before its rows are: a stop in between loses which rows the
      payout pays. */
  predicate Careful(r: Run, e: Event) {
    e.Crash? ==> r.todo == {}
  }

  lemma RowEventKeeps(r: Run, e: Event)
    requires Inv(r) && Enabled(r, e) && (e.PlanRow? || e.IntendRow? || e.MarkPaid? || e.RollBackRow?)
    ensures Inv(After(r, e))
  {
    var r' := After(r, e);
    forall i | 0 <= i < |r.rows| ensures OutOnce(r', i) {
      assert OutOnce(r, i);
    }
    assert forall i :: 0 <= i < |r.rows| && i != e.at ==> r'.rows[i] == r.rows[i];
  }

  lemma RunEventKeeps(r: Run, e: Event)
    requires Inv(r) && Enabled(r, e)
    requires e.IntendRun? || e.Send? || e.Reopen? || e.Finish? || e.RollBackRun? || e.Leave?
    ensures Inv(After(r, e))
  {
    var r' := After(r, e);
    forall i | 0 <= i < |r.rows| ensures OutOnce(r', i) {
      assert OutOnce(r, i);
    }
    if e.IntendRun? {
      forall i | i in PaidBy(r.rows, e.txid) ensures r.out[i] == {} {
        assert OutOnce(r, i);
      }
    } else if e.Send? && e.answer != Refused {
      forall i | i in r.carried ensures r'.out[i] == {r.payout.value} {
        assert OutOnce(r, i) && Marked(r, i);
      }
    }
  }

  lemma CrashKeepsIff(r: Run)
    requires Inv(r)
    ensures Inv(After(r, Crash)) <==> r.todo == {}
  {
    var r' := After(r, Crash);
    forall i | 0 <= i < |r.rows| ensures OutOnce(r', i) {
      assert OutOnce(r, i);
    }
    if r.todo != {} {
      var i :| i in r.todo;
      assert i in r'.carried && r'.rows[i].state == Planned;
    }
  }

  /** A run in payment has no row still planned. */
  predicate IntentWhole(r: Run) {
    r.state == InPayment ==> PlannedRows(r.rows) == {}
  }

  /** After a stop, whether it fell inside an intent can be read from the store. */
  lemma StopKeepsIff(r: Run)
    requires Inv(r)
    ensures Inv(After(r, Crash)) <==> IntentWhole(After(r, Crash))
  {
    CrashKeepsIff(r);
    if r.todo != {} {
      var i :| i in r.todo;
      assert i in PlannedRows(After(r, Crash).rows);
    }
  }

  /** An event keeps the invariant if and only if it is not a stop inside an intent. */
  lemma EventKeepsIff(r: Run, e: Event)
    requires Inv(r) && Enabled(r, e)
    ensures Inv(After(r, e)) <==> Careful(r, e)
  {
    if e.Crash? {
      CrashKeepsIff(r);
    } else if e.PlanRow? || e.IntendRow? || e.MarkPaid? || e.RollBackRow? {
      RowEventKeeps(r, e);
    } else {
      RunEventKeeps(r, e);
    }
  }

  // ---- every run ----

  ghost predicate Trace(rs: seq<Run>, es: seq<Event>) {
    && |rs| == |es| + 1
    && forall k :: 0 <= k < |es| ==> Enabled(rs[k], es[k]) && rs[k + 1] == After(rs[k], es[k])
  }

  /** These events, from a register just snapshotted, lead to this run. */
  ghost predicate Leads(es: seq<Event>, r: Run) {
    exists rs :: Trace(rs, es) && Start(rs[0]) && rs[|es|] == r
  }

  lemma LeadsIntending(es: seq<Event>, r: Run)
    requires Leads(es, r)
    ensures Intending(r) && (r.state == InPayment ==> r.payout.Some?)
  {
    var rs :| Trace(rs, es) && Start(rs[0]) && rs[|es|] == r;
    IntendingAlong(rs, es, |es|);
    PayoutRecorded(rs, es, |es|);
  }

  lemma LeadsOn(es: seq<Event>, r: Run, e: Event)
    requires Leads(es, r) && Enabled(r, e)
    ensures Leads(es + [e], After(r, e))
  {
    var rs :| Trace(rs, es) && Start(rs[0]) && rs[|es|] == r;
    var more, all := rs + [After(r, e)], es + [e];
    assert Trace(more, all) && more[|all|] == After(r, e);
  }

  /** A register just snapshotted: nothing planned, nothing paid. */
  predicate Start(r: Run) {
    && r.state == Snapshotted && r.payout == None && r.carried == {} && r.todo == {} && r.answer == None && !r.mine
    && |r.out| == |r.rows|
    && forall i :: 0 <= i < |r.rows| ==>
         r.rows[i].state == Pending && r.rows[i].txid == None && r.out[i] == {}
  }

  /** Every intent is recorded whole: no stop falls between the run's write and the last row's. */
  ghost predicate WholeIntents(rs: seq<Run>, es: seq<Event>)
    requires |rs| == |es| + 1
  {
    forall k :: 0 <= k < |es| ==> Careful(rs[k], es[k])
  }

  lemma {:induction false} InvAlong(rs: seq<Run>, es: seq<Event>, k: nat)
    requires Trace(rs, es) && Start(rs[0]) && WholeIntents(rs, es) && k <= |es|
    ensures Inv(rs[k])
  {
    if k > 0 {
      InvAlong(rs, es, k - 1);
      EventKeepsIff(rs[k - 1], es[k - 1]);
    }
  }

  /** A run in payment always has its payout on record, wherever it was stopped. */
  lemma {:induction false} PayoutRecorded(rs: seq<Run>, es: seq<Event>, k: nat)
    requires Trace(rs, es) && Start(rs[0]) && k <= |es|
    ensures rs[k].state == InPayment ==> rs[k].payout.Some?
  {
    if k > 0 { PayoutRecorded(rs, es, k - 1); }
  }

  /** No row is ever in two transactions that may have been broadcast. */
  predicate PaysOnce(r: Run) {
    forall i, t, u :: 0 <= i < |r.out| && t in r.out[i] && u in r.out[i] ==> t == u
  }

  lemma InvPaysOnce(r: Run)
    requires Inv(r)
    ensures PaysOnce(r)
  {
    forall i, t, u | 0 <= i < |r.out| && t in r.out[i] && u in r.out[i] ensures t == u {
      assert OutOnce(r, i);
    }
  }

  /** What one run of writes keeps: paid rows; the invariant, unless it stopped inside an
      intent, as the rows then tell; and, if it is pure, that what is recorded paid was. */
  ghost predicate Sturdy(r: Run, r': Run, alive: bool, pure: bool) {
    && PaidKept(r.rows, r'.rows)
    && (Inv(r) ==> if alive then Inv(r') else Inv(r') <==> IntentWhole(r'))
    && (pure && Inv(r) && Truthful(r) ==> Truthful(r'))
  }

  lemma SturdyOn(a: Run, b: Run, c: Run, alive: bool, pure: bool, pure': bool)
    requires Sturdy(a, b, true, pure) && Sturdy(b, c, alive, pure')
    ensures Sturdy(a, c, alive, pure && pure')
  {
  }

  lemma SturdyStep(r: Run, e: Event)
    requires Intending(r) && Enabled(r, e)
    ensures Sturdy(r, After(r, e), !e.Crash?, !Mixes(r, e))
  {
    EventKeepsPaid(r, e);
    if Inv(r) {
      EventKeepsIff(r, e);
      StopKeepsIff(r);
      if Truthful(r) { EventKeepsTrueIff(r, e); }
    }
  }

  /** Over any number of plans, payouts, retries, refusals and nodes not reached, with stops
      anywhere but inside an intent, no row is paid twice. */
  lemma EveryRunPaysOnce(rs: seq<Run>, es: seq<Event>, k: nat)
    requires Trace(rs, es) && Start(rs[0]) && WholeIntents(rs, es) && k <= |es|
    ensures PaysOnce(rs[k])
  {
    InvAlong(rs, es, k);
    InvPaysOnce(rs[k]);
  }

  /** Every row paid stays as it is. */
  predicate PaidKept(rows: seq<PayRow>, rows': seq<PayRow>) {
    |rows| == |rows'| && forall i :: 0 <= i < |rows| && rows[i].state == Paid ==> rows'[i] == rows[i]
  }

  /** What an intent being recorded has still to mark is planned, and nothing is sent meanwhile. */
  predicate Intending(r: Run) {
    && (forall i :: i in r.todo ==> i < |r.rows| && r.rows[i].state == Planned)
    && (r.todo != {} ==> r.answer == None && r.state == InPayment)
  }

  lemma EventKeepsPaid(r: Run, e: Event)
    requires Intending(r) && Enabled(r, e)
    ensures Intending(After(r, e)) && PaidKept(r.rows, After(r, e).rows)
  {
  }

  lemma {:induction false} IntendingAlong(rs: seq<Run>, es: seq<Event>, k: nat)
    requires Trace(rs, es) && Start(rs[0]) && k <= |es|
    ensures Intending(rs[k])
  {
    if k > 0 {
      IntendingAlong(rs, es, k - 1);
      EventKeepsPaid(rs[k - 1], es[k - 1]);
    }
  }

  /** A paid row stays as it is in every run whatsoever, stops inside intents included. */
  lemma {:induction false} PaidStays(rs: seq<Run>, es: seq<Event>, j: nat, k: nat)
    requires Trace(rs, es) && Start(rs[0]) && j <= k <= |es|
    ensures PaidKept(rs[j].rows, rs[k].rows)
  {
    if j < k {
      PaidStays(rs, es, j, k - 1);
      IntendingAlong(rs, es, k - 1);
      EventKeepsPaid(rs[k - 1], es[k - 1]);
    }
  }

  // ---- whether what is recorded paid was paid ----

  /** For every row recorded paid, a transaction paying it may have been broadcast. */
  predicate Honest(r: Run) {
    forall i :: 0 <= i < |r.rows| && i < |r.out| && r.rows[i].state == Paid ==> r.out[i] != {}
  }

  /** Every row being paid names this transaction. */
  predicate AllName(rows: seq<PayRow>, txid: Option<Txid>) {
    forall i :: 0 <= i < |rows| && rows[i].state == Paying ==> rows[i].txid == txid
  }

  /** What is recorded paid was, and what a run in payment is about to mark is the payout's. */
  predicate Truthful(r: Run) {
    Honest(r) && (r.state == InPayment ==> AllName(r.rows, r.payout))
  }

  /** A payout is recorded while some row is being paid by another transaction. */
  predicate Mixes(r: Run, e: Event) {
    e.IntendRun? && !AllName(r.rows, Some(e.txid))
  }

  /** Marking a row paid tells the truth if and only if the row names the recorded payout. */
  lemma MarkIsTrueIff(r: Run, i: nat)
    requires Inv(r) && Enabled(r, MarkPaid(i))
    ensures After(r, MarkPaid(i)).out[i] != {} <==> r.rows[i].txid == r.payout
  {
    assert OutOnce(r, i);
  }

  /** Any event keeps the record true, stops included, but for a payout recorded while some row
      is being paid by another transaction. */
  lemma EventKeepsTrueIff(r: Run, e: Event)
    requires Inv(r) && Truthful(r) && Enabled(r, e)
    ensures Truthful(After(r, e)) <==> !Mixes(r, e)
  {
    var r' := After(r, e);
    if e.MarkPaid? {
      MarkIsTrueIff(r, e.at);
    } else if e.IntendRun? {
      assert r'.rows == r.rows;
    }
  }

  /** No payout is recorded while a row is being paid by another transaction. */
  ghost predicate NeverMixes(rs: seq<Run>, es: seq<Event>)
    requires |rs| == |es| + 1
  {
    forall k :: 0 <= k < |es| ==> !Mixes(rs[k], es[k])
  }

  /** A rollback, once its run is set back, goes on until every row is. */
  ghost predicate WholeRollbacks(rs: seq<Run>, es: seq<Event>)
    requires |rs| == |es| + 1
  {
    forall k :: 0 <= k < |es| && rs[k].state == Snapshotted && !NonePaying(rs[k].rows) ==> es[k].RollBackRow?
  }

  lemma WholeRollbacksNeverMix(rs: seq<Run>, es: seq<Event>)
    requires Trace(rs, es) && WholeRollbacks(rs, es)
    ensures NeverMixes(rs, es)
  {
    forall k | 0 <= k < |es| ensures !Mixes(rs[k], es[k]) {
      assert Enabled(rs[k], es[k]);
    }
  }

  /** In every run with whole intents that never mixes two payouts, every row recorded paid has
      been paid, and by one transaction only; so it is in every run with whole rollbacks. */
  lemma {:induction false} EveryPaidRowWasPaid(rs: seq<Run>, es: seq<Event>, k: nat)
    requires Trace(rs, es) && Start(rs[0]) && WholeIntents(rs, es) && k <= |es|
    requires NeverMixes(rs, es) || WholeRollbacks(rs, es)
    ensures Truthful(rs[k]) && PaysOnce(rs[k])
  {
    EveryRunPaysOnce(rs, es, k);
    if !NeverMixes(rs, es) { WholeRollbacksNeverMix(rs, es); }
    if k > 0 {
      EveryPaidRowWasPaid(rs, es, k - 1);
      InvAlong(rs, es, k - 1);
      EventKeepsTrueIff(rs[k - 1], es[k - 1]);
    }
  }

  // ---- what a stop in the wrong place does ----

  const FRESH_ROW := PayRow(Pending, 100, 5, None, None)
  const FRESH_RUN := Run(Snapshotted, None, [FRESH_ROW], [{}], {}, {}, None, false)

  ghost predicate Reachable(r: Run) {
    exists rs, es :: Trace(rs, es) && Start(rs[0]) && rs[|es|] == r
  }

  lemma Then(r: Run, e: Event) returns (r': Run)
    requires Reachable(r) && Enabled(r, e)
    ensures r' == After(r, e) && Reachable(r')
  {
    var rs, es :| Trace(rs, es) && Start(rs[0]) && rs[|es|] == r;
    r' := After(r, e);
    assert Trace(rs + [r'], es + [e]) && (rs + [r'])[|es + [e]|] == r';
  }

  lemma SentForOne(out: set<Txid>, txid: Txid)
    ensures Sent([out], {0}, txid) == [out + {txid}]
  {
    assert Sent([out], {0}, txid)[0] == out + {txid};
  }

  /** One holder, planned, and the run recorded as paying by transaction 7. */
  lemma Intended() returns (r: Run)
    ensures Reachable(r)
    ensures r == FRESH_RUN.(rows := [FRESH_ROW.(state := Planned)], state := InPayment, payout := Some(7),
                            carried := {0}, todo := {0}, mine := true)
  {
    assert Trace([FRESH_RUN], []) && [FRESH_RUN][0] == FRESH_RUN;
    r := Then(FRESH_RUN, PlanRow(0, Planned, 5));
    assert PlannedRows(r.rows) == {0};
    r := Then(r, IntendRun(7));
  }

  /** The process stops there; the next request sends the payout, finds no row paying, and
      leaves the run to be planned again. */
  lemma PaidUnmarked() returns (r: Run)
    ensures Reachable(r)
    ensures r == FRESH_RUN.(rows := [FRESH_ROW.(state := Planned)], out := [{7}])
  {
    hide Reachable;
    var before := Intended();
    var stopped := Then(before, Crash);
    SentForOne({}, 7);
    assert {} + {7} == {7};
    var sent := Then(stopped, Send(Accepted));
    assert sent.out == [{7}];
    r := Then(sent, Reopen);
  }

  /** A second transaction is then asked for, and pays the holder again. */
  lemma SplitIntentPaysTwice() returns (r: Run)
    ensures Reachable(r) && !PaysOnce(r)
  {
    hide Reachable;
    r := PaidUnmarked();
    assert PlannedRows(r.rows) == {0};
    r := Then(r, IntendRun(8));
    r := Then(r, IntendRow(0, 0));
    SentForOne({7}, 8);
    r := Then(r, Send(Accepted));
    assert 7 in r.out[0] && 8 in r.out[0];
  }

  const PAIR_ROW := FRESH_ROW.(state := Planned)
  const PAIR := FRESH_RUN.(rows := [PAIR_ROW, PAIR_ROW], out := [{}, {}])

  /** Two holders, planned. */
  lemma PairPlanned()
    ensures Reachable(PAIR)
  {
    var start := FRESH_RUN.(rows := [FRESH_ROW, FRESH_ROW], out := [{}, {}]);
    assert Trace([start], []) && [start][0] == start;
    var r := Then(start, PlanRow(0, Planned, 5));
    r := Then(r, PlanRow(1, Planned, 5));
    assert r == PAIR;
  }

  function InPay(txid: Txid): PayRow {
    PAIR_ROW.(state := Paying, txid := Some(txid), vout := Some(0))
  }

  /** Transaction 7 is refused, and the process stops after setting back one of the two rows. */
  lemma HalfRolledBack() returns (r: Run)
    ensures Reachable(r) && r == PAIR.(rows := [PAIR_ROW, InPay(7)])
  {
    hide Reachable;
    PairPlanned();
    assert PlannedRows(PAIR.rows) == {0, 1};
    r := Then(PAIR, IntendRun(7));
    r := Then(r, IntendRow(0, 0));
    r := Then(r, IntendRow(1, 0));
    r := Then(r, Send(Refused));
    r := Then(r, RollBackRun);
    r := Then(r, RollBackRow(0));
    r := Then(r, Crash);
  }

  /** The next payout, for the other holder alone, then marks both rows paid: one of them no
      transaction ever paid. */
  lemma RollbackCutShortRecordsAPayment() returns (r: Run)
    ensures Reachable(r) && |r.rows| == |r.out| == 2 && r.rows[1].state == Paid && r.out[1] == {}
  {
    hide Reachable;
    r := HalfRolledBack();
    assert PlannedRows(r.rows) == {0};
    r := Then(r, IntendRun(8));
    r := Then(r, IntendRow(0, 0));
    r := Then(r, Send(Accepted));
    r := Then(r, MarkPaid(1));
  }
}
