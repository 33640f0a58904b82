/** Executing a distribution: planning the payout, recording it before it is sent, sending
    the same bytes again, and booking what the node answers. */
module PayoutDesk {
  import opened Prelude
  import opened Chain
  import opened Payout
  import opened PayoutMatch

  /** What is known of a holder's registered payout address when the payout is planned. */
  datatype Mandate = NoMandate | CheckFailed | OwnEnclave | Unreadable | PayTo(script: Script)

  datatype Sent = Taken | No | NotReached

  /** What the node answers to the bytes, and whether an output is still unspent. */
  datatype Node = Node(sent: Sent, unspent: (Txid, nat) -> bool)

  /** The signed transaction the issuer sends back, and whether the node would take it. */
  datatype Signed = Signed(txid: Txid, outs: seq<TxOut>, acceptable: bool)

  function Planning(row: PayRow, m: Mandate): PayRow {
    if row.state != Pending && row.state != Failed then row
    else if row.net == 0 then row.(state := NoPayment)
    else match m
         case NoMandate => row.(state := Skipped)
         case CheckFailed => row.(state := Failed)
         case OwnEnclave => row.(state := Skipped)
         case Unreadable => row.(state := Failed)
         case PayTo(script) => row.(state := Planned, script := script)
  }

  /** The rows once the first k have been planned. */
  function PlanUpTo(rows: seq<PayRow>, mandates: nat -> Mandate, k: nat): (r: seq<PayRow>)
    ensures |r| == |rows|
  {
    seq(|rows|, i requires 0 <= i < |rows| => if i < k then Planning(rows[i], mandates(i)) else rows[i])
  }

  lemma PlanStep(rows: seq<PayRow>, mandates: nat -> Mandate, k: nat)
    requires k < |rows|
    ensures PlanUpTo(rows, mandates, k)[k] == rows[k]
    ensures PlanUpTo(rows, mandates, k + 1) == PlanUpTo(rows, mandates, k)[k := Planning(rows[k], mandates(k))]
  {
  }

  /** An output of the payout, still unspent, says it is on chain. */
  predicate SeenOnChain(r: Run, node: Node) {
    exists i :: 0 <= i < |r.rows| && SeenAt(r, node, i)
  }

  predicate SeenAt(r: Run, node: Node, i: nat)
    requires i < |r.rows|
  {
    var row := r.rows[i];
    row.state == Paying && row.vout.Some? && r.payout.Some? && node.unspent(r.payout.value, row.vout.value)
  }

  function AnswerOf(r: Run, node: Node): Answer {
    if node.sent == Taken then Accepted
    else if SeenOnChain(r, node) then Landed
    else if node.sent == No then Refused
    else Unreached
  }

  function PaidUpTo(rows: seq<PayRow>, k: nat): (r: seq<PayRow>)
    ensures |r| == |rows|
  {
    seq(|rows|, i requires 0 <= i < |rows| =>
      if i < k && rows[i].state == Paying then rows[i].(state := Paid) else rows[i])
  }

  lemma PaidStep(rows: seq<PayRow>, k: nat)
    requires k < |rows|
    ensures PaidUpTo(rows, k)[k] == rows[k]
    ensures PaidUpTo(rows, k + 1)
            == if rows[k].state == Paying then PaidUpTo(rows, k)[k := rows[k].(state := Paid)] else PaidUpTo(rows, k)
  {
  }

  lemma PaidAll(rows: seq<PayRow>)
    ensures PaidUpTo(rows, 0) == rows && NonePaying(PaidUpTo(rows, |rows|))
  {
  }

  predicate AllTerminal(rows: seq<PayRow>) {
    forall i :: 0 <= i < |rows| ==> Terminal(rows[i].state)
  }

  /** The run once the node has its payout: every row being paid is paid, and the run is
      complete, or goes back to be planned for the rest. */
  function Settled(r: Run): Run {
    var rows := PaidUpTo(r.rows, |r.rows|);
    if AllTerminal(rows) then r.(rows := rows, state := Complete, answer := None)
    else r.(rows := rows, state := Snapshotted, payout := None, carried := {}, answer := None)
  }

  /** The run as the node answers. */
  function Told(r: Run, a: Answer): Run
    requires r.payout.Some?
  {
    r.(answer := Some(a), out := if a == Refused then r.out else Payout.Sent(r.out, r.carried, r.payout.value))
  }

  // ---- what these come to, row by row ----

  /** A plan touches only rows pending or failed. One with nothing to pay is done with; one whose
      address is unknown or is the holder's own enclave's is skipped; one whose address could not be
      checked or read fails, to be planned again; and any other is planned, to that address. */
  lemma PlanIs(rows: seq<PayRow>, mandates: nat -> Mandate, i: nat)
    requires i < |rows|
    ensures var before, after := rows[i], PlanUpTo(rows, mandates, |rows|)[i];
            var open := before.state == Pending || before.state == Failed;
            && after.net == before.net && after.txid == before.txid && after.vout == before.vout
            && (!open ==> after == before)
            && (open ==>
                  && (after.state == NoPayment <==> before.net == 0)
                  && (after.state == Skipped <==> before.net > 0 && (mandates(i) == NoMandate || mandates(i) == OwnEnclave))
                  && (after.state == Failed <==> before.net > 0 && (mandates(i) == CheckFailed || mandates(i) == Unreadable))
                  && (after.state == Planned <==> before.net > 0 && mandates(i).PayTo?)
                  && after.script == if before.net > 0 && mandates(i).PayTo? then mandates(i).script else before.script)
  {
    assert PlanUpTo(rows, mandates, |rows|)[i] == Planning(rows[i], mandates(i));
  }

  /** A payout sent counts as taken when the node takes it; else as landed when an output of it that
      pays a row still being paid is unspent; else as refused only if the node said so. */
  lemma AnswerIs(r: Run, node: Node)
    requires r.payout.Some?
    ensures var seen := exists i :: 0 <= i < |r.rows| && r.rows[i].state == Paying && r.rows[i].vout.Some?
                                    && node.unspent(r.payout.value, r.rows[i].vout.value);
            AnswerOf(r, node) == if node.sent == Taken then Accepted else if seen then Landed
                                 else if node.sent == No then Refused else Unreached
  {
    if i: nat :| i < |r.rows| && r.rows[i].state == Paying && r.rows[i].vout.Some?
                 && node.unspent(r.payout.value, r.rows[i].vout.value)
    {
      assert SeenAt(r, node, i);
    }
  }

  /** Once the node has the payout every row being paid is paid and no other changes; the run is
      complete if and only if every row is then paid, skipped or without payment, and is else back
      to be planned, with no payout recorded. */
  lemma SettledIs(r: Run)
    ensures var after := Settled(r);
            && |after.rows| == |r.rows|
            && (forall i :: 0 <= i < |r.rows| ==>
                  after.rows[i] == if r.rows[i].state == Paying then r.rows[i].(state := Paid) else r.rows[i])
            && (if forall i :: 0 <= i < |r.rows| ==>
                     r.rows[i].state == Paying || r.rows[i].state == Paid || r.rows[i].state == Skipped
                         || r.rows[i].state == NoPayment
                then after.state == Complete && after.payout == r.payout
                else after.state == Snapshotted && after.payout == None)
  {
    var rows := PaidUpTo(r.rows, |r.rows|);
    assert AllTerminal(rows) <==> forall i :: 0 <= i < |r.rows| ==>
             r.rows[i].state == Paying || r.rows[i].state == Paid || r.rows[i].state == Skipped
                 || r.rows[i].state == NoPayment by {
      forall i | 0 <= i < |rows| ensures rows[i] == if r.rows[i].state == Paying then r.rows[i].(state := Paid) else r.rows[i] {
      }
    }
  }

  // ---- rows marked, and set back ----

  /** Positions of rows, each once and in order. */
  predicate Positions(at: seq<nat>, n: nat) {
    && (forall k :: 0 <= k < |at| ==> at[k] < n)
    && (forall j, k :: 0 <= j < k < |at| ==> at[j] < at[k])
  }

  /** The rows once the first k listed are marked as paid by an output of the payout. */
  function IntendUpTo(rows: seq<PayRow>, txid: Txid, at: seq<nat>, vouts: seq<nat>, k: nat): (r: seq<PayRow>)
    requires k <= |at| == |vouts| && Positions(at, |rows|)
    ensures |r| == |rows|
  {
    if k == 0 then rows
    else
      var before := IntendUpTo(rows, txid, at, vouts, k - 1);
      before[at[k - 1] := before[at[k - 1]].(state := Paying, txid := Some(txid), vout := Some(vouts[k - 1]))]
  }

  function BackUpTo(rows: seq<PayRow>, at: seq<nat>, k: nat): (r: seq<PayRow>)
    requires k <= |at| && Positions(at, |rows|)
    ensures |r| == |rows|
  {
    if k == 0 then rows
    else
      var before := BackUpTo(rows, at, k - 1);
      before[at[k - 1] := before[at[k - 1]].(state := Planned, txid := None, vout := None)]
  }

  /** Marking touches exactly the rows listed, each with its own output. */
  lemma {:induction false} IntendedAre(rows: seq<PayRow>, txid: Txid, at: seq<nat>, vouts: seq<nat>, k: nat)
    requires k <= |at| == |vouts| && Positions(at, |rows|)
    ensures var r := IntendUpTo(rows, txid, at, vouts, k);
            && (forall j :: 0 <= j < k ==>
                  r[at[j]] == rows[at[j]].(state := Paying, txid := Some(txid), vout := Some(vouts[j])))
            && (forall i :: 0 <= i < |rows| && i !in at[..k] ==> r[i] == rows[i])
  {
    if k > 0 {
      IntendedAre(rows, txid, at, vouts, k - 1);
      assert at[..k] == at[..k - 1] + [at[k - 1]];
      assert at[k - 1] !in at[..k - 1];
    }
  }

  lemma {:induction false} BackAre(rows: seq<PayRow>, at: seq<nat>, k: nat)
    requires k <= |at| && Positions(at, |rows|)
    ensures var r := BackUpTo(rows, at, k);
            && (forall j :: 0 <= j < k ==> r[at[j]] == rows[at[j]].(state := Planned, txid := None, vout := None))
            && (forall i :: 0 <= i < |rows| && i !in at[..k] ==> r[i] == rows[i])
  {
    if k > 0 {
      BackAre(rows, at, k - 1);
      assert at[..k] == at[..k - 1] + [at[k - 1]];
      assert at[k - 1] !in at[..k - 1];
    }
  }

  lemma IntendStep(rows: seq<PayRow>, txid: Txid, at: seq<nat>, vouts: seq<nat>, k: nat)
    requires k < |at| == |vouts| && Positions(at, |rows|)
    ensures var before := IntendUpTo(rows, txid, at, vouts, k);
            IntendUpTo(rows, txid, at, vouts, k + 1)
            == before[at[k] := before[at[k]].(state := Paying, txid := Some(txid), vout := Some(vouts[k]))]
  {
  }

  /** A refused payout leaves the rows exactly as they were. */
  lemma RefusalRestores(rows: seq<PayRow>, txid: Txid, at: seq<nat>, vouts: seq<nat>)
    requires |at| == |vouts| && Positions(at, |rows|)
    requires forall k :: 0 <= k < |at| ==>
               rows[at[k]].state == Planned && rows[at[k]].txid == None && rows[at[k]].vout == None
    ensures BackUpTo(IntendUpTo(rows, txid, at, vouts, |at|), at, |at|) == rows
  {
    var marked := IntendUpTo(rows, txid, at, vouts, |at|);
    IntendedAre(rows, txid, at, vouts, |at|);
    BackAre(marked, at, |at|);
    assert at[..|at|] == at;
    forall i | 0 <= i < |rows| ensures BackUpTo(marked, at, |at|)[i] == rows[i] {
      if i in at {
        var k :| 0 <= k < |at| && at[k] == i;
      }
    }
  }

  /** The planned rows, in order. */
  function PlannedList(rows: seq<PayRow>, k: nat): (r: seq<nat>)
    requires k <= |rows|
    ensures forall i :: i in r <==> i < k && i in PlannedRows(rows)
    ensures Positions(r, k)
  {
    if k == 0 then []
    else PlannedList(rows, k - 1) + (if rows[k - 1].state == Planned then [k - 1] else [])
  }

  /** What each of these rows is promised. */
  function Promises(rows: seq<PayRow>, at: seq<nat>): (r: seq<Promise>)
    requires forall k :: 0 <= k < |at| ==> at[k] < |rows|
    ensures |r| == |at|
    ensures forall k :: 0 <= k < |r| ==> r[k] == Promise(rows[at[k]].script, rows[at[k]].net)
  {
    seq(|at|, k requires 0 <= k < |at| => Promise(rows[at[k]].script, rows[at[k]].net))
  }

  /** The run with the payout and its rows recorded. */
  function Recorded(r: Run, txid: Txid, at: seq<nat>, vouts: seq<nat>): Run
    requires |at| == |vouts| && Positions(at, |r.rows|)
  {
    Run(InPayment, Some(txid), IntendUpTo(r.rows, txid, at, vouts, |at|), r.out, PaidBy(r.rows, txid), {}, None, true)
  }

  /** The run after a refusal. */
  function Refunded(r: Run, at: seq<nat>): Run
    requires Positions(at, |r.rows|)
  {
    r.(state := Snapshotted, payout := None, rows := BackUpTo(r.rows, at, |at|), carried := {}, answer := None, mine := false)
  }

  ghost predicate Payable(outs: seq<TxOut>, asset: Asset, promises: seq<Promise>) {
    AllHaveScripts(promises) && exists at :: Assigns(outs, asset, promises, at)
  }

  /** What a signed transaction does to the run: nothing unless it pays every planned row
      exactly; else it is recorded and sent, and only a refusal takes it back. */
  ghost predicate PaidWith(r: Run, signed: Signed, asset: Asset, node: Node, sent: Option<Answer>, r': Run) {
    var at := PlannedList(r.rows, |r.rows|);
    if at == [] || !signed.acceptable || !Payable(signed.outs, asset, Promises(r.rows, at)) then sent == None && r' == r
    else exists vouts ::
           Assigns(signed.outs, asset, Promises(r.rows, at), vouts) && SentWith(r, signed.txid, at, vouts, node, sent, r')
  }

  predicate SentWith(r: Run, txid: Txid, at: seq<nat>, vouts: seq<nat>, node: Node, sent: Option<Answer>, r': Run)
    requires |at| == |vouts| && Positions(at, |r.rows|)
  {
    var i := Recorded(r, txid, at, vouts);
    var a := AnswerOf(i, node);
    && sent == Some(a)
    && r' == if Good(sent) then Settled(Told(i, a)) else if a == Refused then Refunded(Told(i, a), at) else Told(i, a)
  }

  /** What one request does: a payout already recorded is only sent again. */
  ghost predicate Executed(r: Run, signed: Option<Signed>, asset: Asset, mandates: nat -> Mandate, node: Node,
                           sent: Option<Answer>, r': Run)
    requires r.state == InPayment ==> r.payout.Some?
  {
    if r.state == InPayment then
      var a := AnswerOf(r, node);
      sent == Some(a) && r' == if Good(sent) then Settled(Told(r, a)) else Told(r, a)
    else if signed == None then sent == None && r' == r.(rows := PlanUpTo(r.rows, mandates, |r.rows|))
    else PaidWith(r, signed.value, asset, node, sent, r')
  }

  predicate Between(r: Run) {
    r.todo == {} && (r.state == InPayment ==> r.payout.Some?)
  }

  /** The run as a request finds it and leaves it. */
  predicate Idle(r: Run) {
    Between(r) && r.answer == None && !r.mine
  }

  function Closed(r: Run): Run {
    r.(todo := {}, answer := None, mine := false)
  }

  // ---- the ledger ----

  datatype Booking = Booking(atoms: nat, txid: Option<Txid>)

  /** One booking for each row being paid among the first k. */
  function Bookings(rows: seq<PayRow>, k: nat, txid: Option<Txid>): seq<Booking>
    requires k <= |rows|
  {
    if k == 0 then []
    else Bookings(rows, k - 1, txid) + (if rows[k - 1].state == Paying then [Booking(rows[k - 1].net, txid)] else [])
  }

  /** The rows being paid among the first k, in order. */
  function PayingList(rows: seq<PayRow>, k: nat): (r: seq<nat>)
    requires k <= |rows|
    ensures forall i: nat :: i in r <==> (i < k && rows[i].state == Paying)
    ensures Positions(r, k)
  {
    if k == 0 then [] else PayingList(rows, k - 1) + (if rows[k - 1].state == Paying then [k - 1] else [])
  }

  /** One booking for each row being paid, in their order, of its net amount and the payout's txid. */
  lemma {:induction false} BookingsAre(rows: seq<PayRow>, k: nat, txid: Option<Txid>)
    requires k <= |rows|
    ensures var at, booked := PayingList(rows, k), Bookings(rows, k, txid);
            |booked| == |at| && forall j :: 0 <= j < |at| ==> booked[j] == Booking(rows[at[j]].net, txid)
  {
    if k > 0 {
      BookingsAre(rows, k - 1, txid);
      var at, booked := PayingList(rows, k - 1), Bookings(rows, k - 1, txid);
      if rows[k - 1].state == Paying {
        assert PayingList(rows, k) == at + [k - 1] && Bookings(rows, k, txid) == booked + [Booking(rows[k - 1].net, txid)];
      } else {
        assert PayingList(rows, k) == at && Bookings(rows, k, txid) == booked;
      }
      hide PayingList, Bookings, Positions;
    }
  }

  /** What is recorded as paying the planned rows pays each of them: an output of its own, to its
      script, of its net amount of the paying asset, in the clear. */
  lemma RecordedPayoutPays(r: Run, signed: Signed, asset: Asset, node: Node, sent: Option<Answer>, r': Run)
    returns (vouts: seq<nat>)
    requires PaidWith(r, signed, asset, node, sent, r') && sent.Some?
    ensures var at := PlannedList(r.rows, |r.rows|);
            && |vouts| == |at| && at != [] && signed.acceptable && (forall j, k :: 0 <= j < k < |vouts| ==> vouts[j] != vouts[k])
            && (forall j :: 0 <= j < |at| ==>
                  && vouts[j] < |signed.outs|
                  && var o, row := signed.outs[vouts[j]], r.rows[at[j]];
                     o.script == row.script && o.asset == asset && o.value == Explicit(row.net)
                         && (o.nonce == [] || o.nonce == [0]))
            && (forall i :: 0 <= i < |r.rows| ==> (i in at <==> r.rows[i].state == Planned))
            && SentWith(r, signed.txid, at, vouts, node, sent, r')
  {
    hide SentWith;
    var at := PlannedList(r.rows, |r.rows|);
    vouts :| Assigns(signed.outs, asset, Promises(r.rows, at), vouts) && SentWith(r, signed.txid, at, vouts, node, sent, r');
    forall j | 0 <= j < |at| ensures Pays(signed.outs[vouts[j]], asset, Promise(r.rows[at[j]].script, r.rows[at[j]].net)) {
    }
  }

  lemma Unmoved(r: Run, pure: bool)
    ensures Sturdy(r, r, true, pure)
  {
  }

  lemma WhatSturdyMeans(r: Run, r': Run, alive: bool, pure: bool)
    requires Sturdy(r, r', alive, pure) && Idle(r')
    ensures PaidKept(r.rows, r'.rows)
    ensures pure && Inv(r) && Truthful(r) ==> Truthful(r')
    ensures Inv(r) && alive ==> Inv(r') && PaysOnce(r')
    ensures Inv(r) ==> (Inv(r') <==> IntentWhole(r'))
  {
    if Inv(r') { InvPaysOnce(r'); }
  }

  // ---- which requests keep the record true ----

  /** The transaction a request sends, if it sends one. */
  function Named(r: Run, signed: Option<Signed>): Option<Txid> {
    if r.state == InPayment then r.payout else if signed == None then None else Some(signed.value.txid)
  }

  /** A new transaction is given only while no row is being paid by another. */
  predicate Pure(r: Run, signed: Option<Signed>) {
    r.state != InPayment && signed.Some? ==> AllName(r.rows, Some(signed.value.txid))
  }

  /** Nothing is left over: rows are being paid only by the recorded payout. */
  predicate Settling(r: Run) {
    if r.state == InPayment then AllName(r.rows, r.payout) else NonePaying(r.rows)
  }

  /** Once the node has the payout, every row recorded paid was paid if and only if every row
      being paid named that payout. */
  lemma ToldHonestIff(r: Run, a: Answer)
    requires Inv(r) && r.state == InPayment && r.todo == {} && Honest(r)
    ensures a == Refused || a == Unreached ==> Honest(Told(r, a))
    ensures Good(Some(a)) ==> (Honest(Settled(Told(r, a))) <==> AllName(r.rows, r.payout))
  {
    hide AllTerminal;
    var told := Told(r, a);
    forall i | 0 <= i < |r.rows| && r.rows[i].state == Paying && a != Refused
      ensures told.out[i] != {} <==> r.rows[i].txid == r.payout
    {
      assert OutOnce(r, i);
    }
    var rows := PaidUpTo(r.rows, |r.rows|);
    forall i | 0 <= i < |rows| ensures rows[i].state == Paid <==> r.rows[i].state == Paid || r.rows[i].state == Paying {
    }
  }

  /** Recording the payout marks exactly the planned rows. */
  lemma RecordedRows(r: Run, txid: Txid, at: seq<nat>, vouts: seq<nat>)
    requires |at| == |vouts| && at == PlannedList(r.rows, |r.rows|)
    ensures var i := Recorded(r, txid, at, vouts);
            forall j :: 0 <= j < |r.rows| ==>
              if r.rows[j].state == Planned then j in at && i.rows[j].state == Paying && i.rows[j].txid == Some(txid)
              else j !in at && i.rows[j] == r.rows[j]
  {
    var i := Recorded(r, txid, at, vouts);
    IntendedAre(r.rows, txid, at, vouts, |at|);
    assert at[..|at|] == at;
    forall j | 0 <= j < |r.rows| && r.rows[j].state == Planned
      ensures j in at && i.rows[j].state == Paying && i.rows[j].txid == Some(txid)
    {
      assert j in PlannedRows(r.rows);
      var k :| 0 <= k < |at| && at[k] == j;
    }
  }

  lemma RecordedInv(r: Run, txid: Txid, at: seq<nat>, vouts: seq<nat>)
    requires Inv(r) && Between(r) && r.state == Snapshotted && |at| == |vouts| && at == PlannedList(r.rows, |r.rows|)
    ensures Inv(Recorded(r, txid, at, vouts))
  {
    hide IntendUpTo, PlannedList;
    var i := Recorded(r, txid, at, vouts);
    RecordedRows(r, txid, at, vouts);
    forall j | 0 <= j < |r.rows| ensures OutOnce(i, j) && (j in PaidBy(r.rows, txid) ==> r.out[j] == {}) {
      assert OutOnce(r, j);
    }
  }

  lemma RecordedTrue(r: Run, txid: Txid, at: seq<nat>, vouts: seq<nat>)
    requires |at| == |vouts| && at == PlannedList(r.rows, |r.rows|)
    ensures var i := Recorded(r, txid, at, vouts);
            && (Honest(i) <==> Honest(r)) && (AllName(i.rows, Some(txid)) <==> AllName(r.rows, Some(txid)))
            && (NonePaying(r.rows) ==> forall j :: 0 <= j < |r.rows| && i.rows[j].state == Paying ==> j in at)
  {
    hide IntendUpTo, PlannedList;
    RecordedRows(r, txid, at, vouts);
  }

  /** Setting rows back marks nothing as paid, and leaves none of them being paid. */
  lemma RefundedIs(r: Run, at: seq<nat>)
    requires Positions(at, |r.rows|) && Honest(r)
    ensures Honest(Refunded(r, at))
    ensures (forall j :: 0 <= j < |r.rows| && r.rows[j].state == Paying ==> j in at) ==> NonePaying(Refunded(r, at).rows)
  {
    BackAre(r.rows, at, |at|);
    assert at[..|at|] == at;
    forall j | 0 <= j < |r.rows| && j in at ensures Refunded(r, at).rows[j].state == Planned {
      var k :| 0 <= k < |at| && at[k] == j;
    }
  }

  lemma SentTrueIff(r: Run, txid: Txid, at: seq<nat>, vouts: seq<nat>, node: Node, sent: Option<Answer>, r': Run)
    requires Inv(r) && Idle(r) && r.state == Snapshotted && |at| == |vouts| && at == PlannedList(r.rows, |r.rows|)
    requires SentWith(r, txid, at, vouts, node, sent, r')
    ensures Honest(r) ==> (Honest(r') <==> (Good(sent) ==> AllName(r.rows, Some(txid))))
    ensures NonePaying(r.rows) ==> Settling(r')
  {
    hide Inv, AnswerOf, IntendUpTo, BackUpTo, Honest, Settled;
    RecordedInv(r, txid, at, vouts);
    RecordedTrue(r, txid, at, vouts);
    var i := Recorded(r, txid, at, vouts);
    var a := AnswerOf(i, node);
    if Honest(r) {
      ToldHonestIff(i, a);
      if a == Refused { RefundedIs(Told(i, a), at); }
    }
    if Good(sent) { SettledSettles(Told(i, a)); }
    else if a == Refused && NonePaying(r.rows) { RefundedSettles(Told(i, a), at); }
  }

  lemma RefundedSettles(r: Run, at: seq<nat>)
    requires Positions(at, |r.rows|)
    requires forall j :: 0 <= j < |r.rows| && r.rows[j].state == Paying ==> j in at
    ensures Settling(Refunded(r, at))
  {
    BackAre(r.rows, at, |at|);
    assert at[..|at|] == at;
    forall j | 0 <= j < |r.rows| && j in at ensures Refunded(r, at).rows[j].state == Planned {
      var k :| 0 <= k < |at| && at[k] == j;
    }
  }

  lemma SettledSettles(r: Run)
    ensures Settling(Settled(r))
  {
    PaidAll(r.rows);
  }

  /** A request keeps the record true if and only if, should the node have what it sends, every
      row being paid before it named that transaction; and a request leaves nothing over that it
      did not find. */
  lemma ExecutedTrueIff(r: Run, signed: Option<Signed>, asset: Asset, mandates: nat -> Mandate, node: Node,
                        sent: Option<Answer>, r': Run)
    requires Inv(r) && Idle(r) && r.state != Complete && Executed(r, signed, asset, mandates, node, sent, r')
    ensures Honest(r) ==> (Honest(r') <==> (Good(sent) ==> AllName(r.rows, Named(r, signed))))
    ensures Settling(r) ==> Settling(r')
  {
    hide AnswerOf, Settled, Payable, SentWith, Honest, Settling;
    if r.state == InPayment {
      InPaymentTrueIff(r, AnswerOf(r, node));
    } else if signed == None {
      PlannedTrue(r, mandates);
    } else {
      var at := PlannedList(r.rows, |r.rows|);
      if r' != r || sent != None {
        var vouts :| Assigns(signed.value.outs, asset, Promises(r.rows, at), vouts)
                     && SentWith(r, signed.value.txid, at, vouts, node, sent, r');
        SentTrueIff(r, signed.value.txid, at, vouts, node, sent, r');
        SnapshottedSettling(r);
      }
    }
  }

  lemma SnapshottedSettling(r: Run)
    requires r.state != InPayment
    ensures Settling(r) <==> NonePaying(r.rows)
  {
  }

  lemma InPaymentTrueIff(r: Run, a: Answer)
    requires Inv(r) && Idle(r) && r.state == InPayment
    ensures var r' := if Good(Some(a)) then Settled(Told(r, a)) else Told(r, a);
            && (Honest(r) ==> (Honest(r') <==> (Good(Some(a)) ==> AllName(r.rows, r.payout))))
            && (Settling(r) ==> Settling(r'))
  {
    hide Inv, Settled, Honest;
    if Honest(r) { ToldHonestIff(r, a); }
    SettledSettles(Told(r, a));
  }

  lemma PlannedTrue(r: Run, mandates: nat -> Mandate)
    ensures var r' := r.(rows := PlanUpTo(r.rows, mandates, |r.rows|));
            && (Honest(r) ==> Honest(r')) && (r.state != InPayment && Settling(r) ==> Settling(r'))
  {
    var rows := PlanUpTo(r.rows, mandates, |r.rows|);
    forall i | 0 <= i < |rows|
      ensures (rows[i].state == Paid ==> r.rows[i].state == Paid) && (rows[i].state == Paying ==> r.rows[i].state == Paying)
    {
      assert rows[i] == Planning(r.rows[i], mandates(i));
    }
  }

  /** How far a call came: the first m rows are marked if they were being paid, and all of
      those booked but perhaps the last. */
  predicate CutAt(rows: seq<PayRow>, txid: Option<Txid>, rows': seq<PayRow>, ledger: seq<Booking>, ledger': seq<Booking>,
                  k: nat, m: nat)
  {
    && k <= m <= |rows| && (m == k || (m == k + 1 && rows[k].state == Paying))
    && rows' == PaidUpTo(rows, m) && ledger' == ledger + Bookings(rows, k, txid)
  }

  ghost predicate Cut(rows: seq<PayRow>, txid: Option<Txid>, rows': seq<PayRow>, ledger: seq<Booking>, ledger': seq<Booking>) {
    exists k, m :: CutAt(rows, txid, rows', ledger, ledger', k, m)
  }

  lemma {:induction false} MarkedAreNotBooked(rows: seq<PayRow>, txid: Option<Txid>, m: nat, n: nat)
    requires n <= m <= |rows|
    ensures Bookings(PaidUpTo(rows, m), n, txid) == []
  {
    if n > 0 { MarkedAreNotBooked(rows, txid, m, n - 1); }
  }

  lemma {:induction false} RestIsBooked(rows: seq<PayRow>, txid: Option<Txid>, m: nat, n: nat)
    requires m <= n <= |rows|
    ensures Bookings(rows, m, txid) + Bookings(PaidUpTo(rows, m), n, txid) == Bookings(rows, n, txid)
  {
    if n == m {
      MarkedAreNotBooked(rows, txid, m, n);
    } else {
      RestIsBooked(rows, txid, m, n - 1);
    }
  }

  /** The call that takes up where a stopped one left off completes the ledger if and only if
      the stop did not fall between marking a row paid and booking it. */
  lemma ResumedLedgerIsCompleteIff(rows: seq<PayRow>, txid: Option<Txid>, rows': seq<PayRow>, ledger: seq<Booking>,
                                   ledger': seq<Booking>, k: nat, m: nat)
    requires CutAt(rows, txid, rows', ledger, ledger', k, m)
    ensures ledger' + Bookings(rows', |rows'|, txid) == ledger + Bookings(rows, |rows|, txid) <==> m == k
  {
    RestIsBooked(rows, txid, m, |rows|);
    OneShort(rows, txid, k, m);
    hide Bookings, PaidUpTo;
    Longer(ledger, ledger', Bookings(rows', |rows'|, txid), Bookings(rows, |rows|, txid), Bookings(rows, k, txid),
           Bookings(rows, m, txid));
  }

  lemma OneShort(rows: seq<PayRow>, txid: Option<Txid>, k: nat, m: nat)
    requires k <= m <= |rows| && (m == k || (m == k + 1 && rows[k].state == Paying))
    ensures m == k || |Bookings(rows, k, txid)| < |Bookings(rows, m, txid)|
  {
  }

  lemma Longer<T>(ledger: seq<T>, ledger': seq<T>, rest: seq<T>, all: seq<T>, done: seq<T>, due: seq<T>)
    requires ledger' == ledger + done && all == due + rest && (done == due || |done| < |due|)
    ensures ledger' + rest == ledger + all <==> done == due
  {
    assert ledger' + rest == ledger + (done + rest);
  }

  function AsSet(at: seq<nat>): set<nat> {
    set i | i in at
  }

  /** The run with the payout recorded and its first k rows marked. */
  function Marking(r: Run, txid: Txid, at: seq<nat>, vouts: seq<nat>, k: nat): Run
    requires k <= |at| == |vouts| && Positions(at, |r.rows|)
  {
    Run(InPayment, Some(txid), IntendUpTo(r.rows, txid, at, vouts, k), r.out, PaidBy(r.rows, txid), AsSet(at[k..]), None, true)
  }

  lemma MarkingStarts(r: Run, txid: Txid, at: seq<nat>, vouts: seq<nat>)
    requires r.state == Snapshotted && at != [] && |at| == |vouts| && at == PlannedList(r.rows, |r.rows|)
    ensures Enabled(r, IntendRun(txid)) && After(r, IntendRun(txid)) == Marking(r, txid, at, vouts, 0)
    ensures Marking(r, txid, at, vouts, |at|) == Recorded(r, txid, at, vouts)
  {
    assert at[0] in at && at[0..] == at && at[|at|..] == [];
    assert PlannedRows(r.rows) == AsSet(at);
  }

  lemma MarkingGoesOn(r: Run, txid: Txid, at: seq<nat>, vouts: seq<nat>, k: nat)
    requires k < |at| == |vouts| && Positions(at, |r.rows|)
    ensures var e := IntendRow(at[k], vouts[k]);
            && Enabled(Marking(r, txid, at, vouts, k), e)
            && After(Marking(r, txid, at, vouts, k), e) == Marking(r, txid, at, vouts, k + 1)
  {
    assert at[k..] == [at[k]] + at[k + 1..] && at[k] !in at[k + 1..];
    IntendStep(r.rows, txid, at, vouts, k);
    hide IntendUpTo, PaidBy;
    assert AsSet(at[k..]) - {at[k]} == AsSet(at[k + 1..]);
  }

  class PayDesk {
    var run: Run
    var ledger: seq<Booking>
    /** How many more writes this process makes before it stops. */
    var budget: nat
    ghost var log: seq<Event>

    ghost predicate Valid()
      reads this
    {
      Leads(log, run)
    }

    constructor (rows: seq<PayRow>, budget: nat)
      requires forall i :: 0 <= i < |rows| ==> rows[i].state == Pending && rows[i].txid == None
      ensures Valid() && this.budget == budget && run.rows == rows && run.state == Snapshotted && log == []
      ensures Inv(run) && Idle(run) && ledger == []
    {
      this.budget, log, ledger := budget, [], [];
      run := Run(Snapshotted, None, rows, seq(|rows|, i => {}), {}, {}, None, false);
      new;
      assert Trace([run], []) && [run][0] == run;
    }

    method Step(e: Event)
      requires Valid() && Enabled(run, e)
      modifies `run, `log
      ensures Valid() && run == After(old(run), e) && log == old(log) + [e]
      ensures Sturdy(old(run), run, !e.Crash?, !Mixes(old(run), e))
      ensures e.Crash? ==> Idle(run)
    {
      LeadsIntending(log, run);
      SturdyStep(run, e);
      LeadsOn(log, run, e);
      run, log := After(run, e), log + [e];
    }

    /** One write, or the process stops before it. */
    method Write(e: Event) returns (alive: bool)
      requires Valid() && Enabled(run, e) && !e.Crash?
      modifies `run, `log, `budget
      ensures Valid() && run == After(old(run), if alive then e else Crash)
      ensures log == old(log) + [if alive then e else Crash]
      ensures Sturdy(old(run), run, alive, !Mixes(old(run), e)) && (!alive ==> Idle(run))
    {
      hide Leads, Inv, Truthful;
      alive := budget > 0;
      if alive {
        budget := budget - 1;
        Step(e);
      } else {
        Step(Crash);
      }
    }

    /** Books one payment. */
    method Book(b: Booking) returns (alive: bool)
      requires Valid()
      modifies `run, `log, `budget, `ledger
      ensures Valid() && run == (if alive then old(run) else After(old(run), Crash))
      ensures ledger == if alive then old(ledger) + [b] else old(ledger)
      ensures Sturdy(old(run), run, alive, true) && (!alive ==> Idle(run))
    {
      hide Leads;
      alive := budget > 0;
      if alive {
        budget := budget - 1;
        ledger := ledger + [b];
      } else {
        Step(Crash);
      }
    }

    /** Settles, row by row, who is paid what and where. */
    method WritePlan(mandates: nat -> Mandate) returns (alive: bool)
      requires Valid() && run.state == Snapshotted
      modifies `run, `log, `budget
      ensures Valid()
      ensures alive ==> run == old(run).(rows := PlanUpTo(old(run.rows), mandates, |old(run.rows)|))
      ensures Sturdy(old(run), run, alive, true) && (!alive ==> Idle(run))
    {
      hide Leads, Sturdy;
      Unmoved(run, true);
      alive := true;
      ghost var r := run;
      assert PlanUpTo(r.rows, mandates, 0) == r.rows;
      for i := 0 to |run.rows|
        invariant Valid() && alive && run == r.(rows := PlanUpTo(r.rows, mandates, i)) && Sturdy(r, run, true, true)
      {
        PlanStep(r.rows, mandates, i);
        var row := run.rows[i];
        if row.state == Pending || row.state == Failed {
          var to := Planning(row, mandates(i));
          ghost var before := run;
          alive := Write(PlanRow(i, to.state, to.script));
          SturdyOn(r, before, run, alive, true, true);
          if !alive { return; }
        }
      }
    }

    /** The holders still to pay, in order. */
    method ToPay() returns (at: seq<nat>)
      ensures at == PlannedList(run.rows, |run.rows|)
    {
      at := [];
      for i := 0 to |run.rows|
        invariant at == PlannedList(run.rows, i)
      {
        if run.rows[i].state == Planned {
          at := at + [i];
        }
      }
    }

    /** Records the payout, then every row's output, before anything is sent. */
    method RecordIntent(txid: Txid, at: seq<nat>, vouts: seq<nat>) returns (alive: bool)
      requires Valid() && run.state == Snapshotted && at != [] && |at| == |vouts|
      requires at == PlannedList(run.rows, |run.rows|)
      modifies `run, `log, `budget
      ensures Valid()
      ensures alive ==> run == Recorded(old(run), txid, at, vouts)
      ensures Sturdy(old(run), run, alive, AllName(old(run.rows), Some(txid))) && (!alive ==> Idle(run))
    {
      MarkingStarts(run, txid, at, vouts);
      hide Leads, Marking, Recorded, Sturdy, AllName, Enabled, After, PlannedList;
      ghost var r, pure := run, AllName(run.rows, Some(txid));
      alive := Write(IntendRun(txid));
      if !alive { return; }
      for k := 0 to |at|
        invariant Valid() && alive && Sturdy(r, run, true, pure) && run == Marking(r, txid, at, vouts, k)
      {
        MarkingGoesOn(r, txid, at, vouts, k);
        ghost var before := run;
        alive := Write(IntendRow(at[k], vouts[k]));
        SturdyOn(r, before, run, alive, pure, true);
        if !alive { return; }
      }
    }

    /** Whether any holder's output is on chain. */
    method LandedAlready(node: Node) returns (landed: bool)
      requires run.payout.Some?
      ensures landed <==> SeenOnChain(run, node)
    {
      landed := false;
      for i := 0 to |run.rows|
        invariant forall j :: 0 <= j < i ==> !SeenAt(run, node, j)
      {
        var row := run.rows[i];
        if row.state == Paying && row.vout.Some? && node.unspent(run.payout.value, row.vout.value) {
          assert SeenAt(run, node, i);
          return true;
        }
      }
    }

    /** Sends the recorded payout and, once the node has it, books every row it was sent for. */
    method BroadcastPayout(node: Node) returns (done: bool, alive: bool)
      requires Valid() && run.state == InPayment && run.payout.Some? && run.todo == {} && run.answer == None
      modifies `run, `log, `budget, `ledger
      ensures Valid() && |run.rows| == |old(run.rows)|
      ensures done == Good(Some(AnswerOf(old(run), node)))
      ensures alive ==> Between(run)
      ensures alive ==> ledger == old(ledger) + (if done then Bookings(old(run.rows), |old(run.rows)|, old(run.payout)) else [])
      ensures Cut(old(run.rows), old(run.payout), run.rows, old(ledger), ledger)
      ensures Sturdy(old(run), run, alive, true) && (!alive ==> Idle(run))
      ensures alive ==> run == if done then Settled(Told(old(run), AnswerOf(old(run), node)))
                               else Told(old(run), AnswerOf(old(run), node))
    {
      hide Leads, SeenOnChain, Sturdy;
      var answer := Accepted;
      if node.sent != Taken {
        var landed := LandedAlready(node);
        answer := if landed then Landed else if node.sent == No then Refused else Unreached;
      }
      done := Good(Some(answer));
      PaidAll(run.rows);
      assert CutAt(run.rows, run.payout, run.rows, ledger, ledger, 0, 0);
      alive := Write(Send(answer));
      if alive && done {
        ghost var told := run;
        alive := MarkRows();
        SturdyOn(old(run), told, run, alive, true, true);
      }
    }

    /** Marks every row being paid as paid, and completes the run or sends it back for the rest. */
    method MarkRows() returns (alive: bool)
      requires Valid() && run.state == InPayment && Good(run.answer)
      modifies `run, `log, `budget, `ledger
      ensures Valid() && |run.rows| == |old(run.rows)|
      ensures alive ==> run == Settled(old(run))
      ensures alive ==> ledger == old(ledger) + Bookings(old(run.rows), |old(run.rows)|, old(run.payout))
      ensures Cut(old(run.rows), old(run.payout), run.rows, old(ledger), ledger)
      ensures Sturdy(old(run), run, alive, true) && (!alive ==> Idle(run))
    {
      hide Leads, PaidUpTo, Sturdy;
      alive := true;
      ghost var r := run;
      PaidAll(r.rows);
      Unmoved(r, true);
      for i := 0 to |run.rows|
        invariant Valid() && alive && run == r.(rows := PaidUpTo(r.rows, i)) && Sturdy(r, run, true, true)
        invariant ledger == old(ledger) + Bookings(r.rows, i, r.payout)
      {
        PaidStep(r.rows, i);
        if run.rows[i].state == Paying {
          alive := MarkOne(i);
          SturdyOn(r, r.(rows := PaidUpTo(r.rows, i)), run, alive, true, true);
          if !alive {
            assert CutAt(r.rows, r.payout, run.rows, old(ledger), ledger, i,
                         if run.rows == PaidUpTo(r.rows, i) then i else i + 1);
            return;
          }
        }
      }
      assert CutAt(r.rows, r.payout, run.rows, old(ledger), ledger, |r.rows|, |r.rows|);
      ghost var marked := run;
      var rest := false;
      for i := 0 to |run.rows|
        invariant rest <==> exists j :: 0 <= j < i && !Terminal(run.rows[j].state)
      {
        if !Terminal(run.rows[i].state) {
          rest := true;
        }
      }
      if rest {
        alive := Write(Reopen);
      } else {
        alive := Write(Finish);
      }
      SturdyOn(r, marked, run, alive, true, true);
    }

    /** Marks one row paid, and then books it. */
    method MarkOne(i: nat) returns (alive: bool)
      requires Valid() && run.state == InPayment && Good(run.answer) && i < |run.rows| && run.rows[i].state == Paying
      modifies `run, `log, `budget, `ledger
      ensures Valid() && |run.rows| == |old(run.rows)|
      ensures alive ==>
                && run == old(run).(rows := old(run.rows)[i := old(run.rows)[i].(state := Paid)])
                && ledger == old(ledger) + [Booking(old(run.rows)[i].net, old(run.payout))]
      ensures !alive ==>
                && ledger == old(ledger)
                && (run.rows == old(run.rows) || run.rows == old(run.rows)[i := old(run.rows)[i].(state := Paid)])
      ensures Sturdy(old(run), run, alive, true) && (!alive ==> Idle(run))
    {
      hide Leads, Sturdy;
      var b := Booking(run.rows[i].net, run.payout);
      alive := Write(MarkPaid(i));
      if alive {
        ghost var marked := run;
        alive := Book(b);
        SturdyOn(old(run), marked, run, alive, true, true);
      }
    }

    /** The node refused: nothing was paid, and the rows go back to be paid by another transaction. */
    method RollBack(at: seq<nat>) returns (alive: bool)
      requires Valid() && run.state == InPayment && run.mine && run.todo == {} && run.answer == Some(Refused)
      requires Positions(at, |run.rows|) && forall k :: 0 <= k < |at| ==> run.rows[at[k]].state == Paying
      modifies `run, `log, `budget
      ensures Valid()
      ensures alive ==> run == Refunded(old(run), at)
      ensures Sturdy(old(run), run, alive, true) && (!alive ==> Idle(run))
    {
      hide Leads, Sturdy;
      ghost var r := run;
      alive := Write(RollBackRun);
      if !alive { return; }
      for k := 0 to |at|
        invariant Valid() && alive && Sturdy(r, run, true, true)
        invariant run == r.(state := Snapshotted, payout := None, rows := BackUpTo(r.rows, at, k), carried := {},
                            answer := None, mine := false)
      {
        BackAre(r.rows, at, k);
        assert at[k] !in at[..k];
        ghost var before := run;
        alive := Write(RollBackRow(at[k]));
        SturdyOn(r, before, run, alive, true, true);
        if !alive { return; }
      }
    }

    /** Checks the issuer's transaction pays everyone planned, records it, and sends it. */
    method PayWith(signed: Signed, asset: Asset, node: Node) returns (sent: Option<Answer>, alive: bool)
      requires Valid() && run.state == Snapshotted && Between(run)
      modifies `run, `log, `budget, `ledger
      ensures Valid()
      ensures alive ==> PaidWith(old(run), signed, asset, node, sent, run) && Between(run)
      ensures Sturdy(old(run), run, alive, AllName(old(run.rows), Some(signed.txid))) && (!alive ==> Idle(run))
    {
      hide Leads, SeenOnChain, Settled, IntendUpTo, BackUpTo, Sturdy;
      ghost var r, pure := run, AllName(run.rows, Some(signed.txid));
      Unmoved(run, pure);
      sent, alive := None, true;
      var at := ToPay();
      if at == [] {
        return;
      }
      var match' := MatchOutputs(signed.outs, asset, Promises(run.rows, at));
      if match'.Err? || !signed.acceptable {
        return;
      }
      alive := RecordIntent(signed.txid, at, match'.value);
      if !alive {
        return;
      }
      sent := Some(AnswerOf(run, node));
      IntendedAre(r.rows, signed.txid, at, match'.value, |at|);
      var done;
      ghost var recorded := run;
      done, alive := BroadcastPayout(node);
      SturdyOn(r, recorded, run, alive, pure, true);
      if alive && !done && node.sent == No {
        ghost var told := run;
        alive := RollBack(at);
        SturdyOn(r, told, run, alive, pure, true);
      }
    }

    /** Serves one request to execute: sends a payout already recorded again, or plans, or pays
        with the issuer's transaction. */
    method Execute(signed: Option<Signed>, asset: Asset, mandates: nat -> Mandate, node: Node)
      returns (sent: Option<Answer>, alive: bool)
      requires Valid() && Idle(run) && run.state != Complete
      modifies `run, `log, `budget, `ledger
      ensures Valid() && Idle(run) && PaidKept(old(run.rows), run.rows)
      ensures Inv(old(run)) && alive ==> Inv(run) && PaysOnce(run)
      ensures Inv(old(run)) ==> (Inv(run) <==> IntentWhole(run))
      ensures Inv(old(run)) && Truthful(old(run)) && Pure(old(run), signed) ==> Truthful(run)
      ensures Inv(old(run)) && Honest(old(run)) && alive ==>
                (Honest(run) <==> (Good(sent) ==> AllName(old(run.rows), Named(old(run), signed))))
      ensures Inv(old(run)) && Settling(old(run)) && alive ==> Settling(run)
      ensures alive ==> exists r' :: run == Closed(r') && Executed(old(run), signed, asset, mandates, node, sent, r')
    {
      hide Leads, SeenOnChain, Settled, PlanUpTo, PaidWith, Told, Sturdy;
      sent := None;
      if run.state == InPayment {
        sent := Some(AnswerOf(run, node));
        var done;
        done, alive := BroadcastPayout(node);
      } else if signed == None {
        alive := WritePlan(mandates);
      } else {
        sent, alive := PayWith(signed.value, asset, node);
      }
      if alive {
        assert Executed(old(run), signed, asset, mandates, node, sent, run);
        ghost var served := run;
        if Inv(old(run)) { ExecutedTrueIff(old(run), signed, asset, mandates, node, sent, run); }
        Step(Leave);
        SturdyOn(old(run), served, run, true, Pure(old(run), signed), true);
      }
      WhatSturdyMeans(old(run), run, alive, Pure(old(run), signed));
    }
  }
}
