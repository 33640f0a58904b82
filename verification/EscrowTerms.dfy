/** Opening an escrow: its close, its deadline, and the last moment a close may still deliver. */
module EscrowTerms {
  import opened Prelude
  import opened Money
  import opened Chain
  import opened Covenant
  import opened ReleaseFacts
  import opened ReturnSpend

  const DAY_SECONDS: nat := 86400

  datatype TermsError = BothCloses | NoClose | HeightTooLarge | NotATime | CloseInThePast | DeadlineTooLate

  /** The close an issuer may ask for: one unit, and in the future. */
  function CloseFor(height: int, time: int, tip: int, mtp: int): (r: Result<nat, TermsError>)
    ensures r.Ok? ==> 1 <= r.value < U32 && !LockReached(r.value, tip, mtp)
    ensures r.Ok? <==>
            || (0 < height && time <= 0 && height < LOCKTIME_THRESHOLD && tip < height)
            || (height <= 0 && LOCKTIME_THRESHOLD <= time < U32 && mtp < time)
  {
    if height > 0 && time > 0 then Err(BothCloses)
    else if height > 0 then
      if height >= LOCKTIME_THRESHOLD then Err(HeightTooLarge)
      else if height <= tip then Err(CloseInThePast)
      else Ok(height)
    else if time > 0 then
      if time < LOCKTIME_THRESHOLD || time >= U32 then Err(NotATime)
      else if time <= mtp then Err(CloseInThePast)
      else Ok(time)
    else Err(NoClose)
  }

  /** Why a close is refused. */
  lemma CloseRefused(height: int, time: int, tip: int, mtp: int)
    requires CloseFor(height, time, tip, mtp).Err?
    ensures match CloseFor(height, time, tip, mtp).error
            case BothCloses => height > 0 && time > 0
            case NoClose => height <= 0 && time <= 0
            case HeightTooLarge => height >= 500_000_000 && time <= 0
            case NotATime => height <= 0 < time && !(500_000_000 <= time < 0x1_0000_0000)
            case CloseInThePast => (0 < height <= tip && time <= 0) || (height <= 0 && 500_000_000 <= time <= mtp)
            case DeadlineTooLate => false
  {
  }

  /** How many blocks or seconds one deadline day counts, in the unit of a lock. */
  function DayLength(lock: nat, blocksPerDay: nat): nat {
    if lock < LOCKTIME_THRESHOLD then blocksPerDay else DAY_SECONDS
  }

  /** The close plus the configured margin, in the close's own unit, in wrapping uint64. */
  function DeadlineFor(close: nat, days: nat, blocksPerDay: nat): Result<nat, TermsError> {
    var d := Wrap64(close + Wrap64(days * DayLength(close, blocksPerDay)));
    if close < LOCKTIME_THRESHOLD then
      if d >= LOCKTIME_THRESHOLD then Err(DeadlineTooLate) else Ok(d)
    else
      if d >= U32 then Err(DeadlineTooLate) else Ok(d)
  }

  /** One day before the deadline, the day's length truncated to 32 bits. */
  function LastCloseLock(deadline: nat, blocksPerDay: nat): nat {
    var margin := DayLength(deadline, blocksPerDay) % U32;
    if deadline <= margin then 0 else deadline - margin
  }

  /** A close at a height is followed by the deadline after that many days of blocks, and a close at a
      time after that many days of 86400 seconds, as long as it stays in its unit. */
  lemma DeadlineIs(close: nat, days: nat, blocksPerDay: nat)
    requires 1 <= close < U32 && close + days * blocksPerDay < U64 && close + days * 86400 < U64
    ensures var d := DeadlineFor(close, days, blocksPerDay);
            if close < 500_000_000 then
              (d.Ok? <==> close + days * blocksPerDay < 500_000_000) && (d.Ok? ==> d.value == close + days * blocksPerDay)
            else
              (d.Ok? <==> close + days * 86400 < 0x1_0000_0000) && (d.Ok? ==> d.value == close + days * 86400)
  {
    var margin := days * DayLength(close, blocksPerDay);
    assert Wrap64(margin) == margin && Wrap64(close + margin) == close + margin;
  }

  /** The last moment to deliver is one day before the deadline, a day being a day's blocks or 86400
      seconds, or none at all when the deadline is not past its first day. */
  lemma LastCloseIs(deadline: nat, blocksPerDay: nat)
    requires blocksPerDay < U32
    ensures var day := if deadline < 500_000_000 then blocksPerDay else 86400;
            LastCloseLock(deadline, blocksPerDay) == if deadline > day then deadline - day else 0
  {
  }

  /** The close, the last close and the deadline come in that order and in one unit. */
  predicate InOrder(close: nat, deadline: nat, blocksPerDay: nat) {
    var last := LastCloseLock(deadline, blocksPerDay);
    && close <= last < deadline
    && SameUnit(close, deadline)
    && SameUnit(close, last)
  }

  /** Terms come out in order if and only if the wrapping margin still covers one
      whole positive day and does not carry the close past 2^64. */
  lemma TermsInOrderIff(close: nat, days: nat, blocksPerDay: nat)
    requires 1 <= close < U32
    requires DeadlineFor(close, days, blocksPerDay).Ok?
    ensures var day := DayLength(close, blocksPerDay);
            InOrder(close, DeadlineFor(close, days, blocksPerDay).value, blocksPerDay)
            <==> 0 < day % U32 <= Wrap64(days * day) && close + Wrap64(days * day) < U64
  {
    OrderOfSums(close, Wrap64(days * DayLength(close, blocksPerDay)), DayLength(close, blocksPerDay), blocksPerDay);
  }

  lemma OrderOfSums(close: nat, x: nat, day: nat, blocksPerDay: nat)
    requires 1 <= close < U32 && x < U64
    requires day == DayLength(close, blocksPerDay)
    requires Wrap64(close + x) < if close < LOCKTIME_THRESHOLD then LOCKTIME_THRESHOLD else U32
    ensures InOrder(close, Wrap64(close + x), blocksPerDay) <==> 0 < day % U32 <= x && close + x < U64
  {
    var d := Wrap64(close + x);
    if close + x < U64 {
      assert d == close + x;
      assert SameUnit(close, d);
    } else {
      assert d == close + x - U64;
      assert d < close;
    }
  }

  /** The configuration the program starts with -- at least one block a day, at
      least one deadline day, no product past 2^64 -- always gives terms in order. */
  lemma ConfiguredTermsInOrder(close: nat, days: nat, blocksPerDay: nat)
    requires 1 <= close < U32
    requires 1 <= days && 1 <= blocksPerDay && close + days * DayLength(close, blocksPerDay) < U64
    requires DeadlineFor(close, days, blocksPerDay).Ok?
    ensures InOrder(close, DeadlineFor(close, days, blocksPerDay).value, blocksPerDay)
  {
    var day := DayLength(close, blocksPerDay);
    MulLe(day, 1, days);
    assert Wrap64(days * day) == days * day;
    assert day < U32 by {
      if close < LOCKTIME_THRESHOLD { assert Wrap64(close + days * day) == close + days * day; }
    }
    TermsInOrderIff(close, days, blocksPerDay);
  }

  /** A configuration whose product wraps puts the deadline at the close itself. */
  lemma WrappingConfigurationLosesTheMargin()
    ensures DeadlineFor(1000, U32, U32) == Ok(1000)
    ensures !InOrder(1000, 1000, U32)
  {
    assert U32 * U32 == U64;
  }

  // ---- what the order buys ----

  /** A lock that has passed stays passed, and so has every earlier lock of its unit. */
  lemma LockReachedMonotone(early: nat, late: nat, tip: int, mtp: int, tip': int, mtp': int)
    requires early <= late && SameUnit(early, late) && tip <= tip' && mtp <= mtp'
    requires LockReached(late, tip, mtp)
    ensures LockReached(early, tip', mtp')
  {
  }

  /** The gate a close passes before it delivers anything. */
  predicate CloseGate(t: Terms, blocksPerDay: nat, tip: int, mtp: int) {
    LockReached(t.closeLock, tip, mtp) && !LockReached(LastCloseLock(t.deadlineLock, blocksPerDay), tip, mtp)
  }

  /** While the gate lets a delivery start, a built release can be mined in the
      next block and no built refund can; nor could one at any earlier time. */
  lemma GateLetsReleaseNotRefund(t: Terms, blocksPerDay: nat, tip: nat, mtp: int, tip0: nat, mtp0: int,
                                 coins: seq<Coin>, excess: seq<Excess>, escrowFee: nat, platform: Script,
                                 toIssuer: nat, networkFee: nat, refunds: Refunds)
    requires InOrder(t.closeLock, t.deadlineLock, blocksPerDay)
    requires CloseGate(t, blocksPerDay, tip, mtp) && tip0 <= tip && mtp0 <= mtp
    requires coins != [] && SharesFit(t, coins, networkFee)
    ensures FinalInNextBlock(ReleaseTx(t, coins, excess, escrowFee, platform, toIssuer, networkFee), tip, mtp)
    ensures var kept := Keeps(networkFee, |coins|, |coins|);
            !FinalInNextBlock(ReturnTx(Refund, t, coins, refunds, kept, networkFee), tip0, mtp0)
  {
    ReleaseMinableIff(t, coins, excess, escrowFee, platform, toIssuer, networkFee, tip, mtp);
    ReturnMinableIff(Refund, t, coins, refunds, networkFee, tip0, mtp0);
    if LockReached(t.deadlineLock, tip0, mtp0) {
      LockReachedMonotone(LastCloseLock(t.deadlineLock, blocksPerDay), t.deadlineLock, tip0, mtp0, tip, mtp);
    }
  }
}
