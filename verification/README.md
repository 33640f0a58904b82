# A model of SeqPal's money paths

SeqPal's server (`seqpald`) takes investors' subscriptions into a covenant on the Sequentia
chain, delivers tokens, releases or returns the money, pays dividends and distributions, and
compiles the rules that say who may hold a token. This project models the parts where a
mistake moves money twice, loses it, or admits the wrong holder, and proves what they keep.

* **The escrow.** `Covenant`, `ReturnSpend` and `ReleaseFacts` build the three spends in
  exact wrapping uint64 arithmetic and check them against the covenant's leaves.
  `EscrowTerms` orders the close and the deadline. `EscrowProtocol` is the offering's books as
  a state machine with one event for every store write, every request to move tokens, and
  everything the chain, the depositors, the issuer or a crash may do in between.
  `EscrowSafety` and `EscrowExclusion` say what every run keeps, and `EscrowFuture` which books
  can still come to break the promise. `EscrowDesk.Desk` is the
  handlers and the watcher themselves, as methods that update the books in place and may stop
  before any write; `EscrowPlans` holds what each is specified by, `EscrowMeaning` and `EscrowRows`
  say what those plans come to, row by row, in terms of the store, the chain and the node alone,
  `EscrowAnswers` what their inputs can and cannot do, `EscrowCare` what each asks of the books to
  keep them safe.
  `Desk.Valid` says the books are where a run of the state machine leads, and every method
  says what it keeps of the machine's invariant and of a log without stops, so
  `EscrowPromise` serves any requests in any order, restarts included, and proves what holds
  after each. `EscrowLedger` and `ReleaseAccount` treat the ledger, `CloseLoop` and `CloseChecks`
  the order of deliveries, and `EscrowHazards` drives the handlers, on the small world of
  `EscrowScene`, to where the promises fail.
* **The older close.** `SettleV1` is the two-transaction close of a subscription outside the covenant.
* **The escrow fee.** `EscrowFees` is the published schedule.
* **Paying holders.** `Payout` and `PayoutDesk` pay a distribution in one transaction,
  `PayoutMatch` checks that transaction, `WalletPayout` adds the other way to pay the same run,
  one payment to its holders' wallets, `Register` splits the pool, `ActionClaims` takes dividend
  claims.
* **Finding holders.** `AssetWalk`, `AssetSupply` and `ActionSnapshot`.
* **Rules and limits.** `Rules` compiles and evaluates a jurisdiction matrix; `Limits` is the
  two sliding-window limiters.

`Prelude`, `Money`, `Chain` and `Text` hold sums, uint64 arithmetic, transactions, and ASCII text.
`dafny verify dfyconfig.toml` checks the whole project.

## What turned out not to hold everywhere

Each of these comes with the exact condition under which the promise holds, and with an input that
shows it where the condition does not already name it.

* A subscription can end with both a release and a refund (`EscrowHazards.ReleasedAndRefunded`,
  through the handlers): the release is broadcasting, its coins have left the UTXO set, and the
  issuer cancels that subscription by name over a late coin. The builder checks coins, not
  subscriptions. A cancel keeps the promise if and only if nobody it takes is in a live release
  (`EscrowCare.CancelIsSafeIff`), that is, if and only if the request names no such subscription
  (`EscrowCare.CancelRequestIsCareful`, `EscrowDesk.Desk.HandleCancel`).
* It can without anybody being named (`EscrowHazards.CutCancelReleasedAndRefunded`): the process
  stops between recording a cancel and marking its subscriptions, the cancel is signed and not
  answered for, and a close delivers and releases over a late coin what the cancel returns. Books
  stay safe under all careful steps to come if and only if no return in flight covers anybody in
  a live release (`EscrowFuture.StaysSafeIff`); so a release keeps the promise if and only if no
  cancel in flight covers one of its subscriptions (`EscrowFuture.ReleaseStaysSafeIff`), and a
  close exactly when that holds of the cancels it leaves in flight (`EscrowDesk.Desk.HandleClose`).
  A stop leaves every cancel marked if and only if it does not come while one is being marked
  (`EscrowExclusion.StopMarkedIff`), and where no stop does, only the named cancel above needs care
  (`EscrowExclusion.CancelCareIsEnough`).
* A stop between recording a spend and superseding the one it replaces leaves two built spends
  over one coin (`EscrowHazards.TwoOverOneCoin`), if and only if the two share one
  (`EscrowExclusion.StopApartIff`); with stops anywhere else no two live spends ever do while the
  lock is free (`EscrowExclusion.LockFreeMeansApart`).
* Delivered tokens can stay with a subscriber whose money goes back
  (`EscrowHazards.DeliveredAndRefunded`): the process stops once the delivery is recorded, the next
  close does not find the account and fails the delivery, and its cancel returns the money. A close
  fails no recorded delivery if and only if it knows the account of every subscription it finds
  with one (`EscrowAnswers.CloseFailsTrulyIff`).
* Before any failure nothing is rechecked between deliveries, so one after an interrupted
  delivery can go to a subscription whose money cannot be released
  (`CloseChecks.InterruptedIsUnguarded`); the exact condition is `CloseChecks.CloseGuardsIff`. And the
  recheck counts subscriptions that failed before the close, which the first check leaves out
  (`CloseChecks.RecheckCountsTheFailed`, with the condition in `CloseChecks.RecheckAgreesIff`).
* An escrow fee quoted as zero is not written down, so a later quote can replace it
  (`EscrowLedger.FeeFixedIff`), and then the ledger no longer tells what the transaction paid
  (`EscrowHazards.LateFee`); nor does it when a fee was charged to a subscription without coins,
  or does not fit what its subscription left. `ReleaseAccount.AccountsIff` is the exact condition.
* The published escrow fee adds its accruals in uint64. When they wrap the fee falls, to nothing
  at worst, though every quotient fits (`EscrowFees.WrappedAccrualsOweNothing`);
  `EscrowFees.TotalIsPublishedIff` says exactly when the total is the published one.
* The coverage test of a release adds in uint64 and can wrap
  (`ReleaseFacts.AWrappedFeePassesAsCovered`, with the condition in `ReleaseFacts.ReleaseConservesIff`);
  so can the deadline margin (`EscrowTerms.WrappingConfigurationLosesTheMargin`,
  `EscrowTerms.TermsInOrderIff`).
* A distribution's intent is two kinds of write, the run and then its rows. A stop between them
  makes the next request pay a holder again (`Payout.SplitIntentPaysTwice`); every run without such
  a stop pays once (`Payout.EveryRunPaysOnce`), and whether a stop was one can be read from the
  store (`Payout.StopKeepsIff`).
* A rollback cut short leaves a row that the next payout marks paid although nothing paid it
  (`Payout.RollbackCutShortRecordsAPayment`). What is recorded paid stays true if and only if no
  payout is recorded while a row is being paid by another transaction
  (`Payout.EventKeepsTrueIff`), and a request keeps it true if and only if, should the node have
  what it sends, every row being paid before named that transaction (`PayoutDesk.PayDesk.Execute`).
* A partial round leaves a run with paid rows that can still be handed over to be paid to the
  holders' wallets, and those already paid are on the list (`WalletPayout.HandedOverPaysTwice`).
  A hand-over can never lead to a second payment if and only if nobody it lists is recorded paid and
  no request to execute has been let in that has yet to write: the two handlers hold different locks
  (`WalletPayout.HandOverStaysOnceIff`).
* A stop between marking a row paid and booking it leaves that payment out of the ledger for good
  (`PayoutDesk.ResumedLedgerIsCompleteIff`).
* A record-date snapshot stopped between two holders leaves the later ones out for good
  (`Register.FrozenReachEveryoneIff`).
* A claim that names only blank outpoints is registered, for no atoms
  (`ActionClaims.ActionBook.HandleClaim`).
* A matrix that excludes everyone compiles to an empty list, which the evaluator reads as no
  limit (`Rules.CompileThenEval`, `Rules.ExcludingEveryoneAllowsNothing`).

## Model

| member | source | states |
|---|---|---|
| Covenant.BuildRelease | seqpald/escrow_covenant.go:503-597 | a release is built if and only if there are coins, all of the payment asset with an instance, every payable party has a script, the wrapped deductions are covered and the issuer's wrapped remainder reaches MINIMUM; it is then that exact transaction, with those exact figures shown beside it, its network fee the price of its own size; refused, it says the first thing wrong |
| Covenant.PlaceOutputs | seqpald/escrow_covenant.go:534-570 | the outputs come in the order issuer, platform fee if any, excesses, network fee, with the two open amounts at zero to measure by |
| Covenant.TakeCoins | seqpald/escrow_covenant.go:515-533 | every coin is checked, and the total is the uint64 sum |
| Covenant.ReturnExcess | seqpald/escrow_covenant.go:547-568 | one output per positive excess, refused exactly when a positive one has no script |
| Covenant.FeeRoundsUp | seqpald/escrow_covenant.go:353-361 | it is the size times the rate in thousandths, rounded up, as long as the product fits |
| Covenant.ReleaseFeeIs | seqpald/escrow_covenant.go:571-572 | the network fee of a release is the price, rounded up, of the very transaction built, measured with its two open amounts at zero |
| Covenant.DescribedAsBuilt | seqpald/escrow_covenant.go:584-596 | what the issuer is shown is, output by output, what the transaction pays |
| Covenant.ReleasePaysBack | seqpald/escrow_covenant.go:553-568 | the outputs described as a subscriber's pay exactly the excess listed for them, over all outputs |
| Covenant.CoinsSplit | seqpald/escrow_spend.go:385-389 | what each subscription's coins bring adds up to all the coins |
| ReturnSpend.BuildReturn | seqpald/escrow_covenant.go:611-685 | a cancel or refund is built if and only if the inputs are well formed and every share of the fee is within FEE_CAP and below its coin; output k pays coin k's refund script and is described as that subscriber's; refused, it says why, of the first coin that is in the way |
| ReturnSpend.ReturnFeeIs | seqpald/escrow_covenant.go:657-661 | the network fee of a cancel or refund is the price of the very transaction built, measured with every coin returned in full |
| ReturnSpend.SpreadFee | seqpald/escrow_covenant.go:661-682 | the loop takes share k from coin k and refuses exactly when some share does not fit |
| ReturnSpend.SharesMakeTheFee | seqpald/escrow_covenant.go:661-669 | the shares kept back add up to the network fee exactly and differ by at most one |
| ReturnSpend.CapIsHopelessIff | seqpald/escrow_covenant.go:661-673 | some share breaks the cap if and only if the fee is over the cap times the number of coins, so no other split would have done |
| ReturnSpend.ReturnConserves | seqpald/escrow_covenant.go:599-685 | the outputs add up to the coins, and each coin comes back whole but for at most FEE_CAP, never empty |
| ReturnSpend.ReturnMeetsLeafIff | seqpald/escrow_covenant.go:35-38 | each coin's cancel or refund leaf admits the built transaction exactly when the leaf's 63-bit addition does not overflow |
| ReturnSpend.ReturnMinableIff | seqpald/escrow_covenant.go:687-695 | a cancel can be mined at any time, a refund exactly once the deadline test passes |
| ReleaseFacts.TotalPerSubscription | seqpald/escrow_spend.go:385-389 | the map holds each subscription's uint64 total |
| ReleaseFacts.ExcessOver | seqpald/escrow_spend.go:385-395 | an excess is listed if and only if it is what one of the subscribers' own uint64 total is above a price set for them, for that subscriber and to their own script; in the subscribers' order |
| ReleaseFacts.OwedIsOverpaid | seqpald/escrow_spend.go:385-395 | that is what they really overpaid as long as the coins' total fits a uint64 |
| ReleaseFacts.ReleaseConservesIff | seqpald/escrow_covenant.go:571-585 | a release spends exactly its inputs if and only if what it pays besides the issuer stays below 2^64, where the coverage test is sound |
| ReleaseFacts.AWrappedFeePassesAsCovered | seqpald/escrow_covenant.go:571-585 | one coin of 1000 with an escrow fee just under 2^64: the deductions wrap to 200 and pass, and the transaction pays 2^64 more than its coin |
| ReleaseFacts.ReleasePaysOut | seqpald/escrow_spend.go:385-396 | issuer, escrow fee and network fee share exactly the subscriptions' own prices, the issuer gets at least MINIMUM, and each subscriber is listed exactly what they overpaid; to which script is EscrowPromise.RecordedReleaseIsAdmitted |
| ReleaseFacts.ReleaseMeetsEveryLeaf | seqpald/escrow_covenant.go:30-34 | one release satisfies the release leaf of all its coins at once, BIP 65 rules included, exactly when output 0 carries MINIMUM |
| ReleaseFacts.ReleaseMinableIff | seqpald/escrow_covenant.go:687-695 | a release is final in the next block exactly when the platform's close test passes |
| EscrowTerms.CloseFor | seqpald/escrow_terms.go:236-264 | a close is accepted exactly when it is given in one unit, in that unit's range and in the future |
| EscrowTerms.CloseRefused | seqpald/escrow_terms.go:236-264 | each refusal names what is wrong: both closes, none, a height or a time out of range, or one not in the future |
| EscrowTerms.DeadlineIs | seqpald/escrow_terms.go:156-173 | the deadline is that many days after the close, a day being the configured blocks at a height and 86400 seconds at a time, and is refused if it leaves the unit |
| EscrowTerms.LastCloseIs | seqpald/escrow_close.go:254-266 | the last moment to deliver is one such day before the deadline |
| EscrowTerms.TermsInOrderIff | seqpald/escrow_terms.go:156-173 | close, last close and deadline come in order and in one unit if and only if the wrapped margin covers one positive day and does not carry past 2^64 |
| EscrowTerms.ConfiguredTermsInOrder | seqpald/escrow_terms.go:156-173 | with at least one deadline day and one block a day, and no product past 2^64, they always do |
| EscrowTerms.WrappingConfigurationLosesTheMargin | seqpald/escrow_terms.go:161-166 | a configuration whose product wraps puts the deadline at the close itself |
| EscrowTerms.LockReachedMonotone | seqpald/escrow_covenant.go:687-695 | a lock once reached stays reached, and so is every earlier lock of its unit |
| EscrowTerms.GateLetsReleaseNotRefund | seqpald/escrow_close.go:52-71 | whenever the gate lets a delivery start, a built release can be mined next and no built refund can, now or at any earlier time |
| EscrowProtocol.LastHolder | seqpald/escrow_spend.go:266-289 | the spend a coin is held by is a holding spend that has the coin, and none means no spend holds it |
| EscrowSafety.EventKeepsIff | seqpald/escrow_spend.go:793-933 | from books that keep the invariant behind the promise, an event the program can produce keeps it if and only if it is careful: no cancel over a subscription in a live release, no release over one in a cancel in flight; EscrowFuture.StepStaysSafeIff says the same of the promise |
| EscrowSafety.InsertKeepsIff | seqpald/escrow_spend.go:441-500 | recording a spend keeps the invariant exactly when the books were asked about subscriptions, not only about coins |
| EscrowSafety.AwaitCancelKeepsIff | seqpald/escrow_spend.go:998-1001 | marking a subscription as cancelled is safe exactly when no live release covers it |
| EscrowSafety.EveryCarefulRunIsSafe | seqpald/escrow_spend.go:868-933 | over every careful run of closes, cancels, signings, broadcasts, refunds, deposits, chain progress and crashes at any write: nobody is both released and refunded, every live release's subscriptions have a recorded delivery and await release or are settled, and no transfer is asked for twice |
| EscrowSafety.CarefulRunKeeps | seqpald/escrow_close.go:93-190 | the invariant holds at every point of such a run |
| EscrowSafety.ReleaseLands | seqpald/escrow_spend.go:892-911 | a release landing settles only delivered subscriptions, none of them refunded |
| EscrowSafety.ReturnLands | seqpald/escrow_spend.go:912-923 | a cancel or refund landing never touches a subscription in a live release, and late coins change no settled or refunded one |
| EscrowSafety.SettledIsFinal | seqpald/escrow_spend.go:912-918 | a settled subscription stays settled and unrefunded through every careful event, and a return landing leaves its row as it was |
| EscrowSafety.EveryRunAsksOnce | seqpald/escrow_close.go:192-252 | over every run, careful or not, with crashes at any write: no subscription's tokens are asked for twice, and none awaits release without a recorded delivery |
| EscrowSafety.AskedOnlyWhileDelivering | seqpald/escrow_close.go:196-229 | in every run the tokens are asked for only while the row is delivering, and only if never asked for before |
| EscrowSafety.NeverAskedAgain | seqpald/escrow_close.go:196-229 | in every run, crashes included, once a delivery failed, was cancelled or refunded, or the money was released, the tokens are never asked for again |
| EscrowSafety.ClosingCancelsAreCareful | seqpald/escrow_close.go:123-145 | what a close cancels is never in a live release |
| EscrowSafety.UndeliveredIsUncovered | seqpald/escrow_spend.go:1229-1240 | a subscription neither delivered nor delivering is in no live release |
| EscrowSafety.UnspentCoinsMakeCareful | seqpald/escrow_spend.go:437-456 | while live releases' coins are still in the UTXO set, the builder's check of coins is enough |
| EscrowFuture.StaysSafeIff | seqpald/escrow_spend.go:868-933 | books whose rows agree end safe in every run of careful steps from there, crashes included, if and only if no return in flight covers a subscription in a live release, unless it is settled |
| EscrowFuture.StepStaysSafeIff | seqpald/escrow_spend.go:793-933 | from books that keep the invariant, one more step leaves books that stay safe if and only if it is careful |
| EscrowFuture.ReleaseStaysSafeIff | seqpald/escrow_spend.go:345-427 | recording a release leaves books that stay safe if and only if no cancel in flight covers one of its subscriptions |
| EscrowExclusion.LockFreeMeansApart | seqpald/escrow_spend.go:266-301 | in every run, with stops anywhere but between recording a spend and superseding one it shares a coin with: whenever the lock is free any two live spends have disjoint coins, though refused ones fall back to built and refunds are built over unsigned cancels |
| EscrowExclusion.FreeCoinIsUnheld | seqpald/escrow_spend.go:445-456 | a coin the builder takes as free is shared only with a spend the new one supersedes |
| EscrowExclusion.StopApartIff | seqpald/escrow_spend.go:266-301 | a stop anywhere leaves no two live spends over one coin if and only if the spend recorded last shares no coin with one it has still to supersede |
| EscrowExclusion.StopMarkedIff | seqpald/escrow_spend.go:993-1001 | a stop leaves every cancel in flight marked if and only if it does not come while a recorded cancel is being marked |
| EscrowExclusion.CrashAfterInsertIff | seqpald/escrow_spend.go:420-423 | a crash right after a spend is recorded leaves the books apart exactly when it shares no coin with one it was about to supersede |
| EscrowExclusion.CancelCareIsEnough | seqpald/escrow_spend.go:993-1001 | in a run no stop of which falls while a cancel is being marked, careful cancels make every step careful |
| EscrowCare.CancelIsSafeIff | seqpald/escrow_spend.go:993-1001 | a cancel recorded and its subscriptions marked leave the promise kept if and only if none of them is in a live release |
| EscrowCare.CancelRequestIsCareful | seqpald/escrow_spend.go:971-988 | a request takes nobody in a live release if and only if it names no subscription awaiting release in one; so a request that names nobody never does |
| EscrowCare.ReadyIsUnopposed | seqpald/escrow_close.go:93-137 | while every cancel in flight over the subscriptions of a close is marked, whatever the close delivers, no release of it is opposed by a cancel in flight |
| EscrowCare.CloseStaysSafeIff | seqpald/escrow_close.go:122-147 | the books a close leaves stay safe if and only if, by the store before it hands out its spends, no cancel left in flight covers a subscription of its release |
| EscrowHazards.ReleasedAndRefunded | seqpald/escrow_spend.go:944-1001 | close, sign, cancel by name, sign and heal, on a concrete chain, end with one subscription both released and refunded |
| EscrowHazards.NamedCancelWasCareless | seqpald/escrow_spend.go:978-993 | the careless step is the cancel that names a delivered subscription, and it breaks the promise at once |
| EscrowHazards.CutCancelReleasedAndRefunded | seqpald/escrow_spend.go:993-1001 | a cancel naming nobody, stopped before its marks, then sign, close, heal and sign, end with one subscription both released and refunded |
| EscrowHazards.CutCancelIsTold | seqpald/escrow_spend.go:993-1001 | the books that stop leaves are safe, and already say that a release of that subscription would not be |
| EscrowHazards.TwoOverOneCoin | seqpald/escrow_spend.go:420-423 | a second cancel recorded and then a stop leave two live spends over one coin with the lock free |
| EscrowHazards.DeliveredAndRefunded | seqpald/escrow_close.go:205-222 | a stop after the delivery is recorded, a close that does not find the account, and its cancel signed, end with the tokens delivered and the money refunded |
| EscrowHazards.LateFee | seqpald/closing.go:345-362 | a fee nobody could quote at the close and booked at the landing leaves 990 in the release row of a transaction that paid 999 and 1 |
| EscrowHazards.LateFeeIsUnaccounted | seqpald/closing.go:345-362 | that release is one the builder records, charged for as the close charges, its late fee fits, and the ledger does not account for it |
| EscrowLedger.FeeFixedIff | seqpald/closing.go:345-362 | the fee charged once stays the fee, whatever is quoted later, if and only if it was booked, positive, or quoted zero again |
| EscrowLedger.ChargingKeepsFees | seqpald/closing.go:345-395 | charging subscriptions one after another changes nobody's fee |
| EscrowLedger.PartsMakeTakenIff | seqpald/closing.go:364-372 | saturating subtraction never undershoots, and is exact if and only if every fee fits what its own subscription left |
| ReleaseAccount.LateIff | seqpald/closing.go:345-395 | a fee never shrinks between the charging and the landing, and is the same exactly when it was booked, positive when charged, or still nothing |
| ReleaseAccount.FeeRowsAreTaken | seqpald/escrow_spend.go:899-911 | after a release lands, the fee rows of its subscriptions say exactly what its release rows were reduced by |
| ReleaseAccount.RecordedPaysOut | seqpald/escrow_spend.go:345-427 | a recorded release returns each subscriber exactly what they overpaid, out of their own coins, and all the rest of its coins is the issuer's and the two fees |
| ReleaseAccount.LeftsPay | seqpald/escrow_spend.go:345-427 | what such a release leaves of the coins it takes, subscription by subscription, adds up to exactly what it pays the issuer, the platform and the network |
| ReleaseAccount.AccountsIff | seqpald/escrow_spend.go:870-930 | a recorded release is accounted for on landing -- release rows are issuer output plus network fee, and with fee and returned rows they make up the coins -- if and only if every fee fits what its own subscription left and the fees that came late are worth those charged to subscriptions without coins; the second half alone needs only the first condition |
| ReleaseAccount.AccountsIffFixed | seqpald/escrow_spend.go:364-372 | when everyone released has coins: if and only if every fee fits and was booked, positive when charged, or still nothing |
| CloseLoop.FinalReleaseExists | seqpald/escrow_close.go:93-137 | if nothing fails after the last check, the release over everything delivered is the one that was checked |
| CloseLoop.StopsFirst | seqpald/escrow_close.go:93-121 | the loop stops before the first attempt before which a delivery had failed and no release of the rest could be built, and nowhere else |
| CloseLoop.RestIs | seqpald/escrow_close.go:102-108 | the check before an attempt is over exactly those delivered by then and all still to try, each once |
| CloseChecks.CloseGuardsIff | seqpald/escrow_close.go:72-121 | with the release builder itself, whatever coins, fees and rate it finds: a close of subscriptions none of which failed before guards each delivery if and only if none follows an interrupted one with no failure between |
| CloseChecks.RecheckAgreesIff | seqpald/escrow_close.go:101-109 | the recheck gives the answer it would give without those the first check leaves out, whatever it finds, if and only if none of them is still to come |
| CloseChecks.InterruptedIsUnguarded | seqpald/escrow_close.go:93-121 | 1000 atoms interrupted, 100 next, 500 the least: the second is delivered though nothing delivered or to come can be released, before or after |
| CloseChecks.RecheckCountsTheFailed | seqpald/escrow_close.go:101-121 | a subscription that failed before the close makes the recheck pass, and what is delivered on it cannot be released |
| EscrowPlans.DeliveriesAre | seqpald/escrow_close.go:93-122 | attempts change exactly their own subscription's row, each as one attempt from the row the close found |
| EscrowPlans.StopsHere | seqpald/escrow_close.go:103-116 | once a check fails nothing further is attempted |
| EscrowMeaning.CancelTakes | seqpald/escrow_spend.go:971-988 | a cancel request takes exactly those listed and not settled or refunded who, if it names nobody, have no delivery made or under way, and else are named and have none under way; nobody twice |
| EscrowMeaning.CoinsAre | seqpald/escrow_spend.go:222-264 | the coins taken are exactly those of the payment asset the scan finds at the subscriptions' addresses, each once, with its own outpoint, amount and subscription, in order |
| EscrowMeaning.FreeIff | seqpald/escrow_spend.go:266-289 | a coin may be taken if and only if the last live spend that has it, those built of the new one's kind aside, is an unsigned cancel and the new one a refund, or there is none |
| EscrowMeaning.RefundTakes | seqpald/escrow_spend.go:1168-1213 | a pass after the deadline takes exactly those not delivered or no longer open, with a coin at their address and none of those on its way anywhere but in an unsigned cancel |
| EscrowMeaning.RefundTakesOnce | seqpald/escrow_spend.go:1208-1213 | and nobody twice |
| EscrowMeaning.CancelMeans | seqpald/escrow_spend.go:993-1001 | a cancel recorded leaves the old spends with the unsigned cancels superseded and itself last, those it takes marked, and every other row as it was |
| EscrowMeaning.RefundMeans | seqpald/escrow_spend.go:1215-1226 | a refund pass supersedes every unsigned cancel and refund, and leaves its own refund as the node's answers say |
| EscrowMeaning.SendingIs | seqpald/escrow_spend.go:793-842 | sending changes one spend's state, as what the node said and what it still shows unspent decide, and rows only if it landed |
| EscrowMeaning.LandedIs | seqpald/escrow_spend.go:892-923 | a landed release settles everyone it covers, a landed cancel or refund returns those not settled or refunded before, each under the spend's own txid, and nobody else's row changes |
| EscrowMeaning.ReturnBuiltIff | seqpald/escrow_spend.go:433-478 | a cancel or refund can be built if and only if there is a coin, all are free, each goes to a script, and each share is within the cap and below its coin |
| EscrowMeaning.ReleaseBuiltIff | seqpald/escrow_spend.go:345-401 | a release can be built if and only if there is a coin, all are free, whoever is paid has a script, and the deductions leave the issuer the minimum in uint64 |
| EscrowMeaning.ExcessIs | seqpald/escrow_spend.go:385-395 | the excess list is of exactly those who paid more than a price set for them, each with their own refund script and their own difference |
| EscrowMeaning.FeesTogetherAre | seqpald/escrow_spend.go:364-372 | the escrow fee of several subscriptions is the sum of their fees modulo 2^64 |
| EscrowMeaning.AttemptIs | seqpald/escrow_close.go:196-252 | one attempt leaves alone what is over, fails when the account is not known or the transfer refused, and succeeds with the transfer recorded, seen or made; it asks for the tokens only when nothing was done before |
| EscrowMeaning.StillSoldAre | seqpald/escrow_close.go:72-80 | the first check is over exactly those not failed, being cancelled or refunded |
| EscrowMeaning.LastLikeIs | seqpald/escrow_close.go:158-177 | what is handed out again is the last live spend of that kind for the same subscriptions, and there is none only if none is |
| EscrowMeaning.CloseRowsAre | seqpald/escrow_close.go:93-147 | a close leaves the rows it attempted as the attempts left them, the failed ones marked once a cancel is handed out, and every other row as it was |
| EscrowMeaning.CloseCovers | seqpald/escrow_close.go:122-147 | its release covers exactly the close's subscriptions that then await release, its cancel exactly those that then await that |
| EscrowRows.LandedRows | seqpald/escrow_spend.go:892-930 | the rows a landing adds are, for each subscription it covers, of a release the fee not booked yet, what it returned and what is left, of a cancel or refund what its outputs pay them, and one network fee for a release; no other row |
| EscrowRows.ReturnIsBooked | seqpald/escrow_spend.go:912-923 | the refund rows a landed cancel or refund adds and its network fee make up its coins, and nothing is booked as released or as a fee |
| EscrowRows.ChargedRows | seqpald/closing.go:345-395 | charging books exactly one fee for each subscription with none booked and a positive quote |
| EscrowRows.FeeIs | seqpald/closing.go:345-362 | a subscription's fee is the first one booked for it, else the one quoted |
| EscrowAnswers.AnsweredIff | seqpald/escrow_spend.go:793-846 | a spend sent stays unanswered for exactly when the node was not reached and nothing of it shows |
| EscrowAnswers.MayBeOutStaysHeld | seqpald/escrow_spend.go:822-828 | a spend that may be out keeps holding its coins; only a refusal or a coin seen gone frees them |
| EscrowAnswers.RefundNeverWaits | seqpald/escrow_spend.go:817-821 | a refund, which nobody signs, is never set back to wait for signatures |
| EscrowAnswers.OnlyLandingSettles | seqpald/escrow_spend.go:793-846 | subscriptions change only when the spend is on chain, and no other spend changes |
| EscrowAnswers.SignaturesLandIff | seqpald/escrow_spend.go:699-787 | signatures put an unsent spend on chain exactly when they verify for a release or cancel, the close has passed for a release, and the node takes it |
| EscrowAnswers.AttemptDecidesIff | seqpald/escrow_close.go:196-252 | an attempt decides a delivery unless it finds one interrupted whose tokens have not arrived |
| EscrowAnswers.NoSecondRequest | seqpald/escrow_close.go:205-229 | after one attempt no later answer brings another request for the tokens |
| EscrowAnswers.AttemptIsFinalIff | seqpald/escrow_close.go:196-252 | later attempts change nothing if and only if the first one decided; one that did not decide changed nothing and asked for nothing |
| EscrowAnswers.DeliveryKept | seqpald/escrow_close.go:205-252 | a recorded delivery is never replaced, and none comes to await release without one |
| EscrowAnswers.OverIsOver | seqpald/escrow_spend.go:696-846 | in every run, careful or not, a spend landed, failed or superseded stays as it is, and signatures over it send nothing |
| EscrowAnswers.ManyTries | seqpald/escrow_close.go:192-252 | over any number of closes one delivery is asked for at most once, by the first attempt only, and once an attempt decides the row stays what it left |
| EscrowAnswers.FirstAnswerDecides | seqpald/escrow_spend.go:1124-1136 | however often a broadcasting spend is sent again, nothing changes until the first answer, and nothing after it |
| EscrowAnswers.FailureIsTrueIff | seqpald/escrow_close.go:207-229 | every event keeps that a failed delivery left no tokens behind, but the failing of one already recorded |
| EscrowAnswers.CloseFailsTrulyIff | seqpald/escrow_close.go:93-122 | a close fails no recorded delivery, and so cancels nobody who has the tokens, if and only if it knows the account of every undecided subscription it finds with one |
| EscrowDesk.Desk.Write | seqpald/escrow_spend.go:44-50 | every write is one event of the state machine, or the process stops before it; an event that is careful keeps the books safe |
| EscrowDesk.Desk.HeldCoins | seqpald/escrow_spend.go:266-289 | the map gives each held coin its last holder, and no other coin anything |
| EscrowDesk.Desk.SupersedeBuilt | seqpald/escrow_spend.go:291-301 | every unsigned spend of the kind but the one kept is superseded, and nothing else changes |
| EscrowDesk.Desk.LiveCoins | seqpald/escrow_spend.go:222-264 | every coin of the payment asset at every address, in the subscriptions' order |
| EscrowDesk.Desk.AllFree | seqpald/escrow_spend.go:441-456 | coins are free if and only if none is held by another spend, an unsigned cancel not counting against a refund |
| EscrowDesk.Desk.PlanReturn | seqpald/escrow_spend.go:433-496 | the dry run answers yes exactly when the coins are free and the transaction can be built, and then with that transaction; EscrowMeaning.ReturnBuiltIff says when that is, and EscrowPromise.RecordedReturnIsAdmitted whom it pays |
| EscrowDesk.Desk.BuildReturnSpend | seqpald/escrow_spend.go:433-504 | a cancel or refund is recorded exactly then, in place of the unsigned ones of its kind; whom it pays is EscrowPromise.RecordedReturnIsAdmitted |
| EscrowDesk.Desk.ChargeFees | seqpald/escrow_spend.go:364-372 | the fees booked are the fees a preview would give, added in uint64 |
| EscrowDesk.Desk.PlanRelease | seqpald/escrow_spend.go:345-419 | a release can be built exactly when its coins are free and the builder's condition holds, excesses and fee included; EscrowMeaning.ReleaseBuiltIff says when that is |
| EscrowDesk.Desk.BuildReleaseSpend | seqpald/escrow_spend.go:345-427 | it is then recorded in place of the unsigned ones, its fees fixed, and without a release the ledger is as it was or its fees fixed; whom it pays is EscrowPromise.RecordedReleaseIsAdmitted |
| EscrowDesk.Desk.HandleCancel | seqpald/escrow_spend.go:944-1004 | a cancel made covers a subscription if and only if it is listed and not settled or refunded and, with nobody named, has no delivery made or under way, else is named and has none under way; it is recorded, exactly those are marked, every other settlement row is as it was, and only unsigned cancels are superseded; else the books are untouched; from books that keep the invariant, a cancel recorded leaves the promise kept, then and ever after, if and only if the request names nobody in a live release |
| EscrowDesk.Desk.SpendLanded | seqpald/escrow_spend.go:844-866 | landed if and only if one of its outputs is unspent, gone if and only if not landed and one of its coins is spent |
| EscrowDesk.Desk.ApplySpend | seqpald/escrow_spend.go:868-933 | the loops over inputs, outputs and subscriptions leave exactly the settlement rows, subscription rows and ledger the landed spend means, which EscrowMeaning.LandedIs and EscrowRows.LandedRows spell out |
| EscrowDesk.Desk.LandSpend | seqpald/escrow_spend.go:803-808 | a landing is one step, applied once, with that ledger |
| EscrowDesk.Desk.FinishBroadcast | seqpald/escrow_spend.go:789-842 | accepted or seen on chain lands it; a spent coin fails it; a refusal sets it back to built, or supersedes a refund; a node not reached leaves it broadcasting |
| EscrowDesk.Desk.HandleSign | seqpald/escrow_spend.go:696-787 | only a built release or cancel with sound signatures is sent, no release before the close, and one already under way is only sent again; the ledger changes only when it lands; safe books stay safe |
| EscrowDesk.Desk.HealBroadcast | seqpald/escrow_spend.go:1124-1136 | the watcher does nothing but send a broadcasting spend again, and books it only when it lands; safe books stay safe |
| EscrowDesk.Desk.FindDue | seqpald/escrow_spend.go:1168-1213 | those due are exactly the ones not the issuer's to release, with coins, none of them on its way somewhere |
| EscrowDesk.Desk.RefundAfterDeadline | seqpald/escrow_spend.go:1147-1226 | the refund covers exactly those not delivered or no longer open, with a coin at their address and none of those on its way; it is recorded if it can be built, the unsigned cancels set aside, sent at once, and booked exactly when it landed; safe books stay safe, wherever it stops |
| EscrowDesk.Desk.AskForTransfer | seqpald/escrow_close.go:228-229 | the intent is written before the tokens are asked for |
| EscrowDesk.Desk.DeliverForEscrow | seqpald/escrow_close.go:192-252 | one attempt leaves exactly the row and the requests its starting row and the answers call for |
| EscrowDesk.Desk.Recheck | seqpald/escrow_close.go:101-109 | the recheck asks for a release of the delivered so far and all still to try |
| EscrowDesk.Desk.DeliverAll | seqpald/escrow_close.go:93-122 | the number of attempts and every row are those of the loop in CloseLoop |
| EscrowDesk.Desk.CurrentOrNewSpend | seqpald/escrow_close.go:149-190 | the last live spend asked for the same subscriptions is handed out again, else a new one exactly when it can be built |
| EscrowDesk.Desk.PrepareClose | seqpald/escrow_close.go:42-88 | a close may proceed if and only if the close has passed, the deadline is not near, and a release of everyone not already failed could be built |
| EscrowDesk.Desk.CloseCovenant | seqpald/escrow_close.go:91-147 | the deliveries, then the release of what is delivered and the cancel of what failed, each current or new, and the failed marked exactly when a cancel is handed out; the same condition as HandleClose on what follows |
| EscrowDesk.Desk.HandleClose | seqpald/closing.go:118-150 | a close refused changes nothing; one that proceeds does exactly that under the lock: the rows attempted are as their attempts leave them and no other changes but the failed ones marked, the release made covers exactly those that then await release and the cancel made those that await it, and the fees of the delivered are fixed with the release or the ledger is as it was; served to its end from books that keep the invariant, it leaves books that stay safe if and only if no cancel it leaves in flight covers a subscription of its release; with the cancels over its subscriptions marked it keeps the invariant wherever it stops |
| EscrowPromise.CarefulDeskIsSafe | seqpald/escrow_spend.go:44-50 | a desk whose steps were all careful has safe books, wherever it was stopped |
| EscrowPromise.UncutDeskIsOrderly | seqpald/escrow_spend.go:266-301 | between calls none of which was cut short no coin is in two live spends, every cancel in flight is marked, and careful cancels alone make the books safe |
| EscrowPromise.ServeOne | seqpald/escrow_spend.go:696-1226 | whichever request a desk serves, wherever the process stops, the invariant behind the promise is kept as long as the store, asked before, says that a cancel names nobody in a live release and that the cancels in flight over a close are marked |
| EscrowPromise.Serve | seqpald/escrow_spend.go:40-49 | any requests in any order, named cancels and restarted processes included: while each was careful when it came, the books are safe and stay so; requests that name nobody are careful as long as nothing was cut short; and with nothing cut short no coin is in two live spends |
| EscrowPromise.RunOffering | seqpald/escrow_spend.go:40-49 | the same from the offering's first day; a process that does not stop serves them all |
| CloseChecks.CloseGuardsItsDeliveries | seqpald/escrow_close.go:72-121 | each delivery of a close is attempted only when a release over those delivered plus all still to try could be built |
| CloseChecks.FinalReleaseCanBeBuilt | seqpald/escrow_close.go:122-137 | if no attempt fails after the last check, the final release can be built |
| EscrowPromise.RecordedReleaseIsAdmitted | seqpald/escrow_spend.go:345-427 | every release the desk records spends exactly the coins listed, at the close's lock time, and satisfies the release leaf of all of them; output by output it pays in the payment asset what is shown, the issuer first, the platform second if there is a fee, the network last, and each subscriber, at that subscriber's own refund script, exactly what they overpaid; its network fee is the price of its own size; and it spends exactly its coins if and only if what it pays besides the issuer stays below 2^64 |
| EscrowPromise.RecordedReturnIsAdmitted | seqpald/escrow_spend.go:433-504 | every cancel or refund it records spends coin k by input k, at lock time 0 or the deadline's, and returns it by output k, less its share, to the refund script of that coin's own subscriber, as it is shown; it conserves the coins, its network fee is the price of its own size, and it is admitted by coin k's leaf for that script |
| SettleV1.EventKeeps | seqpald/closing.go:266-315 | every event of the close keeps: at most one payment under the marker, and only beside a row releasing, released or over |
| SettleV1.ReleasedAtMostOnce | seqpald/closing.go:164-315 | over any number of closes stopped anywhere, no two payments ever carry the marker |
| SettleV1.NeverAfterFailure | seqpald/closing.go:176-178 | after a recorded failure nothing more is sent under the marker and the row never changes |
| SettleV1.FindSend | seqpald/escrow.go:265-302 | the lookup finds a payment under the marker if and only if there is one |
| SettleV1.Closer.Release | seqpald/closing.go:266-315 | a release sent before is found and not sent again; otherwise it is sent once, its answer decides, and its txid is recorded |
| SettleV1.Closer.SettleOne | seqpald/closing.go:164-315 | the two-transaction path: a close resumes from the recorded row and leaves a finished one alone; it ends settled exactly when the release was recorded, found, or sent and answered, failed otherwise, unless the tokens were not delivered; the wallet gains at most the one payment, and the row the delivery recorded before, else the one made or seen |
| EscrowFees.PublishedFees | seqpald/escrowprice.go:60-122 | every subscription's share is the one its own group's totals give, whatever order the currencies are taken in |
| EscrowFees.PriceGroup | seqpald/escrowprice.go:85-119 | one group's shares are written and no other group's touched |
| EscrowFees.DaysAre | seqpald/escrowprice.go:75-78 | whole days of 86400 seconds since the money came |
| EscrowFees.AccrualIs | seqpald/escrowprice.go:79-79 | a quarter of a percent for every 30 days, while it fits |
| EscrowFees.TotalIs | seqpald/escrowprice.go:25-102 | a group's fee is what accrued, at most 3% of its funds, but at least 5000 dollars, of 100,000,000 units in USDX and of 100 in USD, with no minimum elsewhere |
| EscrowFees.ShareIs | seqpald/escrowprice.go:104-119 | a subscription owes the part of the total it accrued of the accruals, or of the funds while nothing accrued, and is charged no more than its deposit |
| EscrowFees.TotalBounded | seqpald/escrowprice.go:94-102 | the total is at least the minimum and at most the larger of cap and minimum, and the accrual itself while between them |
| EscrowFees.OwedApportionsTheTotal | seqpald/escrowprice.go:104-119 | the shares owed add up to at most the total and fall short by less than the number of subscriptions; no fee exceeds its deposit |
| EscrowFees.TotalNeverFalls | seqpald/escrowprice.go:71-102 | a group's total, added up in uint64 as the program does, never falls as time passes if at the later time every quotient fits and the accruals' sum is harmless |
| EscrowFees.TotalIsPublishedIff | seqpald/escrowprice.go:85-102 | the program's total is the published one if and only if the accruals' sum is below 2^64, or wraps to no less than the cap, or the minimum reaches the cap; else it is too low |
| EscrowFees.WrappedAccrualsOweNothing | seqpald/escrowprice.go:85-102 | two deposits whose quotients fit accrue sums that wrap to nothing, and the total falls to zero |
| EscrowFees.AnOverlongDepositOwesNothing | seqpald/escrowprice.go:75-79 | once a quotient does not fit it reads as zero, and the total falls |
| Payout.EventKeepsIff | seqpald/distribution_tx.go:94-121 | an event keeps the run's invariant if and only if it is not a stop with an intent half written |
| Payout.StopKeepsIff | seqpald/distribution_tx.go:94-121 | whether a stop fell inside an intent can be read from the store: the invariant holds after it exactly when a run in payment has no row still planned |
| Payout.EveryRunPaysOnce | seqpald/distribution_tx.go:37-125 | of the payout in one transaction: over any plans, payouts, retries, refusals, partial rounds and nodes not reached, no row is in two transactions that may have been broadcast, unless a stop fell inside an intent |
| Payout.PaidStays | seqpald/distribution_tx.go:218-233 | of the payout in one transaction: in every run, stops inside an intent included, a paid row never changes again |
| Payout.MarkIsTrueIff | seqpald/distribution_tx.go:214-221 | marking a row paid is true, a transaction paying it having been accepted, if and only if the row names the recorded payout |
| Payout.EventKeepsTrueIff | seqpald/distribution_tx.go:94-121 | while every row recorded paid was paid and every row a run in payment will mark names its payout, an event leaves that so, stops included, if and only if it is not a payout recorded while some row is being paid by another transaction |
| Payout.EveryPaidRowWasPaid | seqpald/distribution_tx.go:37-125 | in every run with no stop inside an intent or inside a rollback, every row recorded paid is in a transaction that may have been broadcast, and in one only |
| Payout.SplitIntentPaysTwice | seqpald/distribution_tx.go:94-101 | a stop between the run's write and its row's makes the program pay a holder twice |
| Payout.RollbackCutShortRecordsAPayment | seqpald/distribution_tx.go:114-119 | a rollback cut short ends with a row recorded paid that nothing paid |
| PayoutDesk.PayDesk.WritePlan | seqpald/distribution_tx.go:251-293 | only pending and failed rows are planned, each as PlanIs says |
| PayoutDesk.PlanIs | seqpald/distribution_tx.go:251-293 | a row pending or failed has no payment if its net is nothing, is skipped without an address or with its own enclave's, fails if the address could not be checked or read, else is planned to that address; any other row is as it was |
| PayoutDesk.PayDesk.RecordIntent | seqpald/distribution_tx.go:94-101 | the run and then every planned row, with its own output, are recorded before anything is sent |
| PayoutDesk.PayDesk.BroadcastPayout | seqpald/distribution_tx.go:195-246 | accepted, or seen on chain, marks and books every row being paid and completes or reopens the run; anything else marks and books nothing; wherever it stops the rows before that point are marked, and all but perhaps the last of them booked; paid rows and the invariant are kept |
| PayoutDesk.AnswerIs | seqpald/distribution_tx.go:197-214 | a payout counts as taken if the node takes it, else as landed if an output of it paying a row still being paid is unspent |
| PayoutDesk.SettledIs | seqpald/distribution_tx.go:215-246 | every row being paid is paid and no other changes; the run is complete if and only if every row is then paid, skipped or without payment, else it is to be planned again with no payout |
| PayoutDesk.BookingsAre | seqpald/distribution_tx.go:218-229 | one booking for each row being paid, in order, of its net amount under the payout's txid |
| PayoutDesk.PayDesk.RollBack | seqpald/distribution_tx.go:114-119 | a refusal sets back the run and exactly the rows it had marked |
| PayoutDesk.PayDesk.Execute | seqpald/distribution_tx.go:37-125 | a recorded payout is only sent again; a transaction is recorded only if it pays every planned row; only a refusal takes it back; a request served to its end keeps that nobody is paid twice, one cut short exactly when the store shows its intent whole; and the rows recorded paid were paid if and only if, should the node have what was sent, every row being paid before named it |
| PayoutDesk.IntendedAre | seqpald/distribution_tx.go:99-101 | each planned row is marked with its own output and no other row is touched |
| PayoutDesk.RecordedPayoutPays | seqpald/distribution_tx.go:70-125 | a transaction is recorded only if the node would take it and it pays every planned row by an output of its own, to its script, of its net amount of the asset, in the clear |
| PayoutDesk.RefusalRestores | seqpald/distribution_tx.go:114-119 | a refused payout leaves the rows exactly as they were |
| PayoutDesk.ExecutedTrueIff | seqpald/distribution_tx.go:37-125 | over all requests and answers, what is recorded paid stays true if and only if, should the node have what is sent, every row being paid named that transaction; and nothing is left over that was not found |
| PayoutDesk.ResumedLedgerIsCompleteIff | seqpald/distribution_tx.go:218-231 | the call that takes up where a stopped one left off completes the ledger if and only if the stop did not fall between marking a row paid and booking it |
| WalletPayout.EveryRunPaysOnce | seqpald/payouts.go:319-391 | over any executions, hand-overs, wallet payments made, voided, released and returned, and stops outside an intent: while a run is handed over only with nobody on the list paid and no request about to write, nobody is paid by two transactions or by a transaction and a wallet payment |
| WalletPayout.HandOverStaysOnceIff | seqpald/payouts.go:319-391 | a hand-over leaves a run that can never pay anybody twice if and only if nobody it lists is recorded paid and no request to execute has been let in that has yet to write |
| WalletPayout.HandedOverPaysTwice | seqpald/distribution_tx.go:233-240 | without any stop: a partial round pays the first of two holders, the run is handed over with both, and the wallet pays the first again |
| WalletPayout.StepKeepsPaidIff | seqpald/payouts.go:380-388 | a paid row changes only by being listed anew, by another payment recorded of it, or by a payment coming back |
| WalletPayout.PaidStays | seqpald/payouts.go:887-951 | in every run that hands over only while nobody is paid, stops inside an intent included, a paid row stays as it is until its payment comes back, and then stays so |
| PayoutMatch.MatchOutputs | seqpald/distribution_tx.go:136-174 | first fit is sound, and succeeds exactly when some one-to-one assignment of rows to outputs exists |
| PayoutMatch.FirstFit | seqpald/distribution_tx.go:152-166 | the first unused output paying exactly the row's script, asset and amount with no blinding nonce |
| PayoutMatch.TakenMeansHopeless | seqpald/distribution_tx.go:150-172 | when every payer of a row is taken, no assignment at all exists |
| Register.WithholdingFor | seqpald/distribution.go:59-112 | nothing is withheld of a US person (W-9); of anyone else the floor share at 15% for the fourteen treaty countries, 10% for Japan and 30% elsewhere (W-8BEN), whatever the case of the country code; and 30% of a holder nothing is known of |
| Register.SplitConserves | seqpald/distribution.go:332-355 | the gross amounts never overspend the pool, the dust is less than the number of positive holders, and every row is its net and what is withheld |
| Register.FrozenAreDue | seqpald/distribution.go:332-355 | each row frozen is of a holder with a balance on the register, of the floor share of the pool their balance is of all balances, withheld from at their own rate, with the rest as net |
| Register.Snapshot.Freeze | seqpald/distribution.go:332-347 | the rows frozen are the first ones of one split, as many as there were writes |
| Register.Snapshot.Take | seqpald/distribution.go:262-372 | a snapshot taken has the totals of its frozen rows, each of them the floor share of the pool of a holder on the register, withheld from at the rate above, and all such holders have one; one resumed never reads the register again; a register that cannot be read, or holds nobody, leaves nothing written |
| Register.FrozenReachEveryoneIff | seqpald/distribution.go:288-304 | frozen rows reach every holder if and only if none was left to freeze when the process stopped |
| ActionClaims.ClaimedWithinSnapshot | seqpald/m10store.go:393-426 | however many claims are made, they never claim more atoms than the snapshot holds |
| ActionClaims.PaidWithinPool | seqpald/actions.go:484-490 | their gross dividends never exceed the pool |
| ActionClaims.ActionBook.InsertClaim | seqpald/m10store.go:393-426 | a claim is written whole if none of its outpoints is claimed, else nothing of it is |
| ActionClaims.ActionBook.Weigh | seqpald/actions.go:412-430 | claimed atoms are those of the outpoints, each in the snapshot under the claimant's script |
| ActionClaims.ActionBook.HandleClaim | seqpald/actions.go:395-509 | a claim is registered exactly when something is named, every outpoint among it is the key's, the fields and the proof are good, and nobody has claimed one; it is for the atoms of those outpoints, and a dividend for the floor share of the pool they are of the snapshot, withheld from at the claimant's rate; refused, it says the first thing wrong; blank names are passed over, so a claim naming only blanks is registered for nothing; claims stay disjoint |
| AssetWalk.Visit | seqpald/actions_snapshot.go:283-298 | one transaction gives exactly its unspent scripted outputs, and everything it moved into is followed or seen |
| AssetWalk.Walk | seqpald/actions_snapshot.go:253-301 | an emptied frontier means exactly the unspent scripted outputs reachable from the issuance, without duplicates; short of that it took 5000 steps and gives some of them; no rows exactly when a request for a transaction it visits fails |
| AssetWalk.HolderRowIs | seqpald/actions_snapshot.go:283-298 | a row is of an unspent output of the asset, with that output's own script and value |
| AssetSupply.MovedIsTakenIn | seqpald/actions_snapshot.go:253-301 | all that moved out of the walk's transactions was taken in by them |
| AssetSupply.WalkAccountsForSupply | seqpald/actions_snapshot.go:253-301 | the rows of a finished walk and the scriptless outputs it skipped make up the amount issued |
| ActionSnapshot.AssetUtxos | seqpald/actions_snapshot.go:135-177 | index and walk are united by outpoint, the walk's word first, refused only when neither could speak |
| ActionSnapshot.FrozenSnapshot.InsertIfAbsent | seqpald/m10store.go:316-322 | a row is frozen unless its outpoint already is |
| ActionSnapshot.FrozenSnapshot.Take | seqpald/actions_snapshot.go:63-132 | the snapshot's total is always that of its frozen rows, resumed or not |
| ActionSnapshot.WalkedHoldersAreListed | seqpald/actions_snapshot.go:135-177 | every holder a finished walk can reach is on the united list as the walk saw it |
| Rules.Normalize | seqpald/taxonomy.go:105-116 | a residence code is two letters, the one special code, or nothing, and has no colon |
| Rules.NormalizeReads | seqpald/taxonomy.go:105-116 | a two-letter code, or the special one, is read whatever its case and whatever space is around it |
| Text.AnyCase | seqpald/compiler.go:116-134 | access levels and tiers are read whatever their case |
| Rules.TokenParts | seqpald/characterization.go:200-205 | splitting a token gives back the code and the tier it was made of |
| Rules.CompileRules | seqpald/compiler.go:103-142 | a category is allowed if and only if some row outside the floor admits it and the clamp leaves it, whatever order the rows are taken in |
| Rules.RowAdmitsIff | seqpald/compiler.go:76-137 | a standard row admits retail, accredited, professional, high-net-worth and sophisticated investors, a restricted one accredited and professional ones, any other nobody; and of these those it asks for |
| Rules.MatrixAdmitsIff | seqpald/compiler.go:103-137 | a category is admitted if and only if some row outside the nine sanctioned jurisdictions admits it |
| Rules.FloorIsOut | seqpald/compiler.go:110-115 | no category of a sanctioned jurisdiction is ever admitted |
| Rules.Clamp | seqpald/characterization.go:188-210 | exactly the clamped tokens are taken out |
| Rules.ClampedIff | seqpald/characterization.go:188-210 | the clamp takes the non-professional categories of the 27 member states, for a fund only |
| Rules.CompileDeny | seqpald/compiler.go:151-164 | an offshore period makes one deny exactly when it ends at a positive height, until that height, for the prefix it names or the United States' |
| Rules.EvalEligibility | seqpald/id.go:634-657 | a holder is eligible exactly when not frozen, in the list if there is one, and under no deny in force |
| Rules.NothingDeniedIff | seqpald/id.go:645-655 | no deny stands against a holder if and only if every deny that is a prefix of one of their categories has ended |
| Rules.CompileThenEval | seqpald/id.go:634-657 | compiling and evaluating means what the matrix says, whenever any category is allowed; with none allowed, nobody is limited |
| Rules.ClampIs | seqpald/characterization.go:188-210 | of the tokens a matrix makes, the clamp takes those of member states that are not professional |
| Rules.AdmittedFloor | seqpald/compiler.go:275-298 | the gate lists exactly the floor jurisdictions whose access admits anyone |
| Rules.FloorRowIff | seqpald/compiler.go:275-298 | a row counts when its code is one of the nine and its access standard or restricted |
| Rules.GateMakesTheSkipIdle | seqpald/compiler.go:110-115 | once the gate lists none, the compiler's floor skip removes nothing |
| Rules.ExcludingEveryoneAllowsNothing | seqpald/compiler.go:116-142 | a matrix that excludes everyone admits no category, and so compiles to the empty list |
| Limits.WindowLimiter.Allow | seqpald/challenge_limit.go:47-74 | for a clock that does not run back, a call is accepted exactly when the whole history of accepted calls would accept it |
| Limits.RateLimiter.Allow | seqpald/deploy.go:56-76 | the same, with only the caller's list and the common one pruned |
| Limits.PrunedIsRecent | seqpald/deploy.go:78-86 | pruning what was pruned earlier is pruning the whole history |
| Limits.WithinIff | seqpald/challenge_limit.go:47-74 | a call is within budget if and only if fewer calls of its key, and of all, than the budgets are left in the window ending with it |
| Limits.NoWindowOverBudget | seqpald/challenge_limit.go:23-28 | no window of the configured length, wherever it starts, holds more accepted calls than a key's budget or the common one |
| Money.SharesConserve | seqpald/distribution.go:374-398 | floor shares of a total over weights that make up the whole never overspend it and leave less than one unit each |
| Money.MulDivMonotone | seqpald/distribution.go:374-398 | a larger factor never gives a smaller quotient while it fits a uint64 |

## Assumptions

* `TransitionEscrowSpend` and `applyEscrowSpend` are one step: a crash between them would leave
  the books unapplied and nothing would heal them (`seqpald/escrow_spend.go:805-809`).
* The per-issuance lock gives mutual exclusion, each store write is reliable and atomic, and no
  block is ever undone.
* Within one call the chain scan, fee rate and price list given to one build are fixed; different
  builds of a call may see different ones, except the first check and the rechecks of one close.
* `escrowFindSend` is an exact lookup; the program reads a failed request as "not found".
* Sums of atoms recorded for one subscription when a spend lands fit a uint64, and the `Detail`
  amounts the program decodes through a float are at most 2^53.
* A refund the issuer later makes from its own wallet of money it has received
  (`seqpald/payouts.go:409-485`) writes a refund on settled rows; it is not the escrow's, and "released
  and refunded" here means out of the escrow alone.
* A wallet payment reported void or expired never goes out; one that was referred to may until then.
* A subscription is credited at any time while unpaid or refunded, whatever else is under way.

## Left out

- Atomic close and the older close's refund leg: they reconcile by a balance guess; of the refund leg `SettleV1` models the effect on the row.
- Signatures, taproot addresses, serialization and virtual size: whether signatures verify is a parameter, size and txid are any functions of the transaction.
- Handlers' parsing, JSON, SQL, audit, sessions, notices, documents, the front end, node and explorer clients: only the state they read and write and the answers they give.
- Store and chain read errors that return before anything is written: they change nothing.
- Order of listings: coins at one address, holders by account and compiled categories are taken as given, not sorted; ids are compared as values, so a list joined by commas is compared as a multiset.
- Text outside ASCII in the trimming and case folding of codes and access levels.
- The ledger row a delivery writes (`seqpald/escrow_close.go:230-235`) and the audit, error and vesting notes beside a row: no total or law of the escrow reads them.
- The watcher's pause after a pass that found no coin (`seqpald/escrow_spend.go:1147-1159`): it only delays the next one.
- The chain's clock, the price list, mandates and policy answers are parameters; the limiters' clock is any that does not run back.
- The limiters prune into a new list where the program overwrites the old one in place.
- Liveness: that a refund left built by a crash is ever sent, or that a payout not reached and later refused is ever replaced.
- AssetWalk.Walk: the two requests for one transaction are one, which is answered or not.
- Register.Snapshot.Take: a register that is read is given in account order, and the run is one that has been funded.
- Payout.EveryRunPaysOnce: the wallet payment of the same run is not among its events; `WalletPayout.EveryRunPaysOnce` has it.
- Payout.PaidStays: neither is the wallet payment, which rewrites rows; `WalletPayout.PaidStays` has it.
- The wallet payment's handlers are events of a state machine, one for every store write to the run and its rows; their lists, bounds, fees and collected amounts are not modelled.
- SettleV1.Closer.SettleOne: the atomic leg and the ledger rows the close writes are not modelled, nor the refund of an undelivered subscription, which it hands over.
- Dividend payment of a claim, vesting stamps, velocity, holder caps and lockups: they would add members of the same kind or none with an invariant.
