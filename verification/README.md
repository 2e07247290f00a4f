# Mostro: concurrency and crash-safety model

Mostro is a daemon that runs peer-to-peer trades. Message handlers, scheduler
jobs and Lightning subscribers all write the same order rows and publish to the
same relays. This project models the parts of the daemon whose correctness
rests on a concurrency or crash argument, and proves those arguments over every
run. `dafny verify dfyconfig.toml` checks all of it.

The row and the database come first: `Orders` gives the effect of each guarded
SQL statement on a row, `Database` has one method per statement, and `Runs`
carries an invariant along a run. On top of them stand five components.

* **Publication** (`Registry`, `Relay`, `Republish`, `Publication`,
  `Quiescence`, `CasRace`). Replaceable events get strictly increasing
  timestamps from a pruned registry, so a relay converges whatever it is
  delivered. Failed publishes are queued under a generation and never forgotten.
  A background republish never supersedes a live transition. A handler that
  loses a pre-trade race repairs what it had announced.
* **Buyer payout** (`Payout`, `PayoutSafety`, `PayoutJobs`). Claims, heartbeats
  and releases compare a payment hash and a one-second token; holders of stale
  tokens may act at any time. The dispatcher and the reconciler are written from
  the statements.
* **Pre-trade window and Cashu lock** (`PreTrade`, `Cashu`, `CashuHandlers`).
  Takes, maker cancels, bond promotions and escrow locks write from stale
  snapshots.
* **Escrow guardian, hold invoices, duty timeouts** (`Guardian`, `Timeouts`,
  `HoldInvoice`, `Duty`). Block-height deadlines, replayed LND events, restarts,
  crash points between writes, and the clock of whoever owes the next move.
* **Replay guard** (`SpamGate`). A pruned map that answers as the full history
  of sightings would, and the acceptance prologue that feeds it.

Where the code works by updating state in place (registry, queue, tables,
replay guard, jobs) the model is a class or a method with its loop, proved
against a function of the old state. The interleaving results are stated over
labelled transition systems: "in every state of every run".

Several promises hold only under a condition. Each of these conditions is proved
exact, in both directions:

* A lost pre-trade race is repaired on the book if and only if the winning
  status is published. On a sell order a take that goes straight to
  `waiting-payment` beats a maker cancel, and the book keeps showing `canceled`
  (`CasRace.RepairConverges`, `CasRace.UnpublishedWinnerStaysHidden`).
* The guardian's half-window query misses no due order if and only if the margin
  is below the CLTV delta (or the delta is zero): the window clamps a larger
  margin, the due test does not (`Guardian.PrefilterSoundIff`).
* A live hold escapes the resubscribe selection if and only if its order became
  escrow-backed after the paid flow wrote the row and lost the write of
  `invoice_held_at` (`HoldInvoice.LiveHoldWatched`).
* Only the holder of a payout claim can touch or release it if and only if no
  stamp repeats the hash and second of another claim's ticket; a claim released
  and taken again within one second does (`Payout.OwnershipIff`,
  `Payout.SameSecondReclaim`).
* No order is paid out twice if and only if LND registers what it is handed
  within the reconciler's grace window, given that every stamp is new
  (`PayoutSafety.NeverTwiceIff`).
* The duty clock is fair if and only if the buyer was not asked by a resume whose
  promotion a reset had wiped: the resume compares the status only, so a bonded
  buyer who cancels meanwhile is asked with `taken_at = 0` and timed out at once
  (`Duty.ClockFairIff`, `Duty.OrphanedIff`, `Duty.OrphanedAtOnce`).
* A payment can be left uncredited in exactly two ways, one of them a timeout
  whose reset failed (`HoldInvoice.UncreditedUntilClosed`,
  `HoldInvoice.MismarkedIff`).
* A stored Cashu token is lost if and only if the expiry job writes the row it
  read before the order was taken (`Cashu.TokenLostIff`).
* A background republish supersedes no live transition if and only if a handler's
  gap and the reconciler's delay together fit inside the quiet window
  (`Quiescence.SafeIffWindowFits`).
* An order that left the pre-trade window is frozen until a reset if and only if
  no `add_invoice` write meets it in `waiting-buyer-invoice`: the statement
  compares the status only, so a stale one replaces the whole take
  (`PreTrade.RowFrozenAfterExit`). From the window itself such a write wins like
  any take.
* An event can be accepted twice if and only if it is dated more than 50 seconds
  ahead of the clock that first let it in (`SpamGate.AcceptedTwiceIff`).

Code and comment disagree in one place that the model touches: the comment on
`create_status_tags` lists four public states, but `completed-by-admin` is
published under its own name. The model follows the code.

## Model

| member | source | states |
|---|---|---|
| Registry.StampsStrictlyIncrease | src/util.rs:993-1047 | Over any history of stamps for any keys, pruning included, the stamps of one key strictly increase, if no candidate lags the largest stamp issued so far by 48 hours or more |
| Registry.EveryStampRemembered | src/util.rs:993-1034 | The pruned map still carries every stamp or a later one of its key, or dropped it because some other stamp was 48 hours newer |
| Registry.ClockStepBackTies | src/util.rs:993-1034 | The 48-hour bound is tight: a full map and a clock exactly 48 hours back yield two equal stamps for one key |
| Registry.NextStamp | src/util.rs:1020-1034 | The stamp is the least timestamp that is not before the candidate and after the key's last |
| Registry.FewStampsStrictlyIncrease | src/util.rs:993-1034 | Up to 16384 stamps nothing is dropped and the stamps of one key strictly increase on any clock |
| Registry.StampBounded | src/util.rs:1020-1034 | Over any history no stamp exceeds the largest candidate so far by more than the number of earlier stamps of its key |
| Registry.TimestampMap.MonotonicCreatedAt | src/util.rs:1020-1034 | The in-place stamp is the one the history function gives: the candidate, or one second past the key's last; the map is pruned only at the threshold |
| Registry.OrderbookRegistry.StampOrderbookEvent | src/util.rs:1036-1058 | Timestamp and generation are issued together; the generation is one more than any before |
| Registry.OrderbookRegistry.TryStampQuiescent | src/util.rs:1060-1085 | A stamp is granted exactly when the order has been quiet long enough; a refusal changes nothing; a granted stamp is not bumped |
| Relay.HeldIsUnbeaten | src/util.rs:962-992 | A relay under NIP-01 holds something it was sent, and nothing it was sent is newer, or as new with a lower id |
| Relay.RelaysAgree | src/util.rs:962-992 | Relays that saw the same events agree, in any order and with duplicates |
| Relay.HeldIsLatestDelivered | src/util.rs:1020-1058 | With strictly ordered revisions the lowest-id tie-break never decides: the latest one delivered is held |
| Relay.RelayConverges | src/util.rs:1020-1058 | Whatever subset of an order's stamped revisions reaches a relay, in any order and with repeats, it ends on the latest-stamped one delivered |
| Republish.Marked | src/util.rs:1166-1185 | A recorded failure is queued with at least its generation and one attempt; neither generation nor count is lowered |
| Republish.Requeued | src/util.rs:1187-1199 | Merging a drained entry back lowers neither the generation nor the attempts of either side |
| Republish.RepublishQueue.MarkFailedAt | src/util.rs:1178-1185 | The in-place update is `Marked` |
| Republish.RepublishQueue.Requeue | src/util.rs:1192-1199 | The in-place merge is `Requeued` |
| Republish.RepublishQueue.ClearUpTo | src/util.rs:1221-1230 | A success removes the entry only if the recorded failure is not newer |
| Republish.RepublishQueue.TakeAll | src/util.rs:1236-1243 | The drain returns every entry and leaves the queue empty |
| Republish.MarkPublishFailed | src/util.rs:1206-1215 | A failure found away from the stamping path is queued under a generation that no success stamped so far can clear, whenever it arrives; no other entry changes and no queued generation exceeds the issued ones |
| Republish.RepublishIfQuiescent | src/util.rs:1326-1424 | Which registry and queue changes follow from each outcome of the publish: nothing without a stamp, cleared on full acceptance, marked under the new generation on rejection |
| Republish.ReconcileEntry | src/scheduler.rs:1103-1157 | One drained entry meets exactly one fate and no other entry or order's quietness is disturbed |
| Republish.ReconcileOnce | src/scheduler.rs:1101-1159 | After a whole pass, the clock read anew for each order, every drained entry was dropped, kept as it was, charged one attempt, or charged one under a newer generation, as its attempt deserved; quiescence skips and reload errors cost nothing |
| Publication.NoFailureForgotten | src/util.rs:1162-1243 | In every state of every interleaving of sends, outcomes, drains and requeues, a failure no full success has overtaken is queued, in the reconciler's hand, or given up, under at least its generation; queued generations never exceed issued ones |
| Publication.BoundedChurn | src/scheduler.rs:1101-1157 | Per episode the reconciler adds at most four failed attempts to the one that opened it, and gives up only after five recorded failures |
| Quiescence.RepublishSeesEveryTransition | src/scheduler.rs:1076-1135 | If publish-to-persist gap plus read-to-stamp delay is below the quiet window, every transition announced before a republish was resolved when the reconciler read the row |
| Quiescence.LaterTransitionOutorders | src/util.rs:1060-1085 | A transition announced after a republish gets a strictly larger stamp, even if the registry was pruned in between |
| Quiescence.WideGapSupersedes | src/util.rs:1060-1085 | For every timing whose gap plus delay reaches the quiet window there is a run that republishes a pre-transition row over its transition |
| Quiescence.SafeIffWindowFits | src/util.rs:1060-1085 | No run lets a republish supersede an announced transition if and only if gap plus delay is below the quiet window, whatever its length |
| CasRace.NewestTrueOrUnrepaired | src/util.rs:1587-1616 | At every moment after a published winner committed, the newest revision carries its status or belongs to a loser whose repair is outstanding or failed |
| CasRace.RepairConverges | src/util.rs:917-960 | Once all handlers settled, the highest-stamped revision carries the winner's status if and only if that status is published: a cancel won, or a take after which the taker owes the next move |
| CasRace.RelaysShowWinner | src/util.rs:917-960 | Every relay that received the last revision then shows the winner, as canceled or as in progress, whatever else it received |
| CasRace.RepairStamp | src/util.rs:950-960 | A repair carries the winner's status and is dated one second ahead of the clock, or one past the order's last stamp |
| CasRace.PublicNames | src/nip33.rs:317-345 | Shown as `pending` exactly while takeable, a bond in progress included, as `success` exactly on success, as `canceled` exactly when it ended without a trade, expiry included |
| CasRace.UnpublishedWinnerStaysHidden | src/nip33.rs:323-345 | A run, for any pending sell order, in which the committed take is hidden and the book shows the losing cancel |
| Database.Db.CasCompletePretradeTake | src/db.rs:777-820 | Succeeds from pre-trade, and from `waiting-buyer-invoice` only for `add_invoice`; a miss changes no row |
| Database.Db.UpdateOrderInvoiceHeldAt | src/db.rs:643-664 | Changes that one column of that one row |
| Database.Db.ClaimOrderStatus | src/db.rs:890-911 | Succeeds exactly from the expected status with no escrow locked |
| Database.Db.UpdateOrderCashuEscrow | src/db.rs:840-875 | Locks exactly if the row is in the expected status, not locked, and no other order holds the token |
| Payout.PayoutConserved | src/db.rs:1044-1270 | In every run, with no clock assumption: claims minus releases is one with a marker and zero without; the retry job only sees unclaimed orders, the reconciler only claimed ones and every settled one without a token; a stale ticket can only hit a claim for the same payment |
| Payout.OwnershipIff | src/db.rs:1079-1223 | Throughout a run a touch or release succeeds only for the live claim's holder, if and only if no successful claim or touch stamps a payment hash and second that another claim's ticket already carries |
| Payout.OnePaymentAtATime | src/app/release.rs:670-800 | If every stamp is new, at most one dispatched payment is unreleased: a second payout is sent only after a holder of the first let go |
| Payout.LaterSecondsSuffice | src/db.rs:1079-1096 | If re-claims fall in later seconds and touches in none earlier, every stamp is new and only the holder ever succeeds |
| Payout.SameSecondReclaim | src/db.rs:1079-1096 | A run, for any claimable row, hash and second, in which the first holder owns the second claim |
| Payout.StampedClaimNotReconciled | src/db.rs:1239-1270 | On a clock that never goes back, a claim stamped less than the grace window ago is not selected for reconciliation |
| Payout.HeartbeatHoldsClaim | src/app/release.rs:56-61 | A claim touched every 20 seconds is never reconciled, whatever the configured retry interval, since the window is at least 30 seconds |
| Payout.AbandonedClaimReconciled | src/scheduler.rs:247-297 | An untouched claim is selected exactly once the order is settled and the grace window has passed |
| Payout.RetryIffFailed | src/db.rs:1044-1062 | The retry job selects an order exactly while it is settled, unclaimed, and its payout failed: from the start, by the owner of a claim, or by a recorded failure that held none |
| PayoutSafety.NeverTwoPayouts | src/app/release.rs:1093-1127 | With tasks holding stale tickets, a reconciler that trusts LND only about claims past the grace window, and LND registering payments late: in no state of any run do two payments of one order exist that may both settle, if LND registers what it is handed within the window |
| PayoutSafety.SlowRegistrationPaysTwice | src/scheduler.rs:271-275 | For every longer registration time, a run, for any claimable row, in which the reconciler lets go of an unregistered payment and the retry sends a second |
| PayoutSafety.NeverTwiceIff | src/app/release.rs:709-716 | No run pays an order twice if and only if LND registers what it is handed within the grace window |
| PayoutJobs.DoPayment | src/app/release.rs:594-938 | With other tasks writing the table during every wait, the payment is sent exactly if the claim was won and every heartbeat and the last check still find it; once sent the order ends as the stream decides, or, if it does not, re-armed exactly if LND answers the failed send with failed, unknown or no record, and claimed otherwise, a timed-out send included; an address that cannot be paid is recorded as a failure without a claim |
| PayoutJobs.Watch | src/app/release.rs:812-881 | The first update that decides decides: a recordable success leaves the order `success` with its event and no claim, whatever follows; a failure leaves it re-armed, unless a later success finishes it; before that nothing changes |
| PayoutJobs.ReconcileInflightPayout | src/app/release.rs:1128-1207 | For the claim's owner, answer by answer: failed, unknown, no record and a malformed hash re-arm the order, in flight and a failed lookup keep the claim, settled finishes it if that can be recorded; a stale ticket releases and re-arms nothing |
| PayoutJobs.ReconcilePass | src/scheduler.rs:263-316 | A pass reconciles every claim past the grace window against LND and leaves every other row alone |
| PreTrade.OneExitPerReset | src/db.rs:671-820 | In every interleaving at most one write leaves the pre-trade window per reset, and the row never blends two takers: it carries the last take whole, or before any take the last bond promotion whole; a waiting row carries neither if and only if its exit was a resume whose promotion a reset had wiped |
| PreTrade.RowFrozenAfterExit | src/util.rs:1521-1538 | After the exit the whole row is frozen until a reset, canceled rows included, if and only if it is not a `waiting-buyer-invoice` row that meets an `add_invoice` write; such a write, however stale, replaces the take |
| PreTrade.ShowHoldInvoice | src/util.rs:1540-1653 | Commits exactly if the invoice exists, the event is built and the row is `pending` or `waiting-taker-bond`, or `waiting-buyer-invoice` for `add_invoice`; then the row carries the whole take, identity keys and trade indexes included, with this escrow and a restarted clock; a lost race names the orphaned invoice to cancel |
| PreTrade.CancelPendingFromMaker | src/app/cancel.rs:394-435 | The maker's cancel takes effect exactly while the order is pre-trade; then nothing but status and event id changed, otherwise nothing at all |
| PreTrade.PromoteTakerContext | src/app/bond/flow.rs:1071-1114 | A promotion installs the bond's taker, terms and clock exactly while the order is pre-trade, and never the status, the escrow or the maker's side |
| PreTrade.ResumeTakeAfterBond | src/app/bond/flow.rs:1296-1369 | The take goes on exactly while pre-trade; the seller's duty starts a new clock, the buyer's keeps whatever anchor the row has; a lost race changes nothing |
| Cashu.TokensExclusive | src/db.rs:840-875 | In every interleaving of takes, locks and expiries that still find their order on the book, an order locks at most once and no two orders hold one token |
| Cashu.TokenPermanent | src/util.rs:1687-1734 | A stored token and its lock time outlive every later write of takes, locks and timely expiries, their unguarded full-row writes included |
| Cashu.TokenLostIff | src/scheduler.rs:1244-1257 | After any such run the next step loses a stored token if and only if it is the expiry job's full-row write to that order |
| Cashu.LateExpiryLosesToken | src/scheduler.rs:1244-1257 | A run, for any order fresh on the book: taken and locked while the expiry job publishes, its token is thrown away |
| Cashu.TakeWriteKeepsInv | src/util.rs:1711-1734 | The take's full-row write meets no lock, because no lock handler can have read both keys while the claim was outstanding |
| CashuHandlers.ShowCashuEscrowRequest | src/util.rs:1679-1734 | Refused exactly if the order is not claimable; otherwise the row carries both keys, and a failure to publish or persist leaves the claim alone |
| CashuHandlers.ClassifyZeroRow | src/app/add_cashu_escrow.rs:91-121 | Rejected exactly if another order holds the token or this one is locked with a different one; a duplicate of the stored token is silent |
| CashuHandlers.TrimSlashes | src/app/add_cashu_escrow.rs:209 | The mint address up to its trailing slashes, all of them and nothing else |
| CashuHandlers.AddCashuEscrow | src/app/add_cashu_escrow.rs:135-328 | Acknowledged exactly for a valid first lock or a replay of the stored token; which refusal each failed check, foreign mint, foreign key and mint error earns; every other answer writes nothing |
| Guardian.GuardWindow | src/util.rs:1986-1998 | The window lies within the CLTV delta and is empty only for a zero delta |
| Guardian.PrefilterSoundIff | src/scheduler.rs:811-873 | The half-window query returns every order due by height or by the nominal clock, if and only if the margin is below the delta or the delta is zero |
| Guardian.ActsOnlyWhenDue | src/scheduler.rs:811-880 | The guardian touches an order or asks LND for a cancel only from half the window on and only if the chain is within the margin of the HTLC's expiry, no HTLC is left, or, heights unknown, the window of 600-second blocks is over |
| Guardian.ActsWhenDue | src/scheduler.rs:874-1054 | A due order is acted on: an `active` one is canceled at LND and closed exactly if that or the chain confirms and the writes go through, a `fiat-sent` one never canceled and by a clean turn moved to `dispute` |
| Guardian.EnforceEscrowDeadlinePass | src/scheduler.rs:800-1071 | A pass changes every selected order and its dispute as the guardian's rule says; every order it changes and every hold it cancels was due by height or clock, and no other row or dispute changes |
| Guardian.DisputeRecovers | src/scheduler.rs:942-1054 | From any failure point and any leftover dispute, repeated passes leave the order `fiat-sent` unchanged or in `dispute` with one live row; one clean pass suffices; a live dispute is kept, a resolved one is reopened afresh; no cancel is ever issued |
| HoldInvoice.PaidFlowOnce | src/flow.rs:24-186 | Wherever the flow, a reset or a timeout fails, however events are replayed and the daemon restarts, the flow completes at most once per hold; an escrow-backed order was paid and has a payout invoice, and had the flow complete if and only if the flow's mark was not lost |
| HoldInvoice.LiveHoldWatched | src/db.rs:994-1008 | In every run a selected order is watched if and only if the last resubscription did not fail, and a live hold is in the resubscribe selection if and only if the order is not escrow-backed with the flow's mark lost |
| HoldInvoice.UncreditedUntilClosed | src/flow.rs:169-183 | An order waits for a payment that no delivery can credit exactly in two ways, a lost row write beside a written mark or a take of an order that kept an earlier hold's mark, and then only its users or the timeout move it |
| HoldInvoice.MismarkedIff | src/scheduler.rs:623-712 | An order gets back on the book with such a mark exactly when the timeout reopens an uncredited buy order while its reset fails |
| HoldInvoice.CanceledForGood | src/flow.rs:24-60 | No later delivery, pass or timeout changes a canceled order |
| HoldInvoice.StatusMoves | src/flow.rs:24-186 | In every run no status is reached but by its own event: `active` only by a paid delivery with an invoice or by the buyer's invoice, `fiat-sent` only by the buyer, `dispute` only by a party or from `fiat-sent` by the guardian |
| HoldInvoice.PaidDelivers | src/flow.rs:60-183 | Column by column: a delivery makes the order `active` if the buyer's invoice is known, otherwise asks for one on a new clock, marks it, and writes nothing else |
| HoldInvoice.DaemonClosesSafely | src/scheduler.rs:874-941 | In every run, lost writes included: when the guardian or the reactive path closed an order no HTLC is locked; both close only `active` orders, move `fiat-sent` at most to `dispute` with a live row, and leave an order whose mark was lost untouched; the guardian closes an `active` order if and only if it is due and a confirmed cancel or the chain shows the escrow gone |
| HoldInvoice.HoldInvoicePaid | src/flow.rs:24-186 | The handler, in its own order of checks and writes, does to the order with that hash exactly what a delivery does, and to no other |
| HoldInvoice.HoldInvoiceCanceled | src/flow.rs:228-310 | Past the nominal deadline exactly the known parties of an escrow-backed order are alarmed; only an `active` one is closed |
| Duty.CloseOrReopen | src/scheduler.rs:513-712 | The job's statements, failing anywhere, leave the order as the timeout rule says |
| Duty.CancelOrdersTick | src/scheduler.rs:471-741 | However stale the selection, exactly the orders still due on the re-read are acted on |
| Duty.TimeoutIsFair | src/scheduler.rs:449-712 | In every run the job acts on an order only if the party holding the current duty has held it longer than the whole window, or the duty is orphaned; the order leaves the waiting set only after its hold was canceled and its bond decided, back to the book only if the taker defaulted, then with nothing of the escrow, canceled only if the maker did; the maker's side is never touched |
| Duty.ClockFairIff | src/scheduler.rs:449-469 | While an order waits, the job's test asks at every time exactly whether the holder has had the whole window, if and only if the duty is not orphaned |
| Duty.OrphanedIff | src/app/bond/flow.rs:1338-1356 | A fair clock is lost exactly by a resume that wins on a row whose promotion a reset has wiped |
| Duty.OrphanedAtOnce | src/app/cancel.rs:525-590 | A run, for any pending sell order: the bonded buyer cancels while their take resumes, is asked for an invoice all the same, and the job acts in the same second |
| Duty.GenuineTimeoutNotSkipped | src/scheduler.rs:440-469 | An order due at the selection and untouched since is still selected and still due on the re-read |
| SpamGate.GuardOnAnyClock | src/spam_gate.rs:67-80 | On any clock an id is forgotten exactly when some reading since its last sighting was more than a window ahead of it |
| SpamGate.GuardIsExact | src/spam_gate.rs:67-80 | On a clock that never goes back the pruned map answers as the full history would |
| SpamGate.RefusedForAMinute | src/spam_gate.rs:34-38 | In any run an id sighted in the last 60 seconds is refused, and one that was not is accepted exactly if dated at most 10 seconds before the clock and the other checks pass |
| SpamGate.ReplayGuard.CheckAndRecord | src/spam_gate.rs:74-80 | The in-place map answers as the history function does and records the sighting |
| SpamGate.Gate.SetKnown | src/spam_gate.rs:117-124 | The known keys are exactly the latest snapshot |
| SpamGate.Gate.AcceptEvent | src/app.rs:314-438 | Exactly which events are accepted; one that fails proof of work, kind or signature never changes the guard |
| SpamGate.AcceptedAtMostOnce | src/app.rs:345-409 | In any run an event dated at most 50 seconds ahead of its first acceptance is accepted once |
| SpamGate.AcceptedTwiceIff | src/spam_gate.rs:34-38 | The 50 seconds are exact: a second acceptance is possible if and only if the date is further ahead |

## Left out

- Relay, LND, mint and HTTP traffic, encryption and signatures: each is a nondeterministic result handed to the model.
- HoldInvoice: a guardian pass assumes LND reports an HTLC as gone only once none is locked.
- HoldInvoice.UncreditedUntilClosed: an `add_invoice` message is taken to carry an invoice, and the buyer's invoice to come before the hold on a sell order.
- Races of unguarded full-row writes: the expiry job's update on a Lightning node, the check/write gap of the paid flow (src/flow.rs:22-23) and the timeout job's act are single steps.
- Republish.ReconcileOnce: nothing else publishes during the pass, whose clock readings lie within the pruning age; interleaved publishes are covered by `Publication`.
- CasRace.RepairConverges: the order's last stamp is not pruned during a race, which rests on the 48-hour clock bound of `Registry.StampsStrictlyIncrease`.
- Quiescence.SafeIffWindowFits: a stamp of another order, which may prune, lies at most 48 hours less the quiet window ahead of the clock.
- Cashu.TokensExclusive: runs start from unfunded pending orders, and Cashu mode has no reset to the book.
- PreTrade.ShowHoldInvoice: an invoice created at LND whose order event then cannot be published is not tracked further.
- Database.Db.Update: the stored columns outside the in-memory order struct are the payout marker and its token only.
- Registry.OrderbookRegistry.StampOrderbookEvent: timestamps and generations are unbounded naturals; 64-bit overflow is not modelled.
- Process restarts that lose the registry and the queue, NIP-40 expiry on relays, and poisoned locks.
- Rows whose status or kind text does not parse, except as an outcome of the reconciler.
- Bonds: they appear as the context a promotion carries, or as a decision made.
- PayoutSafety.NeverTwoPayouts: a claim is sent once, a stored payment hash is well formed, LND's answers are true, a send that returned an error is not registered later, and the clock never goes back.
- PayoutJobs.DoPayment: database errors end the dispatch like a lost claim and are not separate outcomes; nothing else writes the row between the send and its outcome; the retry counter and the buyer's notices are not kept, and recording a failure is taken to set the flag.
- SpamGate.Gate.AcceptEvent: decryption, the trade-index check and message verification are results; an event id is taken to commit to its `created_at`.
- CashuHandlers.AddCashuEscrow: of the internal errors only the one answer is kept.
- Identifiers (ids, keys, hashes, tokens) are naturals, since only equality is ever asked of them.
- Notifications and message queues, except whom the lost-escrow alarm reaches.
- Floating-point price and fee code, LNURL, configuration, command line, RPC, price feed and rate queue: they would add easy members only.
