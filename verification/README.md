# Money, calls and realtime delivery of a creator platform

Fans buy video calls, paid questions and shout-outs from creators ("partners").
Their money is held in one shared escrow account, and stored procedures and
scheduled jobs either settle it to the partner or give it back. A separate part
of the server pushes call changes to connected sockets. This project models both
and proves what they promise over every run.

## How it is built

* **Tables and the ledger.** `Schema` has the tables as values (a row's id is its
  index, so an inserted id is fresh; calls, windows and correction rounds live
  inside their parent row). `Ledger` has the double-entry primitive, and
  `Tables` the whole database as one value.
* **Stored procedures as functions.** `Bookings`, `Calls`, `Messages`,
  `Shoutouts`, `Payouts` and `Pricing`: one function per transaction, from a
  database to the next database and a reply. An exception is `Raised`, an error
  reply `Refused`; both leave every row alone.
* **Stored procedures as they run.** `Database.Server` is a class whose fields are
  the tables. Its methods work step by step, with the loops the procedures have,
  and each is proved to leave exactly the state and reply of its function.
* **Runs.** `Platform` puts every transaction, the clock and settings edits into
  one step relation. A worker holding a stale id list is only such steps
  interleaved with everyone else's (`Sweeps.SweepIsARun`), so a statement about
  every run covers overlapping sweeps.
* **Invariants.** `MoneyInvariant` fixes, for every row, what its transactions
  moved on every account and wallet and which of its idempotency keys are spent.
  `MoneyFrames` and the `*Money` modules prove that each transaction keeps it.
  `Capacity`, `CallRules`, `MessageRules` and `ShoutoutRules` hold the other
  disciplines, `History` what no later state may change, and `Runs` puts all of
  it together over every run from empty tables.
* **Promises.** `Promises`, `MoneyPromises`, `PayoutPromises` and, for sockets,
  `SocketPromises` say of each operation exactly when it goes through, what has
  changed, by how much, and that nothing else has, without reference to how it is
  computed. `Refusals` has the error replies.
* **Theorems.** `Conservation`, `Guarantees`, `Payees`, `Topups` and `Sweeps`. `Exact` and
  `Witness` treat the calls that test less than they need and the inputs on which
  an expected property fails.
* **Realtime.** `Sockets` and `Gateway` (registry and its class), `Listener` (the
  LISTEN client and its class), `Delivery`, which composes both with the channel
  between database and server, and `Deafness`, which bounds how long a connected
  socket can go without an event.

Each SQL transaction is one atomic step. Money is in unbounded integer paise and
time in integer seconds (milliseconds in the socket modules). What a procedure
looks up outside these tables is a parameter: `quote` is what price resolution
returned, `blocked` covers the block list and the identity gate, `methodVerified`
the payout method, `crossChecked` the payment provider's answer, and `full` says
which sockets have too much unread output.

## Three calls that are not safe everywhere

Runs are unrestricted except for the unsafe uses of three calls
(`Platform.Allowed`). For each, `Exact` states the exact condition under which it
keeps the books, for all inputs, and what it does to escrow otherwise; `Witness`
has a concrete run for each.

* `rpc_admin_expire_booking` tests no current status and uses a key of its own:
  after a refund it refunds again.
* The item of the question-expiry job re-reads nothing: a window answered and
  settled after the job listed it is refunded as well.
* `rpc_admin_resolve_partial_call` accepts any split that adds up. With a zero
  share it leaves a completed, unpaid booking that the next sweep pays in full. A
  split that keeps the books may still give a fan who used a code more than the
  call cost (`MoneyPromises.SplitEnrichesFanIff`).

`rpc_admin_recover_call` marks a booking expired without refunding it. It is
modelled, `Exact.AdminRecoverExact` says when it is harmless and
`Witness.RecoverStrandsTheFan` has a booking on which it is not, but it is not a
step of a run.

## Where code and comments disagree, the code is followed

* `rpc_expire_shoutout` is described as a full refund
  (migrations/0066d_undelivered_shoutout_refund.sql:47-60). It refunds the price
  only; paid correction fees stay in escrow. `Exact.ExpiryIsFullRefundIff` says
  exactly when the refund is full, `Witness.ExpiryKeepsThePaidFee` has a run in
  which it is not.
* `rpc_admin_force_settle_booking` accepts EXPIRED_FAN_NO_JOIN
  (migrations/0063_admin_booking_escape_hatches.sql:139-142), but the procedure it
  calls refuses that status, so only completed bookings settle.
* The calls table promises a deadline of start plus booked minutes
  (migrations/0005_services.sql:43-46). The current join procedure subtracts the
  time earlier attempts delivered. `Guarantees.JoinFixesTheDeadline` has the exact
  deadline and exactly when it is the promised one, `Witness.RejoinGetsTheRest` a
  run in which it is not.
* The ceiling on a prepaid balance (src/wallet/wallet.service.ts:48-55) does not
  bind a capture that comes after its reservation lapsed:
  `Topups.LateCaptureExceedsIff` and `Witness.LateCaptureExceedsTheCap`.
* The end-of-day counters count a row before its block runs, so a failed row is in
  its class as well as in `failed`.

The model follows the last definition of each procedure. For calls these are
migrations 0078, 0089, 0096 and 0101; the scheduled jobs exist twice, in
src/jobs/jobs.module.ts and as ports in migration 0090, with the same queries and
steps. Later redefinitions that only add notifications have the same money steps
as the files cited below.

## Model

| member | source | states |
|---|---|---|
| Ledger.AbortsIffSomePrefixOverdraws | migrations/0004_money.sql:16-17 | a request aborts exactly when some prefix of its legs takes some wallet below zero, even if the legs as a whole would not |
| Ledger.PostKeepsBank | migrations/0058_fix_wallet_bonus_clamp.sql:33-109 | every post keeps each cached balance equal to the wallet's ledger sum, the bonus within it, every transaction balanced and keys unique; the ledger only grows |
| Ledger.RunKeepsBank | migrations/0087_fix_ledger_balance_trigger_rls.sql:24-38 | over every run of posts the cache equals the ledger and the whole ledger sums to zero |
| Ledger.ReplayChangesNothing | migrations/0058_fix_wallet_bonus_clamp.sql:46-51 | repeating a spent key anywhere later in a run changes no later state and no other returned id, and returns the original id |
| Ledger.PostMovesWallets | migrations/0058_fix_wallet_bonus_clamp.sql:86-106 | a first post moves a wallet one leg names by that leg: the bonus is the old bonus plus the leg's bonus part, nothing if that is negative, the balance if it exceeds the balance; wallets no leg names stay as they are |
| Ledger.PostsIff | migrations/0058_fix_wallet_bonus_clamp.sql:33-63 | a request is accepted if and only if it is well-formed and its key is spent or its wallets exist and no prefix of its legs overdraws one; each exception has its reason |
| Database.Server.WriteLegs | migrations/0058_fix_wallet_bonus_clamp.sql:78-106 | the leg loop writes the legs in order and moves the wallets in place, each as `WalletsMove` says, and stops exactly when a CHECK fires |
| Database.Server.PostTransaction | migrations/0058_fix_wallet_bonus_clamp.sql:33-109 | a first post appends the transaction and moves exactly the wallets its legs name; a repeat changes nothing and returns the old id; an exception undoes everything |
| Pricing.DiscountStaysWithinPrice | migrations/0021_close_gaps.sql:49-52 | a code never raises the price, and takes off more than the price only as a percentage over 100 |
| Pricing.DiscountIsExact | migrations/0021_close_gaps.sql:49-52 | a percentage takes off its share to the nearest paisa, halves up, an amount itself but at most the price |
| Pricing.PricedAsListed | migrations/0021_close_gaps.sql:27-60 | the list price is the partner's own whatever the code, without a code nothing comes off, and a code that may not be used is refused |
| Promises.AvailabilityOffers | migrations/0072_availability_threshold_cap.sql:34-50 | a day's limit is between nothing and ten hours, nothing closes the day, booked minutes stay and no other day changes |
| Pricing.PromoSplitsThePrice | migrations/0042_platform_funded_promos.sql:66-93 | a booking that goes through was paid in full by fan and platform together; a code covering the whole price stops it |
| MoneyPromises.BookTakesIn | migrations/0042_platform_funded_promos.sql:66-105 | a booking is made if and only if the day has room and the fan can pay the quoted price; it holds the list price for a new row, the fan's part and the platform's, takes its minutes from the day, and moves no other item or wallet |
| Database.Server.HoldAndBook | migrations/0042_platform_funded_promos.sql:78-99 | legs with or without the promo leg are posted, the row inserted and the minutes taken, or all is undone |
| Database.Server.Unwind | migrations/0042_platform_funded_promos.sql:155-178 | the unwinding legs, the release of minutes and the final status happen together or not at all |
| MoneyPromises.RefundGivesBack | migrations/0042_platform_funded_promos.sql:138-180 | a refund happens exactly for a BOOKED booking up to settle_at, cannot fail then, frees exactly its minutes and leaves the booking having cost nobody anything |
| MoneyPromises.AdminExpiryGivesBack | migrations/0063_admin_booking_escape_hatches.sql:36-104 | an admin's expiry of a booking that holds its escrow always succeeds, frees its minutes and leaves it having cost nobody anything; declaring it completed moves no money |
| MoneyPromises.BookingPaysOut | migrations/0066_settlement_sweep_indexes.sql:94-145 | a settlement happens exactly for a completed, unreported, unpaid booking: its whole escrow becomes one pending earning in the booking's partner's name, and no wallet moves |
| Database.Server.ResolvePartialCall | migrations/0066a_call_partial_duration_admin_review.sql:178-236 | the split is posted, the earning recorded and the booking completed, or all is undone |
| MoneyPromises.SplitPays | migrations/0066a_call_partial_duration_admin_review.sql:178-236 | a split with a positive share and no negative refund succeeds exactly for an unpaid booking under review whose list price it divides; the share is one pending earning in the partner's name, the fan's wallet gets the refund, escrow holds nothing |
| MoneyPromises.SplitEnrichesFanIff | migrations/0066a_call_partial_duration_admin_review.sql:189-194 | because the split is of the list price, a fan who booked with a code ends up richer than before booking if and only if the share is less than the discount |
| Database.Server.ProcessEndOfDay | migrations/0077_restore_process_end_of_day_function.sql:53-168 | the loop over rows classified once leaves what expiring the rows one at a time leaves (each as `MoneyPromises.Expires` says); each counter is the number of rows given that status; raises are counted |
| MoneyPromises.ExpiryKeepsItsPromise | migrations/0077_restore_process_end_of_day_function.sql:77-151 | exactly a BOOKED booking past its time is worked: a call of the booked time completes it and starts the review time now, changing nothing else; one of three minutes sends it to an admin; every other booking is given back in full with its minutes |
| MoneyPromises.ClassifiedAs | migrations/0077_restore_process_end_of_day_function.sql:77-107 | which of the outcomes it is, from what the attempts that ended were and how long they lasted |
| CallRules.RefundsIffEveryCallWasShort | migrations/0077_restore_process_end_of_day_function.sql:77-107 | an overdue booking is refunded exactly when every ended attempt stayed below 180 s and below the booked time |
| CallRules.ClassifyIgnoresOrder | migrations/0077_restore_process_end_of_day_function.sql:56-76 | the classification does not depend on the order of the attempts |
| Database.Server.UpdateCall | migrations/0013_triggers.sql:42-68 | writing an attempt fires the triggers: completion completes a booking still BOOKED, a miss or drop clears the ready signal |
| Promises.InitiateRings | migrations/0078_remove_operational_hours_db_enforcement.sql:31-45 | a ring is placed exactly on a BOOKED booking without a ring of the last minute; the earlier attempts stay as they are |
| Promises.SignalReadies | migrations/0015_rpc_calls.sql:8-15 | exactly a BOOKED booking is marked ready |
| Promises.JoinGoesLive | migrations/0096_call_time_carryover.sql:101-141 | the newest active attempt is live afterwards, no other attempt changed, and a rejoin changes nothing |
| CallRules.JoinGrantsFullTimeIff | migrations/0096_call_time_carryover.sql:56-76 | a join sets the deadline to now plus the time left, which is the booked time in full if and only if no other completed or dropped attempt delivered any |
| Promises.HeartbeatBeats | migrations/0101_call_manual_end_attribution.sql:224-246 | a heartbeat is taken on every attempt and never touches status, start, end or deadline; the fan reporting the creator present sets the flag, not present sets it false unless it was true, no report leaves it; the partner's beat leaves it |
| Promises.CompleteEndsLive | migrations/0101_call_manual_end_attribution.sql:63-111 | exactly a live attempt ends; it completes exactly when its time is up or the sweep says so and the creator was not reported missing; the booking completes exactly with it, only if BOOKED |
| Promises.MarkMissedMisses | migrations/0101_call_manual_end_attribution.sql:174-204 | exactly a ringing attempt is missed, declined or dropped and a live one dropped, now; the booking keeps its status and readiness is cleared |
| Database.Server.CleanupStalledCalls | migrations/0089_align_no_join_sweep_with_ring_window.sql:59-69 | sweeping row by row with its triggers marks exactly the rings past 60 s |
| Promises.SweepRingsSweepsOut | migrations/0089_align_no_join_sweep_with_ring_window.sql:54-61 | exactly the rings older than a minute that nobody joined are marked missed now, and exactly their fans have to signal ready again |
| Promises.RecoverRecovers | migrations/0076_admin_call_recovery.sql:40-82 | exactly a recoverable booking is marked technically expired, its newest active attempt is dropped now, and no other attempt changes |
| CallRules.StepMovesRows | migrations/0101_call_manual_end_attribution.sql:46-204 | every call step moves every attempt lawfully: beats, a join with a deadline within the booked time, or an end |
| CallRules.StepKeepsCalls | migrations/0013_triggers.sql:42-54 | every step keeps: rings still open are 60 s apart, a BOOKED booking has no completed call, a completed one has its reason |
| Guarantees.NoPayWithoutACall | migrations/0066_settlement_sweep_indexes.sql:103-124 | a partner is paid for a booking only if a call completed, lasted the booked time, or an admin decided |
| Guarantees.CallsRespectTheOutcome | migrations/0013_triggers.sql:42-54 | no call step changes a booking that is no longer BOOKED |
| Guarantees.CallsAreFinal | migrations/0096_call_time_carryover.sql:106-131 | over any run an ended attempt stays as it ended and a live one keeps start and deadline; the deadline is start plus the booked time less what other attempts had delivered by then |
| Guarantees.JoinFixesTheDeadline | migrations/0096_call_time_carryover.sql:106-131 | from a join on, in every later state, the deadline is exactly the joining time plus the time left then, and that is the booked time in full if and only if no other attempt had delivered any |
| Guarantees.SeenCallCompletes | migrations/0101_call_manual_end_attribution.sql:226-234 | once a fan reported the creator present nothing in any run takes that back, and if the call is live when its deadline comes it completes, and a BOOKED booking with it |
| MoneyPromises.AskTakesIn | migrations/0040_wire_config_knobs.sql:98-140 | a question is taken if and only if the open window has room, or the next one is free or affordable; it joins that window or opens one, free for the first and paid after it, with the response and review times in force; it is charged exactly when it opens a paid window |
| Promises.PartnerAnswerAnswers | migrations/0066b_dm_configurable_settlement.sql:26-63 | exactly the conversation's own partner answers, in the newest window not expired; only an OPEN one becomes ANSWERED and gets its settlement time; nothing else of it changes |
| Promises.FollowupFollowsUp | migrations/0034_feature_parity_gaps.sql:93-110 | exactly a partner with a conversation who is not blocked follows up: one more message in the OPEN window or a free window when none is OPEN; no window's status, price or clock changes |
| MoneyPromises.WindowPaysOut | migrations/0066_settlement_sweep_indexes.sql:147-184 | the same for exactly the answered, paid, unreported, unpaid-out windows |
| MoneyPromises.ExpiredWindowGivesBack | src/jobs/jobs.module.ts:335-345 | a paid window that was not settled is always refunded in full and expired, whatever else happened to it |
| MessageRules.StepKeepsMessages | migrations/0040_wire_config_knobs.sql:102-139 | every conversation always has a window, at most the newest is OPEN, the first is free and every other one the fan opened is paid, and fan messages stay within the cap |
| Guarantees.AnsweredOnce | migrations/0066b_dm_configurable_settlement.sql:35-58 | over any run an answered window never reopens and its settle_at and charge are fixed |
| Guarantees.ExpiredWindowIsNeutral | migrations/0090_pgcron_lifecycle_scheduler.sql:248-272 | an expired window has moved nothing on balance and is never paid |
| WindowMoney.SecondExpiryChangesNothing | src/jobs/jobs.module.ts:324-365 | a second expiry job working the same window changes nothing |
| MoneyPromises.RequestTakesIn | migrations/0040_wire_config_knobs.sql:153-179 | a request is taken if and only if the fan can pay a positive price; it holds exactly that for a new row with the whole time to deliver |
| Promises.UploadDelivers | migrations/0061_shoutout_satisfaction_lifecycle.sql:74-112 | exactly an awaited video with a link is delivered: unconfirmed, no round left open, the whole review time, no money moved |
| Promises.ConfirmationsConfirm | migrations/0066c_shoutout_immediate_settlement.sql:15-73 | the fan, or the timer once the review time is over, confirms a delivery once; it is due at once and nothing else changes |
| MoneyPromises.ConfirmationReleases | migrations/0066c_shoutout_immediate_settlement.sql:15-73 | after the fan's or the timer's confirmation a second one changes nothing; timer, report, correction, admin decision and expiry are refused; settlement succeeds at once and pays price plus paid fees |
| MoneyPromises.ConfirmationIsFinal | migrations/0061_shoutout_satisfaction_lifecycle.sql:116-165 | over any later run all of that stays so for the same amount, paid at most once, unless an admin refunds the shout-out before it is paid |
| Promises.ReportDisputes | migrations/0061_shoutout_satisfaction_lifecycle.sql:148-165 | exactly an unconfirmed delivery can be disputed; the dispute leaves an open report and stops fan and timer from confirming |
| MoneyPromises.CorrectionTakesIn | migrations/0061_shoutout_satisfaction_lifecycle.sql:193-241 | exactly the fan of a delivery neither confirmed nor disputed asks for rounds, and can pay: the first is free, every later one holds exactly the fee; a fee not covered is the one exception turned into a reply |
| MoneyPromises.CancelGivesBack | migrations/0061_shoutout_satisfaction_lifecycle.sql:247-283 | exactly a live, unpaid shout-out is cancelled, always successfully, has then cost nothing and leaves no report on it open |
| Promises.ResolveSettles | migrations/0061_shoutout_satisfaction_lifecycle.sql:290-338 | no report on it stays open and no other report changes; rework and dismissal move no money, dismissal gives a new review time, refund ends the shout-out |
| Promises.AdminDeliverDecides | migrations/0061_shoutout_satisfaction_lifecycle.sql:344-381 | approval confirms and closes the reports; sending back does not use up the free round; no money moves |
| MoneyPromises.ExpiryGivesBack | migrations/0066d_undelivered_shoutout_refund.sql:16-71 | exactly an overdue shout-out expires, always and once, and keeps exactly the paid fees |
| MoneyPromises.ShoutoutPaysOut | migrations/0061_shoutout_satisfaction_lifecycle.sql:116-145 | the same for exactly the confirmed, unpaid deliveries, with price plus paid fees |
| ShoutoutRules.StepKeepsShoutouts | migrations/0061_shoutout_satisfaction_lifecycle.sql:193-283 | every step keeps one free round, at most one open round and confirmations only on deliveries, and freezes ended and paid rows |
| Guarantees.ShoutoutMoneyIsGated | migrations/0061_shoutout_satisfaction_lifecycle.sql:116-145 | an earning needs a confirmed delivery and is price plus fees; cancel leaves escrow empty; expiry leaves exactly the fees |
| PayoutPromises.CreateTakesEverythingPending | migrations/0048_settings_editor_and_limits.sql:114-137 | a payout is made exactly for a verified method and pending earnings reaching the minimum; it names exactly the partner's pending earnings, is worth their sum, and nothing stays pending |
| PayoutPromises.ApprovePays | migrations/0047_payout_utr.sql:46-77 | a payout is paid if and only if it is requested and the reference is 6 to 30 capitals or digits no other payout has; partner_payable falls by its amount, exactly its earnings are closed and no wallet moves |
| PayoutPromises.NormalisingTrimsAndCapitalises | migrations/0047_payout_utr.sql:54-55 | the reference compared is the given one without the spaces around it, its small letters as capitals and nothing else changed |
| PayoutPromises.RejectReleases | migrations/0047_payout_utr.sql:88-99 | exactly a requested payout is rejected; its whole amount is pending again, exactly its earnings are released and no money moves |
| PayoutMoney.RejectUndoesCreate | migrations/0047_payout_utr.sql:88-99 | creating and then rejecting restores every earning, leaves the bank alone, and the payout can be created again |
| PayoutMoney.IncludedSum | migrations/0048_settings_editor_and_limits.sql:120-135 | the sum taken is that of the earnings that then name the payout |
| Guarantees.PayableIsOwed | migrations/0048_settings_editor_and_limits.sql:114-137 | partner_payable is the sum of earnings not PAID; each payout not rejected is the sum of exactly its own earnings; paid references are distinct |
| PayoutPromises.OpenStaysUnderCap | src/wallet/wallet.service.ts:91-120 | an order is opened exactly for a positive credit with room under the cap; it records credit and tax as asked, moves no money and raises the fan's exposure by the credit |
| Database.Server.HandleWebhook | src/wallet/wallet.service.ts:152-180 | one event is processed once; a failed cross-check leaves no log row |
| Topups.CaptureCredits | migrations/0070_abandoned_topup_cleanup.sql:40-45 | a capture credits an uncredited order in full even after cleanup failed it |
| PayoutPromises.VerifyCredits | migrations/0023_rpc_authorization_hardening.sql:104-127 | settling an order succeeds exactly when it was not credited before; the fan's balance grows by the credit, none of it promotional, no other wallet moves, and tax and clearing take their part |
| PayoutPromises.WebhookCaptures | src/wallet/wallet.service.ts:152-180 | an event is logged exactly when new and cross-checked, and credits its order if that was not credited before |
| PayoutPromises.CleanupFailsOldOrders | migrations/0070_abandoned_topup_cleanup.sql:40-45 | exactly the orders pending for more than a day are failed |
| PayoutPromises.GrantMoves | migrations/0024_admin_full_administration.sql:300-319 | a positive goodwill credit is added to balance and bonus alike, a deduction leaves at most the balance as bonus; no other wallet moves, and it goes through exactly when the balance covers it |
| Topups.CreditedExactlyOnce | src/wallet/wallet.service.ts:137-180 | after any captures, retries and cleanups a credited order has credited its fan exactly once |
| Topups.RunKeepsCap | src/wallet/wallet.service.ts:58-130 | over any run with any checkouts under one cap, balance plus unexpired pending credit never exceeds the cap by more than what other transactions credited the fan |
| Topups.OnlyRefundsGrantsAndCapturesCredit | src/wallet/wallet.service.ts:48-130 | only refunds, splits, grants and captures ever credit a fan |
| Topups.LateCaptureExceedsIff | migrations/0023_rpc_authorization_hardening.sql:104-127 | a capture after its reservation lapsed stays under the cap exactly when the room was still there |
| Capacity.StepKeepsCapacity | migrations/0042_platform_funded_promos.sql:99-99 | booked minutes are always the sum over the bookings not unwound |
| Capacity.UnwindKeepsCapacity | migrations/0077_restore_process_end_of_day_function.sql:131-134 | a release subtracts exactly the booking's minutes: the floor at zero never takes effect |
| Capacity.RaisesEndWithinThreshold | migrations/0042_platform_funded_promos.sql:71-76 | a step that adds minutes ends within the day's limit, whatever limit edits came between |
| BookingMoney.UnwindKeepsMoney | migrations/0042_platform_funded_promos.sql:155-178 | unwinding a booking that holds its escrow always succeeds, under a key not yet spent, and keeps the books |
| BookingMoney.ExpireKeepsMoney | migrations/0077_restore_process_end_of_day_function.sql:109-151 | expiring any booking keeps the books and never fails on a due one |
| BookingMoney.ResolvePartialKeepsMoney | migrations/0066a_call_partial_duration_admin_review.sql:196-236 | a split with a share of at least one paisa and no negative refund keeps the books and never raises |
| Refusals.BookingRefusals | migrations/0042_platform_funded_promos.sql:56-76 | for each error reply of a booking, exactly when it is given |
| Refusals.RefundRefusals | migrations/0042_platform_funded_promos.sql:147-154 | the same for a refund |
| Refusals.SettlementRefusals | migrations/0066_settlement_sweep_indexes.sql:103-126 | the same for settling a booking; an open report stops even a repeat |
| Refusals.WindowSettlementRefusals | migrations/0066_settlement_sweep_indexes.sql:156-169 | the same for settling a question |
| Refusals.SplitRefusals | migrations/0066a_call_partial_duration_admin_review.sql:181-201 | the same for an admin's split |
| Refusals.AdminExpiryRefusals | migrations/0063_admin_booking_escape_hatches.sql:44-61 | the same for an admin's expiry |
| Refusals.CallRefusals | migrations/0101_call_manual_end_attribution.sql:63-67 | the same for heartbeats, completions and misses |
| Refusals.RingRefusals | migrations/0078_remove_operational_hours_db_enforcement.sql:31-38 | the same for ready signals, rings, joins and recovery |
| Refusals.QuestionRefusals | migrations/0040_wire_config_knobs.sql:94-124 | the same for a question |
| Refusals.AnswerRefusals | migrations/0066b_dm_configurable_settlement.sql:26-40 | the same for answers and follow-ups |
| Refusals.DeliveryRefusals | migrations/0061_shoutout_satisfaction_lifecycle.sql:78-101 | the same for deliveries, confirmations and corrections |
| Refusals.CancelRefusals | migrations/0061_shoutout_satisfaction_lifecycle.sql:253-258 | the same for cancelling a shout-out |
| Refusals.DisputeRefusals | migrations/0061_shoutout_satisfaction_lifecycle.sql:299-354 | the same for disputes, their settlement and the admin's delivery |
| Refusals.ShoutoutJobRefusals | migrations/0066d_undelivered_shoutout_refund.sql:28-44 | the same for expiry, the timer's confirmation and settlement |
| Refusals.PayoutRefusals | migrations/0048_settings_editor_and_limits.sql:119-131 | the same for making, paying and rejecting payouts |
| Refusals.TopupRefusals | src/wallet/wallet.service.ts:58-115 | the same for top-ups and goodwill credits |
| Guarantees.UnwoundBookingIsNeutral | migrations/0042_platform_funded_promos.sql:84-99 | a refunded or expired booking has moved nothing on any wallet or account, in this and every later state |
| Guarantees.BookThenRefund | migrations/0058_fix_wallet_bonus_clamp.sql:99-105 | whatever calls were rung, missed or joined meanwhile: if the booking is still BOOKED at its price and the fan's wallet is as booking left it, a refund before settle_at succeeds, restores the balance and leaves the bonus at min(bonus, balance - price) |
| Guarantees.BookThenExpire | migrations/0077_restore_process_end_of_day_function.sql:109-135 | the same for booking and day-end expiry, with each of the four expired outcomes |
| Guarantees.UnwindAfterAnyRun | migrations/0077_restore_process_end_of_day_function.sql:77-135 | both over every run between booking and refund or expiry at whose end the fan's wallet is as booking left it; parties and price are the run's to keep, not assumed |
| Guarantees.SettledBookingNets | migrations/0066_settlement_sweep_indexes.sql:118-141 | whenever a booking's settle key is spent the partner is owed the list price, the fan is out the price and the platform the discount |
| Conservation.EscrowIsWhatServicesHold | migrations/0042_platform_funded_promos.sql:84-92 | in every reachable state escrow is what live bookings, windows and shout-outs hold plus the fees of expired shout-outs, and the ledger sums to zero |
| Conservation.PromotionsAreFunded | migrations/0042_platform_funded_promos.sql:89-92 | promo_incentive is minus the discounts of the bookings that stand |
| Conservation.FlowIsSumOfRows | migrations/0004_money.sql:35-50 | the ledger's movement on any account is the sum over the rows its transactions belong to |
| Guarantees.PaidExactlyOnce | migrations/0043_settlement_idempotency.sql:36-37 | in every reachable state a service has one earning exactly when one of its settle keys is spent, once, with the same amount, and its escrow is never negative |
| Guarantees.PaymentIsFinal | migrations/0066_settlement_sweep_indexes.sql:103-141 | over any later run the amount paid is unchanged, the service's escrow is empty and its row keeps its outcome |
| Payees.PartnersArePaidForTheirOwn | migrations/0066_settlement_sweep_indexes.sql:138-139 | in every reachable state each earning is in the name of the partner whose service it is for, and so is the payout that names it |
| Runs.StepKeepsInv | migrations/0077_restore_process_end_of_day_function.sql:53-168 | every allowed transaction keeps money, capacity, call, message and shout-out invariants and takes back nothing settled |
| Runs.RunKeepsInv | src/jobs/jobs.module.ts:163-191 | so does every run of them, in any interleaving |
| Runs.RunEvolves | migrations/0043_settlement_idempotency.sql:36-37 | nothing a run does undoes a payment, an unwinding, an answer, a paid payout or a credited top-up |
| Database.Server.ForEachId | src/jobs/jobs.module.ts:163-191 | the loop over ids, stale or not, counts successes and failures and leaves what the items leave |
| Database.Server.RunSettleJob | src/jobs/jobs.module.ts:200-274 | the settle job runs day-end expiry and then the five sweeps in order |
| Sweeps.SweepIsARun | src/jobs/jobs.module.ts:163-191 | a sweep over any list of ids is a run of allowed steps |
| Sweeps.FailuresAreIsolated | src/jobs/jobs.module.ts:158-191 | an item that raises changes nothing but its own count |
| Sweeps.DueItemsAreWorked | migrations/0090_pgcron_lifecycle_scheduler.sql:154-216 | every due item is worked successfully and nothing else stops or starts being due but its own settlement |
| Sweeps.BatchIsWorkedOff | src/jobs/jobs.module.ts:200-274 | a batch of due items all succeed and exactly those are no longer due |
| Sweeps.RunTakesTwoHundred | src/jobs/jobs.module.ts:222-229 | a run leaves what was due less 200 |
| Sweeps.RepeatedSweepsDrain | src/jobs/jobs.module.ts:222-229 | any one sweep run again and again at a fixed clock leaves what was due less 200 a round, and nothing new becomes due for it |
| Sweeps.RepeatedExpiriesLeaveNoneOverdue | src/jobs/jobs.module.ts:324-365 | enough expiry jobs at a fixed clock leave no overdue question window open |
| Sweeps.SettleJobDrains | migrations/0090_pgcron_lifecycle_scheduler.sql:129-225 | at a fixed clock each settle job strictly lowers the backlog while anything it looks for is due |
| Sweeps.RepeatedJobsSettleEverything | migrations/0090_pgcron_lifecycle_scheduler.sql:129-225 | repeated settle jobs at a fixed clock end with nothing due that they look for, after at most as many as the backlog counts, and it stays so |
| Sweeps.SettledMeansPaid | migrations/0090_pgcron_lifecycle_scheduler.sql:129-225 | with nothing due every booking, window and shout-out past its time is decided, and paid if it is complete and not reported |
| Sweeps.CompletedIsNotPaidAtOnce | migrations/0077_restore_process_end_of_day_function.sql:141-147 | a booking that settle jobs complete is not paid by them, however many run at that moment: its settle_at is the whole review time away |
| Sweeps.JobsCanBeListed | src/jobs/jobs.module.ts:222-269 | such sequences of jobs always exist: every query has its batch |
| Exact.AdminExpireExact | migrations/0063_admin_booking_escape_hatches.sql:36-104 | the admin's expiry keeps books and minutes if and only if the booking holds its escrow, is completed again, or is a harmless repeat |
| Exact.AdminExpireOverdraws | migrations/0063_admin_booking_escape_hatches.sql:65-87 | on an unwound booking it takes the list price out of escrow a second time |
| Exact.ExpireWindowExact | src/jobs/jobs.module.ts:335-345 | the expiry item keeps the books if and only if the window was not settled |
| Exact.StaleExpiryOverdraws | src/jobs/jobs.module.ts:335-345 | on a settled window it overdraws escrow by the charge |
| Exact.ResolvePartialExact | migrations/0066a_call_partial_duration_admin_review.sql:196-236 | a split that adds up keeps the books if and only if the share is at least one paisa and the refund not negative |
| Exact.ZeroShareIsPaidAgain | migrations/0066a_call_partial_duration_admin_review.sql:202-236 | a zero share refunds in full and the next settlement pays in full as well |
| Exact.AdminRecoverExact | migrations/0076_admin_call_recovery.sql:76-82 | recovery keeps the books if and only if the booking had been expired before |
| Exact.AdminRecoverStrands | migrations/0076_admin_call_recovery.sql:76-82 | on a BOOKED booking it leaves an expired booking whose list price stays in escrow and whose fan is out the price |
| Exact.ExpiryIsFullRefundIff | migrations/0066d_undelivered_shoutout_refund.sql:47-60 | expiry returns everything if and only if no paid round was bought |
| Witness.RefundThenAdminExpire | migrations/0063_admin_booking_escape_hatches.sql:50-104 | a concrete run after which the admin's expiry makes a booking's escrow negative |
| Witness.SettleBetweenListAndItem | src/jobs/jobs.module.ts:324-365 | a concrete run with a settlement between an expiry job's list and its item, after which escrow is negative |
| Witness.ZeroShareThenSettle | migrations/0066a_call_partial_duration_admin_review.sql:196-236 | a concrete run in which a zero share pays a booking out twice |
| Witness.RecoverStrandsTheFan | migrations/0076_admin_call_recovery.sql:76-82 | a concrete booking that is expired by recovery and not refunded |
| Witness.ExpiryKeepsThePaidFee | migrations/0066d_undelivered_shoutout_refund.sql:47-60 | a concrete shout-out that expires after a paid round and leaves the fan out the fee |
| Witness.LateCaptureExceedsTheCap | src/wallet/wallet.service.ts:52-55 | a concrete pair of orders, each within the cap when opened, whose late capture takes the fan above it |
| Witness.RejoinGetsTheRest | migrations/0096_call_time_carryover.sql:106-131 | a concrete call dropped after 200 of 300 seconds and joined again, whose second deadline is 100 seconds away |
| Gateway.RealtimeGateway.OnUpgrade | src/realtime/realtime.gateway.ts:125-160 | a socket is accepted only while attached, enabled, healthy and below the waiting limit |
| Gateway.RealtimeGateway.HandleMessage | src/realtime/realtime.gateway.ts:162-187 | what each frame does before and after authentication |
| Gateway.RealtimeGateway.FinishAuthentication | src/realtime/realtime.gateway.ts:193-225 | after the wait the socket is checked again, registered, and room made for it |
| Gateway.RealtimeGateway.MakeRoom | src/realtime/realtime.gateway.ts:214-220 | the eviction loop closes exactly the oldest sockets over the limit |
| Gateway.RealtimeGateway.HandleCallChanged | src/realtime/realtime.gateway.ts:229-245 | an event goes once to each open socket of the two parties and to nobody else |
| Gateway.RealtimeGateway.HandleResync | src/realtime/realtime.gateway.ts:247-249 | a resync goes to every registered socket |
| Gateway.RealtimeGateway.HandleTick | src/realtime/realtime.gateway.ts:268-286 | exactly the registered sockets whose token ran out or that were silent for two and a half intervals are closed, the rest pinged |
| Gateway.RealtimeGateway.HandleHealthChange | src/realtime/realtime.gateway.ts:288-297 | becoming unhealthy closes every socket |
| Gateway.RealtimeGateway.Destroy | src/realtime/realtime.gateway.ts:100-108 | shutting down refuses upgrades and closes every socket |
| Gateway.RealtimeGateway.HandleClose | src/realtime/realtime.gateway.ts:311-320 | a closed socket is forgotten, and its user with the last one |
| SocketPromises.UpgradeAccepts | src/realtime/realtime.gateway.ts:125-160 | exactly when a socket is accepted, and how it starts |
| SocketPromises.MessageTakesFrame | src/realtime/realtime.gateway.ts:162-187 | every frame counts as a sign of life, a first token starts the check, a socket that misbehaves is closed and no other socket changes |
| SocketPromises.VerifiedDecides | src/realtime/realtime.gateway.ts:189-225 | only a valid token on a healthy gateway registers the socket, greets it and, at the limit, closes exactly the user's oldest; everything else closes it |
| SocketPromises.TimeoutTimesOut | src/realtime/realtime.gateway.ts:154-155 | exactly a socket whose timer still runs is closed by it |
| SocketPromises.RouteTells | src/realtime/realtime.gateway.ts:229-245 | each open socket of the two parties gets the event once, one that does not keep up is closed, nobody else changes |
| SocketPromises.BroadcastTellsEveryone | src/realtime/realtime.gateway.ts:247-249 | the same for the resync and every registered socket |
| SocketPromises.TickChecks | src/realtime/realtime.gateway.ts:268-286 | exactly the sockets that lapsed are closed and every other registered one is pinged |
| SocketPromises.HealthFollows | src/realtime/realtime.gateway.ts:288-297 | becoming unhealthy closes every open socket, anything else touches none |
| SocketPromises.DetachShutsDown | src/realtime/realtime.gateway.ts:100-108 | shutting down closes every open socket |
| SocketPromises.CloseForgets | src/realtime/realtime.gateway.ts:311-320 | a closed socket neither waits nor belongs to anyone, the user's others keep their order, and no other socket notices |
| Sockets.VerifiedKeeps | src/realtime/realtime.gateway.ts:189-225 | finishing authentication keeps the registry invariant whatever happened during the wait, and assigns a user at most once |
| Sockets.PendingAndRegisteredAreDisjoint | src/realtime/realtime.gateway.ts:61-62 | waiting and registered sockets are disjoint, none is closed, and each registered one is in its own user's set only |
| Sockets.CloseEventKeeps | src/realtime/realtime.gateway.ts:311-320 | the close event keeps the invariant: no closed socket stays and no empty set |
| Sockets.HealthKeeps | src/realtime/realtime.gateway.ts:288-330 | an open socket implies a healthy gateway: while unhealthy none is open |
| Listener.PgNotifySource.FinishProbe | src/realtime/pg-notify.source.ts:200-233 | an answered probe makes the source healthy and clears the miss count, a first miss keeps the client and retries, a further one discards it; a discarded client's probe does nothing |
| Listener.TwoMissesDiscard | src/realtime/pg-notify.source.ts:200-233 | over every run, two misses on one client with nothing coming back in between discard it, whatever else happens, and it is never current again |
| Listener.ReactObeys | src/realtime/pg-notify.source.ts:126-273 | what every event of the listener changes and tells the gateway, and that nothing else changes |
| Listener.ReactKeepsSource | src/realtime/pg-notify.source.ts:126-273 | every event keeps: at most one client or pending reconnect and, until stopped, at least one; current callbacks come from the current client; healthy means a probe came back on this generation and another is set or out |
| Listener.StaleCallbacksAreInert | src/realtime/pg-notify.source.ts:161-173 | callbacks of a discarded client reach no handler and change no health |
| Listener.DiscardedOnce | src/realtime/pg-notify.source.ts:252-267 | each generation is recycled at most once |
| Listener.HealthAlternates | src/realtime/pg-notify.source.ts:269-273 | over any run the gateway is told healthy and unhealthy strictly in turn |
| Delivery.MakeKeepsSystem | src/realtime/realtime.gateway.ts:93-97 | every event of source, gateway and channel keeps the composed invariant |
| Delivery.MakesKeepSystem | src/realtime/realtime.gateway.ts:61-65 | so does every run, in any interleaving: the registry, source, channel and health invariants hold together |
| Delivery.NoSilentlyDeafSocket | src/realtime/realtime.gateway.ts:46-52 | after any run a connected socket lacks an event naming its user only while it is in flight, the link is down or its resync is about to be sent; it never got anyone else's event |
| Delivery.ReturnResyncsEveryone | src/realtime/pg-notify.source.ts:161-169 | when the link's return is announced every connected socket has just been sent a resync |
| Delivery.MissedProbeClosesEveryone | src/realtime/pg-notify.source.ts:212-213 | after a missed probe no socket is connected |
| Delivery.RecycleClosesEveryone | src/realtime/pg-notify.source.ts:252-259 | after a recycle no socket is connected |
| Delivery.ProbeProvesDelivery | src/realtime/pg-notify.source.ts:236-249 | when our own probe arrives on a sound link, every event sent before it was delivered or covered by the client's own read |
| Deafness.DeafOnlyWhileProbing | src/realtime/pg-notify.source.ts:196-233 | after any run, a connected socket lacking an event it has not read past is waited for by probing: every probe started after the event is still out on the current client, and the next probe is set or one is out |
| Deafness.MakeKeepsProbes | src/realtime/pg-notify.source.ts:236-249 | every event keeps: a probe that has ended covers, for everyone connected, all that was sent before it started |
| Delivery.SomeoneConnects | src/realtime/realtime.gateway.ts:189-225 | there are runs with a connected socket |

## Left out

- Notifications, push messages and the audit log, except the two admin decisions a completed booking may rest on.
- Row-level security, tokens, role checks and account status: callers are taken to be authorised.
- Races between statements of one transaction: each transaction is atomic. The expiry item's gap between its list query and its transaction is modelled, because those are two transactions.
- `rpc_admin_resolve_report`'s refund branches, referral credits and chargebacks also post to the ledger; runs do not contain them.
- Promo usage rows and counters; whether a code is valid and within its limits is a parameter of `ResolvePrice`.
- Per-order minimum and maximum of a top-up, and the computation of its tax, which is a parameter that is not negative.
- Settings validation: any settings may be in force at any time. The clock never goes backwards.
- The sweep's choice of live calls past their deadline or without heartbeat: completing or dropping any live call at any time is a step of a run.
- Statuses no current procedure produces: VIDEO_RECEIVED_BY_ADMIN, PAYMENT_PENDING and a payout's APPROVED.
- Payout references are upper-cased over ASCII letters and trimmed of spaces only.
- A fan without a profile makes a booking or question raise; the model has one wallet per fan.
- JSON parsing, the HTTP handshake bytes, frame sizes and the wait of at most two seconds while draining at shutdown.
- Backoff delays and jitter of the listener, and its log messages: a timer may fire at any time after it is set.
- MoneyPromises.BookTakesIn: does not model promo usage rows and the code's use counter, which no money depends on once the price is resolved.
- MoneyPromises.CancelGivesBack: the procedure also accepts VIDEO_RECEIVED_BY_ADMIN, a status no current procedure produces.
- PayoutPromises.ApprovePays: the procedure also accepts a payout's APPROVED status, which no current procedure produces; references are upper-cased over ASCII letters only.
- Sweeps.RepeatedJobsSettleEverything: at a fixed clock and without other transactions between the jobs; with others, `Runs.RunKeepsInv` still holds.
- Bulk UPDATE and aggregate statements are single assignments in `Database.Server`, except where a trigger runs per row.
