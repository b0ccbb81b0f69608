/** What the transactions that move money promise: which item moved, by how much, and
    that no other item did.
 */
module MoneyPromises {
  import opened Schema
  import opened Ledger
  import opened Tables
  import opened Bookings
  import opened Messages
  import opened Shoutouts
  import opened Payouts
  import opened MoneyInvariant
  import opened MoneyFrames
  import opened BookingMoney
  import opened WindowMoney
  import opened ShoutoutMoney
  import opened PayoutMoney
  import opened Guarantees
  import opened Topups
  import Promises
  import opened Platform
  import opened ShoutoutRules
  import opened Capacity
  import opened CallRules
  import opened MessageRules
  import opened History
  import opened Runs

  // ── Settlements ──────────────────────────────────────────────────────────

  /** What escrow held for the service is now the partner's earning: one row more, in the
      partner's name, pending and in no payout. Nobody's wallet moved. */
  ghost predicate PaysOut(was: Db, now: Db, reply: Reply, service: Item, partner: nat, amount: int) {
    && (reply != Done ==> now == was)
    && (reply == Done ==>
          && now == was.(bank := now.bank, earnings := now.earnings) && Confined(was, now, service)
          && OwesPartner(was, now, service, partner, amount) && now.bank.wallets == was.bank.wallets
          && !Earned(was, service) && PaidFor(now.earnings, service) == Some(amount)
          && EscrowOf(was, service) == amount > 0 && EscrowOf(now, service) == 0
          && forall f :: ItemFlow(now.bank.ledger, service, OnWallet(f)) == ItemFlow(was.bank.ledger, service, OnWallet(f)))
  }

  lemma BookingPaysOut(db: Db, id: nat)
    requires MoneyInv(db) && id < |db.bookings|
    ensures var out := SettleBooking(db, id); var b := db.bookings[id];
      && PaysOut(db, out.db, out.reply, BookingItem(id), b.partner, b.original)
      && (out.reply == Done <==> b.status == Completed && !OpenCallReport(db.reports, id) && !Earned(db, BookingItem(id)))
  {
    hide BankOk, EarningsOk, HasKey, ItemFlow, PaidFor, LegSum, PayPartner;
    assert BookingOk(db, id);
    if db.bookings[id].status == Completed && !OpenCallReport(db.reports, id) && !Earned(db, BookingItem(id)) {
      SettleBookingEffect(db, id);
      PayPartnerEffect(db, BookingItem(id), db.bookings[id].partner, Settle(id), db.bookings[id].original);
    }
  }

  lemma WindowPaysOut(db: Db, c: nat, w: nat)
    requires MoneyInv(db) && HasWindow(db, c, w)
    ensures var out := SettleQuestion(db, c, w); var row := WindowAt(db, c, w);
      && PaysOut(db, out.db, out.reply, WindowItem(c, w), db.conversations[c].partner, row.charge)
      && (out.reply == Done <==>
            (row.kind == Paid && row.status == Answered
             && !OpenReportOn(db.reports, WindowTarget(c, w)) && !Earned(db, WindowItem(c, w))))
  {
    hide BankOk, EarningsOk, HasKey, ItemFlow, PaidFor, LegSum, PayPartner;
    assert WindowOk(db, c, w);
    var row := WindowAt(db, c, w);
    if row.kind == Paid && row.status == Answered && !OpenReportOn(db.reports, WindowTarget(c, w)) && !Earned(db, WindowItem(c, w)) {
      SettleQuestionEffect(db, c, w);
      PayPartnerEffect(db, WindowItem(c, w), db.conversations[c].partner, SettleWindow(c, w), row.charge);
    }
  }

  lemma ShoutoutPaysOut(db: Db, s: nat)
    requires MoneyInv(db) && s < |db.shoutouts|
    ensures var out := SettleShoutout(db, s); var r := db.shoutouts[s];
      && PaysOut(db, out.db, out.reply, ShoutoutItem(s), r.partner, r.price + Fees(r.corrections))
      && (out.reply == Done <==> r.status == Delivered && r.confirmed.Some? && !Earned(db, ShoutoutItem(s)))
  {
    hide BankOk, EarningsOk, HasKey, ItemFlow, PaidFor, LegSum, PayPartner, Fees;
    assert ShoutoutOk(db, s);
    var r := db.shoutouts[s];
    if r.status == Delivered && r.confirmed.Some? && !Earned(db, ShoutoutItem(s)) {
      SettleReady(db, s);
      SettleEffect(db, s);
      PayPartnerEffect(db, ShoutoutItem(s), r.partner, SettleShout(s), r.price + Fees(r.corrections));
    }
  }

  /** A confirmed delivery is beyond dispute: no confirmation, timer, report, round,
      decision or expiry touches it any more, and its settlement pays it once. */
  ghost predicate Released(db: Db, s: nat, amount: int) {
    && s < |db.shoutouts|
    && ConfirmShoutout(db, db.shoutouts[s].fan, s) == Out(db, AlreadyDone)
    && !AutoConfirmShoutout(db, s).reply.Done? && !ReportShoutout(db, s).reply.Done?
    && (forall fan: nat :: !RequestCorrection(db, fan, s).reply.Done?)
    && (forall approve :: !AdminDeliver(db, s, approve).reply.Done?)
    && !ExpireShoutout(db, s).reply.Done?
    && (var paid := SettleShoutout(db, s);
        if Earned(db, ShoutoutItem(s)) then paid == Out(db, AlreadyDone) && PaidFor(db.earnings, ShoutoutItem(s)) == Some(amount)
        else paid.reply == Done && PaysOut(db, paid.db, paid.reply, ShoutoutItem(s), db.shoutouts[s].partner, amount))
  }

  lemma ConfirmedIsReleased(db: Db, s: nat)
    requires MoneyInv(db) && s < |db.shoutouts| && db.shoutouts[s].status == Delivered && db.shoutouts[s].confirmed.Some?
    ensures Released(db, s, db.shoutouts[s].price + Fees(db.shoutouts[s].corrections))
  {
    hide BankOk, EarningsOk, HasKey, ItemFlow, PaidFor, PayPartner, Fees, PaysOut, Post;
    assert ShoutoutOk(db, s);
    ShoutoutPaysOut(db, s);
  }

  /** The fan's confirmation, or the timer's, releases the delivery. */
  lemma ConfirmationReleases(db: Db, fan: nat, s: nat, byTimer: bool)
    requires MoneyInv(db)
    requires (if byTimer then AutoConfirmShoutout(db, s) else ConfirmShoutout(db, fan, s)).reply == Done
    ensures var next := (if byTimer then AutoConfirmShoutout(db, s) else ConfirmShoutout(db, fan, s)).db;
      && s < |db.shoutouts| && !Earned(next, ShoutoutItem(s)) && next.shoutouts[s].settleAt == next.now
      && Released(next, s, db.shoutouts[s].price + Fees(db.shoutouts[s].corrections))
  {
    hide MoneyInv, Released, Fees, PaidFor;
    var next := (if byTimer then AutoConfirmShoutout(db, s) else ConfirmShoutout(db, fan, s)).db;
    if byTimer { AutoConfirmKeepsMoney(db, s); } else { ConfirmKeepsMoney(db, fan, s); }
    UnconfirmedIsUnpaid(db, s);
    ConfirmedIsReleased(next, s);
  }

  lemma UnconfirmedIsUnpaid(db: Db, s: nat)
    requires MoneyInv(db) && s < |db.shoutouts| && db.shoutouts[s].confirmed.None?
    ensures !Earned(db, ShoutoutItem(s))
  {
    hide BankOk, EarningsOk, HasKey, ItemFlow, PaidFor;
    assert ShoutoutOk(db, s);
  }

  /** No run takes a confirmation back: later the delivery is still released for the
      same amount, unless an admin refunded it before it was paid. */
  lemma ConfirmationIsFinal(db: Db, actions: seq<Action>, s: nat)
    requires Reachable(db) && AllowedRun(db, actions) && s < |db.shoutouts|
    requires db.shoutouts[s].status == Delivered && db.shoutouts[s].confirmed.Some?
    ensures var later := Run(db, actions); var r := db.shoutouts[s];
      && s < |later.shoutouts| && later.shoutouts[s].confirmed == r.confirmed
      && (later.shoutouts[s].status == RefundedByAdmin
            || Released(later, s, r.price + Fees(r.corrections)))
      && (Earned(db, ShoutoutItem(s)) ==> later.shoutouts[s] == r)
  {
    hide Reachable, AllowedRun, Run;
    ReachableIsOk(db);
    RunKeepsInv(db, actions);
    RunEvolves(db, actions);
    hide MoneyInv, CapacityOk, CallsOk, MessagesOk, ShoutoutRulesOk, BookingsEvolve, ConversationsEvolve, EarningsEvolve,
         PayoutsEvolve, TopupsEvolve, Released, Fees, PaidFor;
    var later := Run(db, actions);
    assert ShoutoutMoves(db.shoutouts[s], later.shoutouts[s], Earned(db, ShoutoutItem(s)));
    if later.shoutouts[s].status == Delivered { ConfirmedIsReleased(later, s); }
  }

  // ── An admin's split ─────────────────────────────────────────────────────

  /** A split divides the list price of a booking under review: the partner is owed the
      share, the fan has the refund back, and escrow holds nothing for it any more. */
  ghost predicate Splits(was: Db, now: Db, reply: Reply, id: nat, share: int, refund: int) {
    && (reply != Done ==> now == was)
    && (1 <= share && 0 <= refund ==> (reply == Done <==> CanSplit(was, id, share, refund)))
    && (reply == Done ==>
          && CanSplit(was, id, share, refund)
          && now == was.(bank := now.bank, earnings := now.earnings, audit := was.audit + [AuditResolvePartial(id)],
                         bookings := was.bookings[id := was.bookings[id].(status := Completed)])
          && (1 <= share && 0 <= refund ==>
                && Confined(was, now, BookingItem(id)) && PaidFor(now.earnings, BookingItem(id)) == Some(share)
                && OwesPartner(was, now, BookingItem(id), was.bookings[id].partner, share)
                && WalletFollows(was, now, BookingItem(id), was.bookings[id].fan)
                && EscrowOf(was, BookingItem(id)) == was.bookings[id].original && EscrowOf(now, BookingItem(id)) == 0
                && (var fan := OnWallet(was.bookings[id].fan);
                    ItemFlow(now.bank.ledger, BookingItem(id), fan) == ItemFlow(was.bank.ledger, BookingItem(id), fan) + refund
                    == refund - was.bookings[id].price)))
  }

  predicate CanSplit(db: Db, id: nat, share: int, refund: int) {
    && id < |db.bookings| && db.bookings[id].status == RequiresAdminReview && !Earned(db, BookingItem(id))
    && share + refund == db.bookings[id].original
  }

  lemma SplitPays(db: Db, id: nat, share: int, refund: int)
    requires MoneyInv(db)
    ensures var out := ResolvePartial(db, id, share, refund); Splits(db, out.db, out.reply, id, share, refund)
  {
    hide BankOk, EarningsOk, HasKey, ItemFlow, PaidFor, LegSum, PayPartner, Post, WalletFollows;
    if CanSplit(db, id, share, refund) && 1 <= share && 0 <= refund {
      var b := db.bookings[id];
      assert BookingOk(db, id);
      PayPartnerEffect(db, BookingItem(id), b.partner, PartialSettle(id), share);
      var paid := PayPartner(db, BookingItem(id), b.partner, PartialSettle(id), share).db;
      ResolvedRow(db, paid, id, share, refund);
      var next := ResolvePartial(db, id, share, refund).db;
      assert BookingOk(next, id);
      RefundFollows(db, paid, id, share, refund);
    }
  }

  /** Paying the partner moves no wallet, so the refund's move is the split's. */
  lemma RefundFollows(db: Db, paid: Db, id: nat, share: int, refund: int)
    requires MoneyInv(db) && CanSplit(db, id, share, refund) && 1 <= share && 0 <= refund
    requires paid == PayPartner(db, BookingItem(id), db.bookings[id].partner, PartialSettle(id), share).db
    requires PayPartner(db, BookingItem(id), db.bookings[id].partner, PartialSettle(id), share).reply == Done
    requires paid.bank.wallets == db.bank.wallets && PaidOut(db, paid, BookingItem(id), PartialSettle(id), share) && BankOk(paid.bank)
    requires ResolvePartial(db, id, share, refund).reply == Done && db.bookings[id].fan < |db.bank.wallets|
    ensures WalletFollows(db, ResolvePartial(db, id, share, refund).db, BookingItem(id), db.bookings[id].fan)
  {
    hide BankOk, EarningsOk, HasKey, ItemFlow, PaidFor, LegSum, PayPartner, Post, KeysOwned, BookingsOk, WindowsOk, ShoutoutsOk,
         TopupsOk, PayoutsOk, GrantsOk;
    var b := db.bookings[id];
    var next := ResolvePartial(db, id, share, refund).db;
    if refund > 0 { PostFollows(paid, PartialRefundTxn(id, b.fan, refund), next, 1, b.fan, refund); }
    else { WalletInBounds(db, b.fan); }
  }

  /** The split is of the list price, so a fan whose code paid part of it ends up richer
      than before booking exactly when the share is less than that discount. */
  lemma SplitEnrichesFanIff(db: Db, id: nat, share: int, refund: int)
    requires MoneyInv(db) && CanSplit(db, id, share, refund) && 1 <= share && 0 <= refund
    ensures var next := ResolvePartial(db, id, share, refund).db;
      ItemFlow(next.bank.ledger, BookingItem(id), OnWallet(db.bookings[id].fan)) > 0 <==> share < db.bookings[id].discount
  {
    hide BankOk, EarningsOk, HasKey, ItemFlow, PaidFor, ResolvePartial;
    SplitPays(db, id, share, refund);
    assert BookingOk(db, id);
  }

  // ── Giving money back ────────────────────────────────────────────────────

  /** The item keeps `kept` in escrow, which is all it has cost its fan; it is not paid
      out, and no other item moved. */
  ghost predicate GivesBack(was: Db, now: Db, item: Item, fan: nat, kept: int) {
    && Confined(was, now, item) && now.earnings == was.earnings && !Earned(now, item)
    && EscrowOf(now, item) == kept && ItemFlow(now.bank.ledger, item, OnWallet(fan)) == -kept
    && WalletFollows(was, now, item, fan)
  }

  /** The fan's wallet moved by what the item moved on it and no other wallet moved: the
      bonus is capped by the new balance. */
  ghost predicate WalletFollows(was: Db, now: Db, item: Item, fan: nat) {
    var moved := ItemFlow(now.bank.ledger, item, OnWallet(fan)) - ItemFlow(was.bank.ledger, item, OnWallet(fan));
    && fan < |was.bank.wallets| == |now.bank.wallets|
    && now.bank.wallets[fan].balance == was.bank.wallets[fan].balance + moved
    && now.bank.wallets[fan].bonus == Min(was.bank.wallets[fan].bonus, now.bank.wallets[fan].balance)
    && forall w :: 0 <= w < |was.bank.wallets| && w != fan ==> now.bank.wallets[w] == was.bank.wallets[w]
  }

  lemma PostFollows(db: Db, t: Txn, next: Db, k: nat, fan: nat, delta: int)
    requires BankOk(db.bank) && Post(db.bank, t).Posted? && next.bank == Post(db.bank, t).bank
    requires OnlyWalletLeg(t.legs, k, fan, delta) && fan < |db.bank.wallets|
    ensures WalletFollows(db, next, Owner(t.key), fan)
  {
    hide BankOk, Post, LegSum, ItemFlow, OnlyWalletLeg, WalletFollows, HasKey;
    if HasKey(db.bank.ledger, t.key) {
      RepeatKeepsBank(db.bank, t);
      WalletInBounds(db, fan);
      FollowsFrom(db, next, Owner(t.key), fan, 0);
    } else {
      FreshPostFollows(db, t, next, k, fan, delta);
    }
  }

  lemma FreshPostFollows(db: Db, t: Txn, next: Db, k: nat, fan: nat, delta: int)
    requires BankOk(db.bank) && Post(db.bank, t).Posted? && next.bank == Post(db.bank, t).bank && !HasKey(db.bank.ledger, t.key)
    requires OnlyWalletLeg(t.legs, k, fan, delta) && fan < |db.bank.wallets|
    ensures WalletFollows(db, next, Owner(t.key), fan)
  {
    hide BankOk, Post, LegSum, ItemFlow, OnlyWalletLeg, WalletFollows, HasKey;
    OneWalletPost(db.bank, t, k, fan, delta);
    OneWalletSum(t.legs, k, fan, delta);
    FreshPost(db.bank, t);
    FollowsFrom(db, next, Owner(t.key), fan, delta);
  }

  lemma FollowsFrom(was: Db, now: Db, item: Item, fan: nat, delta: int)
    requires fan < |was.bank.wallets| && now.bank.wallets == was.bank.wallets[fan := AfterMove(was.bank.wallets[fan], delta)]
    requires ItemFlow(now.bank.ledger, item, OnWallet(fan)) == ItemFlow(was.bank.ledger, item, OnWallet(fan)) + delta
    ensures WalletFollows(was, now, item, fan)
  {
    hide ItemFlow;
  }

  lemma RepeatKeepsBank(bank: Bank, t: Txn)
    requires Post(bank, t).Posted? && HasKey(bank.ledger, t.key)
    ensures Post(bank, t).bank == bank
  {
  }

  /** Unwinding a booking that still holds its escrow cannot fail and leaves it having
      cost neither its fan nor the platform anything. */
  lemma UnwindGivesBack(db: Db, id: nat, key: Key, status: BookingStatus)
    requires MoneyInv(db) && id < |db.bookings| && !IsUnwound(db.bookings[id].status) && !Earned(db, BookingItem(id))
    requires (key == Refund(id) && status == CancelledByFan) || (key in {Expire(id), AdminExpire(id)} && IsExpired(status))
    ensures var out := Unwind(db, id, key, status);
      && out.reply == Done && GivesBack(db, out.db, BookingItem(id), db.bookings[id].fan, 0)
      && out.db.earnings == db.earnings
      && out.db.bookings == db.bookings[id := db.bookings[id].(status := status)]
      && ItemFlow(out.db.bank.ledger, BookingItem(id), OnAccount(PromoIncentive)) == 0
  {
    hide BankOk, EarningsOk, HasKey, ItemFlow, PaidFor, LegSum, Post, WalletFollows, KeysOwned, WindowsOk, ShoutoutsOk, TopupsOk,
         PayoutsOk, GrantsOk;
    assert BookingOk(db, id);
    UnwindEffect(db, id, key, status);
    var next := Unwind(db, id, key, status).db;
    assert BookingOk(next, id);
    PostFollows(db, UnwindTxn(key, db.bookings[id]), next, 1, db.bookings[id].fan, db.bookings[id].price);
  }

  /** A refund happens exactly for a BOOKED booking within its time, and then cannot
      fail: the booking has cost nobody anything. */
  lemma RefundGivesBack(db: Db, id: nat)
    requires MoneyInv(db) && id < |db.bookings|
    ensures var out := RefundBooking(db, id); var b := db.bookings[id];
      && (out.reply != Done ==> out.db == db)
      && (out.reply == Done <==> b.status == Booked && db.now <= b.settleAt)
      && (out.reply == Done ==>
            && GivesBack(db, out.db, BookingItem(id), b.fan, 0)
            && out.db == db.(bank := out.db.bank, bookings := db.bookings[id := b.(status := CancelledByFan)], slots := out.db.slots)
            && FreesMinutes(db, out.db, b)
            && ItemFlow(out.db.bank.ledger, BookingItem(id), OnAccount(PromoIncentive)) == 0)
  {
    hide BankOk, EarningsOk, HasKey, ItemFlow, PaidFor, GivesBack, Unwind, FreesMinutes;
    assert BookingOk(db, id);
    if db.bookings[id].status == Booked && db.now <= db.bookings[id].settleAt {
      UnwindRows(db, id, Refund(id), CancelledByFan);
      UnwindGivesBack(db, id, Refund(id), CancelledByFan);
    }
  }

  /** Some attempt that ended had lasted at least so long. */
  predicate Lasted(b: Booking, seconds: int) {
    exists k :: 0 <= k < |b.calls| && LastedFor(b.calls[k], seconds)
  }

  predicate LastedFor(c: Call, seconds: int) {
    IsTerminal(c.status) && c.startedAt.Some? && c.endedAt.Some? && c.endedAt.value - c.startedAt.value >= seconds
  }

  predicate Ended(b: Booking, s: CallStatus) { exists k :: 0 <= k < |b.calls| && b.calls[k].status == s }

  /** Which expiry it is: nothing ended, the fan declined, the fan did not come, or the
      call only dropped. */
  predicate ExpiredAs(b: Booking, s: BookingStatus) {
    match s
    case ExpiredPartnerNoShow => forall k :: 0 <= k < |b.calls| ==> b.calls[k].status in {PartnerInitiated, InProgress}
    case ExpiredFanDeclined => Ended(b, MissedDeclined)
    case ExpiredFanNoJoin => Ended(b, MissedNoJoin) && !Ended(b, MissedDeclined)
    case ExpiredTechnical =>
      (Ended(b, DroppedTechnical) || Ended(b, CallCompleted)) && !Ended(b, MissedNoJoin) && !Ended(b, MissedDeclined)
    case _ => false
  }

  /** The minutes go back to the day; nothing else of any day changes. */
  predicate FreesMinutes(was: Db, now: Db, b: Booking) {
    && now.slots.Keys == was.slots.Keys
    && forall s :: s in was.slots ==>
         && now.slots[s].available == was.slots[s].available && now.slots[s].threshold == was.slots[s].threshold
         && now.slots[s].booked == if s == Slot(b.partner, b.date) then Max(0, was.slots[s].booked - b.minutes) else was.slots[s].booked
  }

  /** Day end works exactly the BOOKED bookings past their time. One whose call lasted the
      booked time is completed and its review time starts now; one with a call of three
      minutes goes to an admin; every other one is given back and says why. */
  ghost predicate Expires(was: Db, now: Db, reply: Reply, id: nat) {
    && (reply == Done <==> id < |was.bookings| && was.bookings[id].status == Booked && was.now >= was.bookings[id].settleAt)
    && (reply != Done ==> now == was)
    && (reply == Done ==>
          var b := was.bookings[id];
          && |now.bookings| == |was.bookings| && now.bookings == was.bookings[id := now.bookings[id]]
          && (var c := now.bookings[id];
              if Lasted(b, b.minutes * 60) then
                && now == was.(bookings := now.bookings)
                && c == b.(status := Completed, settleAt := was.now + was.settings.settlementWindow)
              else if Lasted(b, 180) then
                now == was.(bookings := now.bookings) && c == b.(status := RequiresAdminReview)
              else
                && now == was.(bank := now.bank, bookings := now.bookings, slots := now.slots)
                && c == b.(status := c.status) && ExpiredAs(b, c.status) && FreesMinutes(was, now, b)
                && GivesBack(was, now, BookingItem(id), b.fan, 0)
                && ItemFlow(now.bank.ledger, BookingItem(id), OnAccount(PromoIncentive)) == 0))
  }

  lemma LastedIff(b: Booking, seconds: int)
    requires seconds > 0
    ensures LongestCall(b.calls) >= seconds <==> Lasted(b, seconds)
  {
    LongestReaches(b.calls, seconds);
    assert forall k :: 0 <= k < |b.calls| ==> (CallSeconds(b.calls[k]) >= seconds <==> LastedFor(b.calls[k], seconds));
  }

  lemma ClassifiedAs(b: Booking)
    requires b.minutes > 0
    ensures Classify(b) == Completed <==> Lasted(b, b.minutes * 60)
    ensures Classify(b) == RequiresAdminReview <==> !Lasted(b, b.minutes * 60) && Lasted(b, 180)
    ensures IsExpired(Classify(b)) ==> ExpiredAs(b, Classify(b))
  {
    hide LongestCall, Lasted;
    LastedIff(b, 180);
    LastedIff(b, b.minutes * 60);
    assert AnyCall(b.calls, MissedDeclined) == Ended(b, MissedDeclined) && AnyCall(b.calls, MissedNoJoin) == Ended(b, MissedNoJoin);
    if AnyTerminal(b.calls) {
      var k :| 0 <= k < |b.calls| && IsTerminal(b.calls[k].status);
      assert Ended(b, b.calls[k].status);
    }
  }

  lemma ExpiryKeepsItsPromise(db: Db, id: nat)
    requires MoneyInv(db)
    ensures var out := ExpireBooking(db, id); Expires(db, out.db, out.reply, id)
  {
    hide BankOk, EarningsOk, HasKey, ItemFlow, PaidFor, GivesBack, Unwind, Lasted, ExpiredAs, Classify, FreesMinutes;
    if DueForExpiry(db, id) {
      assert BookingOk(db, id);
      ClassifiedAs(db.bookings[id]);
      var status := Classify(db.bookings[id]);
      if IsExpired(status) {
        UnwindRows(db, id, Expire(id), status);
        UnwindGivesBack(db, id, Expire(id), status);
      }
    }
  }

  /** An admin may expire any booking that still holds its escrow, which then has cost
      nobody anything, or declare it completed, which moves nothing. */
  ghost predicate AdminExpires(was: Db, now: Db, reply: Reply, id: nat, status: BookingStatus) {
    && (reply != Done ==> now == was)
    && (reply == Done ==>
          && id < |was.bookings| && (status == Completed || IsExpired(status))
          && now.bookings == was.bookings[id := was.bookings[id].(status := status)]
          && now == was.(bank := now.bank, bookings := now.bookings, slots := now.slots, audit := was.audit + [AuditExpireBooking(id, status)])
          && (status == Completed ==> now.bank == was.bank && now.slots == was.slots)
          && (status != Completed ==> FreesMinutes(was, now, was.bookings[id])))
    && (id < |was.bookings| && status == Completed ==> reply == Done)
    && (id < |was.bookings| && !IsUnwound(was.bookings[id].status) && !Earned(was, BookingItem(id)) && IsExpired(status) ==>
          && reply == Done && GivesBack(was, now, BookingItem(id), was.bookings[id].fan, 0)
          && ItemFlow(now.bank.ledger, BookingItem(id), OnAccount(PromoIncentive)) == 0)
  }

  lemma UnwindRows(db: Db, id: nat, key: Key, status: BookingStatus)
    requires id < |db.bookings|
    ensures var out := Unwind(db, id, key, status);
      && (out.reply == Done || out.reply.Raised?)
      && (out.reply != Done ==> out.db == db)
      && (out.reply == Done ==>
            && out.db == db.(bank := out.db.bank, bookings := out.db.bookings, slots := out.db.slots)
            && FreesMinutes(db, out.db, db.bookings[id])
            && out.db.bookings == db.bookings[id := db.bookings[id].(status := status)])
  {
    hide Post;
  }

  lemma AdminExpiryGivesBack(db: Db, id: nat, status: BookingStatus)
    requires MoneyInv(db)
    ensures var out := AdminExpireBooking(db, id, status); AdminExpires(db, out.db, out.reply, id, status)
  {
    hide MoneyInv, HasKey, ItemFlow, PaidFor, Unwind;
    var out := AdminExpireBooking(db, id, status);
    if id < |db.bookings| && IsExpired(status) {
      UnwindRows(db, id, AdminExpire(id), status);
      if !IsUnwound(db.bookings[id].status) && !Earned(db, BookingItem(id)) { UnwindGivesBack(db, id, AdminExpire(id), status); }
    }
  }

  lemma ClosesItsReports(db: Db, s: nat)
    requires s < |db.shoutouts|
    ensures var out := CancelShoutout(db, s);
      out.reply == Done ==>
        && out.db.reports == CloseReports(db.reports, ShoutoutTarget(s))
        && !OpenReportOn(out.db.reports, ShoutoutTarget(s)) && Promises.OtherReportsStay(db, out.db, s)
  {
    hide Post, Fees, PaidFor;
    Promises.ClosedReports(db.reports, ShoutoutTarget(s));
  }

  /** A live shout-out not paid out can always be cancelled, and has then cost nothing. */
  lemma CancelGivesBack(db: Db, s: nat)
    requires MoneyInv(db) && s < |db.shoutouts|
    ensures var out := CancelShoutout(db, s); var r := db.shoutouts[s];
      && (out.reply != Done ==> out.db == db)
      && (out.reply == Done <==> r.status in {AwaitingVideo, Delivered, IssueReported} && !Earned(db, ShoutoutItem(s)))
      && (out.reply == Done ==>
            && GivesBack(db, out.db, ShoutoutItem(s), r.fan, 0)
            && out.db == db.(bank := out.db.bank, reports := out.db.reports, shoutouts := db.shoutouts[s := r.(status := RefundedByAdmin)])
            && !OpenReportOn(out.db.reports, ShoutoutTarget(s)) && Promises.OtherReportsStay(db, out.db, s))
  {
    hide BankOk, EarningsOk, HasKey, ItemFlow, PaidFor, LegSum, Post, Fees, CloseReports;
    assert ShoutoutOk(db, s);
    if IsLive(db.shoutouts[s].status) && !Earned(db, ShoutoutItem(s)) {
      ClosesItsReports(db, s);
      CancelEffect(db, s);
      assert ShoutoutOk(CancelShoutout(db, s).db, s);
      var r := db.shoutouts[s];
      PostFollows(db, CancelTxn(s, r), CancelShoutout(db, s).db, 1, r.fan, r.price + Fees(r.corrections));
    }
  }

  /** An overdue shout-out always expires, once, and keeps exactly the paid fees. */
  lemma ExpiryGivesBack(db: Db, s: nat)
    requires MoneyInv(db) && s < |db.shoutouts|
    ensures var out := ExpireShoutout(db, s); var r := db.shoutouts[s];
      && (out.reply != Done ==> out.db == db)
      && (out.reply == Done <==> ShoutoutOverdue(db, s))
      && (out.reply == Done ==>
            && GivesBack(db, out.db, ShoutoutItem(s), r.fan, Fees(r.corrections))
            && out.db == db.(bank := out.db.bank, shoutouts := db.shoutouts[s := r.(status := ExpiredNoDelivery)])
            && !ExpireShoutout(out.db, s).reply.Done?)
  {
    hide BankOk, EarningsOk, HasKey, ItemFlow, PaidFor, LegSum, Post, Fees;
    assert ShoutoutOk(db, s);
    if ShoutoutOverdue(db, s) {
      ExpireEffect(db, s);
      assert ShoutoutOk(ExpireShoutout(db, s).db, s);
      var r := db.shoutouts[s];
      PostFollows(db, Shoutouts.ExpireTxn(s, r), ExpireShoutout(db, s).db, 1, r.fan, r.price);
    }
  }

  /** A paid window whose partner was not paid. */
  ghost predicate HoldsWindow(db: Db, c: nat, w: nat) {
    HasWindow(db, c, w) && WindowAt(db, c, w).kind == Paid && !Earned(db, WindowItem(c, w))
  }

  ghost predicate ExpiresWindow(was: Db, now: Db, reply: Reply, c: nat, w: nat) {
    && reply == Done && HasWindow(was, c, w) && HasWindow(now, c, w)
    && GivesBack(was, now, WindowItem(c, w), was.conversations[c].fan, 0)
    && now.conversations == SetWindow(was, c, w, WindowAt(was, c, w).(status := WindowExpired)).conversations
    && now == was.(bank := now.bank, conversations := now.conversations)
  }

  /** A paid window that was not settled is always refunded in full and expired. */
  lemma ExpiredWindowGivesBack(db: Db, c: nat, w: nat)
    requires MoneyInv(db) && HoldsWindow(db, c, w)
    ensures var out := ExpireWindow(db, c, w); ExpiresWindow(db, out.db, out.reply, c, w)
  {
    hide BankOk, EarningsOk, HasKey, ItemFlow, PaidFor, LegSum, Post;
    assert WindowOk(db, c, w);
    ExpireWindowEffect(db, c, w);
    var next := ExpireWindow(db, c, w).db;
    assert WindowOk(next, c, w);
    assert next.earnings == db.earnings;
    var fan, charge := db.conversations[c].fan, WindowAt(db, c, w).charge;
    PostFollows(db, WindowRefundTxn(c, w, fan, charge), next, 1, fan, charge);
  }

  // ── Taking money in ──────────────────────────────────────────────────────

  /** The item's escrow grew by exactly what its fan paid for it. */
  ghost predicate TakesIn(was: Db, now: Db, item: Item, fan: nat, amount: int) {
    && amount > 0 && Confined(was, now, item) && now.earnings == was.earnings
    && EscrowOf(now, item) == EscrowOf(was, item) + amount
    && ItemFlow(now.bank.ledger, item, OnWallet(fan)) == ItemFlow(was.bank.ledger, item, OnWallet(fan)) - amount
    && WalletFollows(was, now, item, fan)
  }

  lemma HoldTakesIn(db: Db, next: Db, key: Key, fan: nat, amount: int)
    requires BankOk(db.bank) && !HasKey(db.bank.ledger, key) && next.earnings == db.earnings
    requires var t := Txn(key, amount, [WalletLeg(fan, -amount), Plain(Escrow, amount)]);
      Post(db.bank, t).Posted? && next.bank == Post(db.bank, t).bank
    ensures TakesIn(db, next, Owner(key), fan, amount)
  {
    hide BankOk, HasKey, ItemFlow, PaidFor, LegSum;
    var t := Txn(key, amount, [WalletLeg(fan, -amount), Plain(Escrow, amount)]);
    PairSum(WalletLeg(fan, -amount), Plain(Escrow, amount));
    PostConfined(db, t, next);
    FreshPost(db.bank, t);
    PostFollows(db, t, next, 0, fan, -amount);
  }

  /** A hold goes through exactly when it is positive and the balance covers it. */
  lemma HoldPostsIff(db: Db, key: Key, fan: nat, amount: int)
    requires BankOk(db.bank) && !HasKey(db.bank.ledger, key) && fan < |db.bank.wallets|
    ensures var t := Txn(key, amount, [WalletLeg(fan, -amount), Plain(Escrow, amount)]);
      && (Post(db.bank, t).Posted? <==> 0 < amount <= db.bank.wallets[fan].balance)
      && (amount <= 0 ==> Post(db.bank, t) == Failed(BadAmount))
      && (amount > db.bank.wallets[fan].balance ==> Post(db.bank, t) == Failed(CheckViolation))
  {
    assert WalletOk(db.bank.ledger, db.bank.wallets, fan);
    PairSum(WalletLeg(fan, -amount), Plain(Escrow, amount));
    FirstLegMoves(db.bank.wallets, WalletLeg(fan, -amount), Plain(Escrow, amount), Plain(Escrow, amount));
  }

  /** A request is taken exactly when the fan can pay a positive price. It holds that
      price for a new row with the whole time to deliver. */
  ghost predicate RequestsVideo(was: Db, now: Db, reply: Reply, fan: nat, partner: nat, blocked: bool, price: Option<int>) {
    var s := |was.shoutouts|;
    && (reply == Done <==> fan < |was.bank.wallets| && !blocked && price.Some? && 0 < price.value <= was.bank.wallets[fan].balance)
    && (reply != Done ==> now == was)
    && (reply == Done ==>
          && now == was.(bank := now.bank, shoutouts := now.shoutouts)
          && TakesIn(was, now, ShoutoutItem(s), fan, price.value)
          && |now.shoutouts| == s + 1 && was.shoutouts <= now.shoutouts
          && var r := now.shoutouts[s];
             && r.fan == fan && r.partner == partner && r.price == price.value && r.status == AwaitingVideo
             && r.settleAt == was.now + was.settings.settlementWindow
             && r.confirmed.None? && !r.freeUsed && !r.disputed && r.reviewDeadline.None? && r.corrections == [])
  }

  lemma RequestTakesIn(db: Db, fan: nat, partner: nat, blocked: bool, price: Option<int>)
    requires MoneyInv(db)
    ensures var out := RequestShoutout(db, fan, partner, blocked, price);
      RequestsVideo(db, out.db, out.reply, fan, partner, blocked, price)
  {
    hide BankOk, HasKey, ItemFlow, PaidFor, LegSum, EarningsOk, Post, TakesIn;
    var out := RequestShoutout(db, fan, partner, blocked, price);
    if fan < |db.bank.wallets| && !blocked && price.Some? {
      FreshItem(db, ShoutoutItem(|db.shoutouts|));
      assert Owner(Shout(|db.shoutouts|)) == ShoutoutItem(|db.shoutouts|);
      HoldPostsIff(db, Shout(|db.shoutouts|), fan, price.value);
      if out.reply == Done { HoldTakesIn(db, out.db, Shout(|db.shoutouts|), fan, price.value); }
    }
  }

  /** The first round is free and the fan's to ask for once; every later one holds the
      fee in force. Either way the partner owes a new delivery. */
  ghost predicate Corrects(was: Db, now: Db, reply: Reply, fan: nat, s: nat) {
    && (reply == Done <==> MayCorrect(was, fan, s) && (was.shoutouts[s].freeUsed ==> Affords(was, fan, was.settings.correctionFee)))
    && (reply == Refused(InsufficientBalance) <==>
          MayCorrect(was, fan, s) && was.shoutouts[s].freeUsed
          && (was.settings.correctionFee < 0 || was.settings.correctionFee > was.bank.wallets[fan].balance))
    && (reply != Done ==> now == was)
    && (reply == Done ==>
          && s < |was.shoutouts| == |now.shoutouts|
          && now == was.(bank := now.bank, shoutouts := was.shoutouts[s := now.shoutouts[s]])
          && (var r, n := was.shoutouts[s], now.shoutouts[s];
              && n == r.(status := AwaitingVideo, freeUsed := true, corrections := n.corrections)
              && |n.corrections| == |r.corrections| + 1 && r.corrections <= n.corrections
              && (var round := n.corrections[|r.corrections|];
                  && !round.resubmitted
                  && (if r.freeUsed
                      then round.kind == PaidRound && round.fee == was.settings.correctionFee
                           && TakesIn(was, now, ShoutoutItem(s), fan, was.settings.correctionFee)
                      else round.kind == FreeRound && round.fee == 0 && now.bank == was.bank))))
  }

  /** It is the fan's own delivery, neither confirmed nor ever disputed. */
  predicate MayCorrect(db: Db, fan: nat, s: nat) {
    && s < |db.shoutouts| && fan == db.shoutouts[s].fan < |db.bank.wallets|
    && db.shoutouts[s].status == Delivered && db.shoutouts[s].confirmed.None? && !db.shoutouts[s].disputed
  }

  predicate Affords(db: Db, fan: nat, amount: int) {
    fan < |db.bank.wallets| && 0 < amount <= db.bank.wallets[fan].balance
  }

  lemma CorrectionTakesIn(db: Db, fan: nat, s: nat)
    requires MoneyInv(db)
    ensures var out := RequestCorrection(db, fan, s); Corrects(db, out.db, out.reply, fan, s)
  {
    hide BankOk, HasKey, ItemFlow, PaidFor, LegSum, EarningsOk, Post, TakesIn;
    var out := RequestCorrection(db, fan, s);
    if s < |db.shoutouts| && fan == db.shoutouts[s].fan {
      var key := ShoutCorrection(s, |db.shoutouts[s].corrections|);
      assert ShoutoutOk(db, s);
      assert !HasKey(db.bank.ledger, key) && Owner(key) == ShoutoutItem(s);
      HoldPostsIff(db, key, fan, db.settings.correctionFee);
      if out.reply == Done && db.shoutouts[s].freeUsed { HoldTakesIn(db, out.db, key, fan, db.settings.correctionFee); }
    }
  }

  /** A question joins the open window if that has room, else opens one: the first of a
      conversation is free, every later one is paid. It is charged exactly when it opens
      a paid window, and otherwise moves no money. */
  ghost predicate Asks(was: Db, now: Db, reply: Reply, fan: nat, partner: nat, blocked: bool, price: Option<int>) {
    var found := FindConversation(was.conversations, fan, partner);
    && (reply == Done <==>
          && fan < |was.bank.wallets| && !blocked
          && (found.None? || RoomToAsk(was, was.conversations[found.value].windows, fan, price)))
    && (reply != Done ==> now == was)
    && (reply == Done ==>
          match found
          case None =>
            && |now.conversations| == |was.conversations| + 1 && was.conversations <= now.conversations
            && now == was.(conversations := now.conversations)
            && (var c := now.conversations[|was.conversations|];
                c.fan == fan && c.partner == partner && |c.windows| == 1 && OpensFree(c.windows[0]))
          case Some(c) =>
            && |now.conversations| == |was.conversations|
            && now == was.(bank := now.bank, conversations := was.conversations[c := now.conversations[c]])
            && now.conversations[c] == was.conversations[c].(windows := now.conversations[c].windows)
            && JoinsOrOpens(was, now, c, fan, price))
  }

  ghost predicate JoinsOrOpens(was: Db, now: Db, c: nat, fan: nat, price: Option<int>)
    requires c < |was.conversations| == |now.conversations|
  {
    var before, after := was.conversations[c].windows, now.conversations[c].windows;
    match NewestOpen(before)
    case Some(k) =>
      && FanMessages(before[k].messages) < before[k].cap
      && after == before[k := before[k].(messages := before[k].messages + [FromFan])] && now.bank == was.bank
    case None =>
      && |after| == |before| + 1 && before <= after
      && (var w := after[|before|];
          if |before| == 0 then OpensFree(w) && now.bank == was.bank
          else OpensPaid(was, w) && price == Some(w.charge) && TakesIn(was, now, WindowItem(c, |before|), fan, w.charge))
  }

  /** The open window has room, or the next one is free or affordable. */
  predicate RoomToAsk(db: Db, windows: seq<Window>, fan: nat, price: Option<int>) {
    match NewestOpen(windows)
    case Some(k) => FanMessages(windows[k].messages) < windows[k].cap
    case None => |windows| == 0 || (price.Some? && Affords(db, fan, price.value))
  }

  /** A free window has no clock. */
  predicate OpensFree(w: Window) {
    && w.kind == Free && w.charge == 0 && w.cap == 5 && w.status == Open && w.messages == [FromFan]
    && w.responseDeadline.None? && w.settleAt.None?
  }

  /** A paid window gives the partner the response time and the fan the review time. */
  predicate OpensPaid(db: Db, w: Window) {
    && w.kind == Paid && w.cap == 5 && w.status == Open && w.messages == [FromFan]
    && w.responseDeadline == Some(db.now + db.settings.questionSla)
    && w.settleAt == Some(db.now + db.settings.settlementWindow)
  }

  lemma AskTakesIn(db: Db, fan: nat, partner: nat, blocked: bool, price: Option<int>)
    requires MoneyInv(db)
    ensures var out := AskQuestion(db, fan, partner, blocked, price); Asks(db, out.db, out.reply, fan, partner, blocked, price)
  {
    hide BankOk, HasKey, ItemFlow, PaidFor, LegSum, EarningsOk, Post, FanMessages, TakesIn;
    var out := AskQuestion(db, fan, partner, blocked, price);
    var found := FindConversation(db.conversations, fan, partner);
    if fan < |db.bank.wallets| && price.Some? && found.Some? && |db.conversations[found.value].windows| > 0
       && NewestOpen(db.conversations[found.value].windows).None? {
      var c := found.value;
      var w := |db.conversations[c].windows|;
      FreshItem(db, WindowItem(c, w));
      assert Owner(Question(c, w)) == WindowItem(c, w);
      HoldPostsIff(db, Question(c, w), fan, price.value);
      if out.reply == Done { HoldTakesIn(db, out.db, Question(c, w), fan, price.value); }
    }
  }

  /** The day has room, the quote leaves the fan something to pay and the fan can pay it. */
  predicate CanBook(db: Db, fan: nat, partner: nat, date: int, minutes: Minutes, quote: Option<Quote>) {
    var s := Slot(partner, date);
    && quote.Some? && quote.value.discount >= 0 && Affords(db, fan, quote.value.base - quote.value.discount)
    && s in db.slots && db.slots[s].available && db.slots[s].booked + minutes <= db.slots[s].threshold
  }

  /** A booking is made exactly when it can be. It holds the list price for a new row, the
      fan's part and the platform's, and takes its minutes from the day. */
  ghost predicate Books(was: Db, now: Db, reply: Reply, fan: nat, partner: nat, date: int, minutes: Minutes, quote: Option<Quote>) {
    var i := |was.bookings|;
    var me := BookingItem(i);
    var s := Slot(partner, date);
    && (reply == Done <==> CanBook(was, fan, partner, date, minutes, quote))
    && (reply != Done ==> now == was)
    && (reply == Done ==>
          && now == was.(bank := now.bank, bookings := now.bookings, slots := now.slots)
          && |now.bookings| == i + 1 && was.bookings <= now.bookings && Confined(was, now, me)
          && (var b := now.bookings[i];
              && b.status == Booked && b.fan == fan && b.partner == partner && b.date == date && b.minutes == minutes
              && b.calls == [] && !b.fanReady && b.settleAt == was.now + was.settings.settlementWindow
              && b.original == quote.value.base && b.discount == quote.value.discount
              && EscrowOf(now, me) == b.original == b.price + b.discount
              && ItemFlow(now.bank.ledger, me, OnWallet(fan)) == -b.price < 0 && WalletFollows(was, now, me, fan)
              && ItemFlow(now.bank.ledger, me, OnAccount(PromoIncentive)) == -b.discount <= 0)
          && s in was.slots && now.slots == was.slots[s := was.slots[s].(booked := was.slots[s].booked + minutes)])
  }

  lemma BookTakesIn(db: Db, fan: nat, partner: nat, date: int, minutes: Minutes, quote: Option<Quote>)
    requires MoneyInv(db)
    ensures var out := BookCall(db, fan, partner, date, minutes, quote);
      Books(db, out.db, out.reply, fan, partner, date, minutes, quote)
  {
    hide BankOk, HasKey, ItemFlow, PaidFor, LegSum, EarningsOk, Post, BookTxn, WalletFollows;
    var out := BookCall(db, fan, partner, date, minutes, quote);
    FreshItem(db, BookingItem(|db.bookings|));
    if fan < |db.bank.wallets| && quote.Some? { BookPostsIff(db.bank, |db.bookings|, fan, quote.value); }
    if out.reply == Done {
      BookCallKeepsMoney(db, fan, partner, date, minutes, quote);
      assert BookingOk(out.db, |db.bookings|);
      BookConfined(db, fan, quote.value, out.db);
    }
  }

  lemma BookPostsIff(bank: Bank, id: nat, fan: nat, q: Quote)
    requires BankOk(bank) && fan < |bank.wallets| && !HasKey(bank.ledger, Book(id))
    ensures Post(bank, BookTxn(id, fan, q)).Posted? && q.base > q.discount <==>
              q.discount >= 0 && 0 < q.base - q.discount <= bank.wallets[fan].balance
  {
    var x, y, z := WalletLeg(fan, -(q.base - q.discount)), Plain(Escrow, q.base), Plain(PromoIncentive, -q.discount);
    PairSum(x, y);
    TripleSum(x, y, z);
    FirstLegMoves(bank.wallets, x, y, z);
    assert WalletOk(bank.ledger, bank.wallets, fan);
  }

  lemma BookConfined(db: Db, fan: nat, q: Quote, next: Db)
    requires BankOk(db.bank) && next.earnings == db.earnings
    requires var t := BookTxn(|db.bookings|, fan, q); Post(db.bank, t).Posted? && next.bank == Post(db.bank, t).bank
    requires PaidFor(db.earnings, BookingItem(|db.bookings|)).None?
    requires fan < |db.bank.wallets|
    ensures Confined(db, next, BookingItem(|db.bookings|)) && PaidFor(next.earnings, BookingItem(|db.bookings|)).None?
    ensures WalletFollows(db, next, BookingItem(|db.bookings|), fan)
  {
    hide BankOk, PaidFor, Post, LegSum, ItemFlow, HasKey, WalletFollows;
    PostConfined(db, BookTxn(|db.bookings|, fan, q), next);
    PostFollows(db, BookTxn(|db.bookings|, fan, q), next, 0, fan, -(q.base - q.discount));
  }
}
