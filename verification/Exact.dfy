/** Where a call tests less than it needs: the exact condition under which it keeps
    the books, for all inputs.
 */
module Exact {
  import opened Schema
  import opened Ledger
  import opened Tables
  import opened Bookings
  import opened Calls
  import opened Messages
  import opened Shoutouts
  import opened Platform
  import opened MoneyInvariant
  import opened MoneyFrames
  import opened BookingMoney
  import opened WindowMoney
  import opened Capacity
  import opened CallRules
  import opened MessageRules
  import opened ShoutoutRules
  import opened Runs
  import opened Guarantees

  // ── rpc_admin_expire_booking ─────────────────────────────────────────────

  /** The unwinding legs always post, whatever state the booking is in. */
  lemma UnwindAlwaysPosts(db: Db, id: nat, key: Key, status: BookingStatus)
    requires BankOk(db.bank) && id < |db.bookings| && BookingRowOk(db.bookings[id], |db.bank.wallets|)
    ensures Unwind(db, id, key, status).reply == Done
    ensures forall k :: HasKey(db.bank.ledger, k) || k == key ==> HasKey(Unwind(db, id, key, status).db.bank.ledger, k)
    ensures HasKey(db.bank.ledger, key) ==> Unwind(db, id, key, status).db.bank == db.bank
  {
    hide BankOk, ItemFlow;
    var t := UnwindTxn(key, db.bookings[id]);
    UnwindTxnSum(key, db.bookings[id]);
    UnwindApplies(db, t, db.bookings[id]);
    if !HasKey(db.bank.ledger, key) { FreshPost(db.bank, t); }
  }

  /** An admin's repeat of an expiry that had already released the minutes. */
  predicate RepeatsHarmlessly(db: Db, id: nat, status: BookingStatus)
    requires id < |db.bookings|
  {
    var s := Slot(db.bookings[id].partner, db.bookings[id].date);
    IsExpired(status) && HasKey(db.bank.ledger, AdminExpire(id)) && s in db.slots && db.slots[s].booked == 0
  }

  /** The admin's expiry tests no status. It keeps escrow, keys and minutes in step
      exactly when the booking still holds its escrow, is only marked completed
      again, or the admin repeats an own expiry on a day with no minutes booked. */
  lemma AdminExpireExact(db: Db, id: nat, status: BookingStatus)
    requires Inv(db) && id < |db.bookings| && (status == Completed || IsExpired(status))
    ensures var next := AdminExpireBooking(db, id, status).db;
      MoneyInv(next) && CapacityOk(next) <==> AdminExpireAllowed(db, id, status) || RepeatsHarmlessly(db, id, status)
  {
    hide CapacityOk, CallsOk, MessagesOk, ShoutoutRulesOk, BankOk, EarningsOk, HasKey, ItemFlow, Unwind, AdminExpireBooking;
    assert BookingOk(db, id);
    var next := AdminExpireBooking(db, id, status).db;
    if AdminExpireAllowed(db, id, status) {
      AdminExpireKeepsMoney(db, id, status);
      AdminExpireKeepsCapacity(db, id, status);
    } else if HasKey(db.bank.ledger, AdminExpire(id)) && IsExpired(status) {
      AdminExpireKeepsMoney(db, id, status);
      RepeatReleasesAgain(db, id, status);
    } else {
      AdminExpireBreaks(db, id, status);
    }
  }

  lemma AdminExpireBreaks(db: Db, id: nat, status: BookingStatus)
    requires id < |db.bookings| && BookingOk(db, id) && BankOk(db.bank) && (status == Completed || IsExpired(status))
    requires !AdminExpireAllowed(db, id, status)
    requires IsExpired(status) ==> !HasKey(db.bank.ledger, AdminExpire(id))
    ensures !MoneyInv(AdminExpireBooking(db, id, status).db)
  {
    hide BankOk, EarningsOk, ItemFlow, HasKey, Unwind;
    var next := AdminExpireBooking(db, id, status).db;
    UnwindAlwaysPosts(db, id, AdminExpire(id), status);
    UnwindShape(db, id, AdminExpire(id), status);
    assert !BookingOk(next, id);
  }

  /** The damage: a second unwinding takes the booking's list price out of escrow
      that other services paid in. */
  lemma AdminExpireOverdraws(db: Db, id: nat, status: BookingStatus)
    requires Inv(db) && id < |db.bookings| && IsUnwound(db.bookings[id].status) && IsExpired(status)
    requires !HasKey(db.bank.ledger, AdminExpire(id))
    ensures EscrowOf(AdminExpireBooking(db, id, status).db, BookingItem(id)) == -db.bookings[id].original
  {
    hide CapacityOk, CallsOk, MessagesOk, ShoutoutRulesOk, BankOk, EarningsOk, HasKey, ItemFlow, Unwind, LegSum, Post;
    assert BookingOk(db, id);
    UnwindAlwaysPosts(db, id, AdminExpire(id), status);
    SecondUnwindOverdraws(db, id, AdminExpire(id), status);
  }

  lemma SecondUnwindOverdraws(db: Db, id: nat, key: Key, status: BookingStatus)
    requires id < |db.bookings| && BookingOk(db, id) && IsUnwound(db.bookings[id].status)
    requires Unwind(db, id, key, status).reply == Done && !HasKey(db.bank.ledger, key) && Owner(key) == BookingItem(id)
    ensures EscrowOf(Unwind(db, id, key, status).db, BookingItem(id)) == -db.bookings[id].original
  {
    hide HasKey, ItemFlow, LegSum, Post;
    var t := UnwindTxn(key, db.bookings[id]);
    UnwindTxnSum(key, db.bookings[id]);
    UnwindBank(db, id, key, status);
    FreshPost(db.bank, t);
    assert ItemFlow(db.bank.ledger, BookingItem(id), OnAccount(Escrow)) == 0;
  }

  lemma UnwindBank(db: Db, id: nat, key: Key, status: BookingStatus)
    requires id < |db.bookings| && Unwind(db, id, key, status).reply == Done
    ensures Post(db.bank, UnwindTxn(key, db.bookings[id])).Posted?
    ensures Unwind(db, id, key, status).db.bank == Post(db.bank, UnwindTxn(key, db.bookings[id])).bank
  {
    hide Post;
  }

  lemma UnwindShape(db: Db, id: nat, key: Key, status: BookingStatus)
    requires id < |db.bookings|
    ensures var out := Unwind(db, id, key, status); out.reply == Done ==>
      && out.db == db.(bank := out.db.bank, bookings := db.bookings[id := db.bookings[id].(status := status)],
                       slots := ReleaseMinutes(db.slots, db.bookings[id]))
  {
    hide Post;
  }

  lemma RepeatReleasesAgain(db: Db, id: nat, status: BookingStatus)
    requires Inv(db) && id < |db.bookings| && IsExpired(status) && HasKey(db.bank.ledger, AdminExpire(id))
    ensures CapacityOk(AdminExpireBooking(db, id, status).db) <==> RepeatsHarmlessly(db, id, status)
  {
    hide CallsOk, MessagesOk, ShoutoutRulesOk, BankOk, EarningsOk, HasKey, ItemFlow, Unwind, BookedMinutes;
    assert BookingOk(db, id);
    var b := db.bookings[id];
    var mine := Slot(b.partner, b.date);
    var next := AdminExpireBooking(db, id, status).db;
    UnwindAlwaysPosts(db, id, AdminExpire(id), status);
    UnwindShape(db, id, AdminExpire(id), status);
    assert SlotOk(db, mine);
    MinutesCover(db.bookings, id, mine);
    forall s | s in db.slots ensures SlotOk(db, s) && BookedMinutes(next.bookings, s) == BookedMinutes(db.bookings, s) {
      MinutesUpdate(db.bookings, id, b.(status := status), s);
    }
    assert next.slots == db.slots[mine := db.slots[mine].(booked := Max(0, db.slots[mine].booked - b.minutes))];
    if db.slots[mine].booked == 0 {
      assert next.slots == db.slots;
    } else {
      assert !SlotOk(next, mine);
    }
  }

  // ── The expiry item of a question window ─────────────────────────────────

  /** The item re-reads nothing. It keeps the books exactly when the window was not
      settled since the job listed it. */
  lemma ExpireWindowExact(db: Db, c: nat, w: nat)
    requires Inv(db) && HasWindow(db, c, w)
    ensures MoneyInv(ExpireWindow(db, c, w).db) <==> !Earned(db, WindowItem(c, w))
  {
    hide CapacityOk, CallsOk, MessagesOk, ShoutoutRulesOk, BankOk, EarningsOk, HasKey, ItemFlow;
    assert WindowOk(db, c, w);
    if !Earned(db, WindowItem(c, w)) {
      ExpireWindowKeepsMoney(db, c, w);
    } else {
      var next := ExpireWindow(db, c, w).db;
      var row := WindowAt(db, c, w);
      CreditPosts(db, WindowRefundTxn(c, w, db.conversations[c].fan, row.charge), db.conversations[c].fan, row.charge);
      SetTouchesOne(db, db.(bank := next.bank), c, w, row.(status := WindowExpired));
      assert !WindowOk(next, c, w);
    }
  }

  /** The damage: the fan is refunded a charge the partner was already paid. */
  lemma StaleExpiryOverdraws(db: Db, c: nat, w: nat)
    requires Inv(db) && HasWindow(db, c, w) && Earned(db, WindowItem(c, w))
    ensures ExpireWindow(db, c, w).reply == Done
    ensures EscrowOf(ExpireWindow(db, c, w).db, WindowItem(c, w)) == -WindowAt(db, c, w).charge
  {
    hide CapacityOk, CallsOk, MessagesOk, ShoutoutRulesOk, BankOk, EarningsOk, HasKey, ItemFlow, LegSum;
    assert WindowOk(db, c, w);
    var fan, charge := db.conversations[c].fan, WindowAt(db, c, w).charge;
    var t := WindowRefundTxn(c, w, fan, charge);
    CreditPosts(db, t, fan, charge);
    FreshPost(db.bank, t);
  }

  // ── rpc_admin_resolve_partial_call ───────────────────────────────────────

  /** A split that adds up keeps the books exactly when the partner's share is at
      least one paisa and the fan's is not negative. */
  lemma ResolvePartialExact(db: Db, id: nat, share: int, refund: int)
    requires Inv(db) && id < |db.bookings| && db.bookings[id].status == RequiresAdminReview
    requires share + refund == db.bookings[id].original
    ensures MoneyInv(ResolvePartial(db, id, share, refund).db) <==> share >= 1 && refund >= 0
  {
    hide CapacityOk, CallsOk, MessagesOk, ShoutoutRulesOk, BankOk, EarningsOk, HasKey, ItemFlow;
    assert BookingOk(db, id);
    var b := db.bookings[id];
    if share >= 1 && refund >= 0 {
      ResolvePartialKeepsMoney(db, id, share, refund);
    } else if share < 1 {
      NothingForThePartner(db, id, share, refund);
    } else {
      TooMuchForThePartner(db, id, share, refund);
    }
  }

  lemma NothingForThePartner(db: Db, id: nat, share: int, refund: int)
    requires id < |db.bookings| && BookingOk(db, id) && BankOk(db.bank)
    requires db.bookings[id].status == RequiresAdminReview
    requires share < 1 && share + refund == db.bookings[id].original
    ensures !MoneyInv(ResolvePartial(db, id, share, refund).db)
  {
    hide BankOk, EarningsOk, HasKey, ItemFlow, LegSum;
    var b := db.bookings[id];
    var t := PartialRefundTxn(id, b.fan, refund);
    CreditPosts(db, t, b.fan, refund);
    FreshPost(db.bank, t);
    var next := ResolvePartial(db, id, share, refund).db;
    assert next.bookings[id] == b.(status := Completed);
    assert !BookingOk(next, id);
  }

  /** The damage: a zero share refunds the fan in full yet leaves a completed, unpaid
      booking, which the next settlement pays in full. */
  lemma ZeroShareIsPaidAgain(db: Db, id: nat)
    requires Inv(db) && id < |db.bookings| && db.bookings[id].status == RequiresAdminReview
    requires !OpenCallReport(db.reports, id)
    ensures var split := ResolvePartial(db, id, 0, db.bookings[id].original).db;
      && SettleBooking(split, id).reply == Done
      && EscrowOf(SettleBooking(split, id).db, BookingItem(id)) == -db.bookings[id].original
  {
    hide CapacityOk, CallsOk, MessagesOk, ShoutoutRulesOk, BankOk, HasKey, ItemFlow, LegSum, PaidFor, EarningsOk;
    assert BookingOk(db, id);
    var b := db.bookings[id];
    var t := PartialRefundTxn(id, b.fan, b.original);
    CreditPosts(db, t, b.fan, b.original);
    var split := ResolvePartial(db, id, 0, b.original).db;
    FreshStep(db, t, split);
    PayPartnerEffect(split, BookingItem(id), b.partner, Settle(id), b.original);
  }

  lemma TooMuchForThePartner(db: Db, id: nat, share: int, refund: int)
    requires id < |db.bookings| && BookingOk(db, id) && BankOk(db.bank) && EarningsOk(db)
    requires db.bookings[id].status == RequiresAdminReview
    requires refund < 0 && share + refund == db.bookings[id].original
    ensures !MoneyInv(ResolvePartial(db, id, share, refund).db)
  {
    hide BankOk, EarningsOk, HasKey, ItemFlow, LegSum, PaidFor;
    var b := db.bookings[id];
    PayPartnerEffect(db, BookingItem(id), b.partner, PartialSettle(id), share);
    var next := ResolvePartial(db, id, share, refund).db;
    assert PaidFor(next.earnings, BookingItem(id)) == Some(share);
    assert !BookingOk(next, id);
  }

  // ── rpc_admin_recover_call ───────────────────────────────────────────────

  /** Recovery marks a booking expired without refunding it: harmless exactly when
      the booking had already been expired. */
  lemma AdminRecoverExact(db: Db, id: nat)
    requires Inv(db) && id < |db.bookings|
    requires db.bookings[id].status in {Booked, ExpiredTechnical, ExpiredPartnerNoShow}
    ensures MoneyInv(AdminRecoverCall(db, id).db) <==> db.bookings[id].status != Booked
  {
    hide CapacityOk, CallsOk, MessagesOk, ShoutoutRulesOk, BankOk, EarningsOk, HasKey, ItemFlow;
    assert BookingOk(db, id);
    var next := AdminRecoverCall(db, id).db;
    if db.bookings[id].status != Booked {
      BookingRewritten(db, next, id);
    } else {
      assert next.bookings[id].status == ExpiredTechnical;
      assert !BookingOk(next, id);
    }
  }

  /** The damage: the booking counts as expired while escrow keeps its list price and
      the fan is out of pocket. */
  lemma AdminRecoverStrands(db: Db, id: nat)
    requires Inv(db) && id < |db.bookings| && db.bookings[id].status == Booked
    ensures var b := db.bookings[id]; var next := AdminRecoverCall(db, id).db;
      && id < |next.bookings| && next.bookings[id].status == ExpiredTechnical
      && EscrowOf(next, BookingItem(id)) == b.original > 0
      && ItemFlow(next.bank.ledger, BookingItem(id), OnWallet(b.fan)) == -b.price
  {
    hide CapacityOk, CallsOk, MessagesOk, ShoutoutRulesOk, BankOk, EarningsOk, HasKey, ItemFlow;
    assert BookingOk(db, id);
    assert AdminRecoverCall(db, id).db.bank == db.bank;
  }

  // ── rpc_expire_shoutout ──────────────────────────────────────────────────

  lemma {:induction false} FeesZeroIff(cs: seq<Correction>)
    requires forall k :: 0 <= k < |cs| && cs[k].kind == PaidRound ==> cs[k].fee > 0
    ensures Fees(cs) >= 0
    ensures Fees(cs) == 0 <==> forall k :: 0 <= k < |cs| ==> cs[k].kind != PaidRound
  {
    if |cs| > 0 { FeesZeroIff(cs[..|cs| - 1]); }
  }

  /** Expiry gives the fan everything back exactly when no paid round was bought. */
  lemma ExpiryIsFullRefundIff(db: Db, s: nat)
    requires Inv(db) && s < |db.shoutouts| && db.shoutouts[s].status == ExpiredNoDelivery
    ensures ItemFlow(db.bank.ledger, ShoutoutItem(s), OnWallet(db.shoutouts[s].fan)) == 0 <==>
      forall k :: 0 <= k < |db.shoutouts[s].corrections| ==> db.shoutouts[s].corrections[k].kind != PaidRound
  {
    hide CapacityOk, CallsOk, MessagesOk, ShoutoutRulesOk, BankOk, EarningsOk, HasKey, ItemFlow;
    assert ShoutoutOk(db, s);
    FeesZeroIff(db.shoutouts[s].corrections);
  }
}
