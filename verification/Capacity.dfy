/** A partner's booked minutes on a day are exactly the minutes of the bookings
    that have not been unwound.
 */
module Capacity {
  import opened Schema
  import opened Ledger
  import opened Tables
  import opened Bookings
  import opened Calls
  import opened Platform
  import opened CallRules

  function MinutesOn(b: Booking, s: Slot): int {
    if Slot(b.partner, b.date) == s && !IsUnwound(b.status) then b.minutes else 0
  }

  function BookedMinutes(bs: seq<Booking>, s: Slot): int {
    if |bs| == 0 then 0 else BookedMinutes(bs[..|bs| - 1], s) + MinutesOn(bs[|bs| - 1], s)
  }

  predicate SlotOk(db: Db, s: Slot)
    requires s in db.slots
  {
    db.slots[s].booked == BookedMinutes(db.bookings, s) && 0 <= db.slots[s].threshold <= 600
  }

  ghost predicate CapacityOk(db: Db) {
    && (forall s :: s in db.slots ==> SlotOk(db, s))
    && (forall i :: 0 <= i < |db.bookings| ==>
          Slot(db.bookings[i].partner, db.bookings[i].date) in db.slots && db.bookings[i].minutes > 0)
  }

  lemma MinutesAppend(bs: seq<Booking>, b: Booking, s: Slot)
    ensures BookedMinutes(bs + [b], s) == BookedMinutes(bs, s) + MinutesOn(b, s)
  {
    assert (bs + [b])[..|bs|] == bs;
  }

  lemma {:induction false} MinutesUpdate(bs: seq<Booking>, i: nat, b: Booking, s: Slot)
    requires i < |bs|
    ensures BookedMinutes(bs[i := b], s) == BookedMinutes(bs, s) - MinutesOn(bs[i], s) + MinutesOn(b, s)
  {
    var n := |bs| - 1;
    if i == n {
      assert bs[i := b][..n] == bs[..n];
    } else {
      assert bs[i := b][..n] == bs[..n][i := b];
      MinutesUpdate(bs[..n], i, b, s);
    }
  }

  lemma {:induction false} MinutesSame(bs: seq<Booking>, cs: seq<Booking>, s: Slot)
    requires |bs| == |cs|
    requires forall i :: 0 <= i < |bs| ==> MinutesOn(cs[i], s) == MinutesOn(bs[i], s)
    ensures BookedMinutes(cs, s) == BookedMinutes(bs, s)
  {
    if |bs| > 0 { MinutesSame(bs[..|bs| - 1], cs[..|cs| - 1], s); }
  }

  /** One unreleased booking is a lower bound, so releasing it never clips at zero. */
  lemma {:induction false} MinutesCover(bs: seq<Booking>, i: nat, s: Slot)
    requires i < |bs| && forall j :: 0 <= j < |bs| ==> bs[j].minutes > 0
    ensures BookedMinutes(bs, s) >= MinutesOn(bs[i], s) >= 0
  {
    var n := |bs| - 1;
    if i < n { MinutesCover(bs[..n], i, s); }
    else if n > 0 { MinutesCover(bs[..n], 0, s); }
  }

  /** Booking rows keep their day and minutes and stay on the same side of unwinding. */
  ghost predicate SameMinutes(bs: seq<Booking>, cs: seq<Booking>) {
    && |cs| == |bs|
    && forall i :: 0 <= i < |bs| ==>
         && cs[i] == bs[i].(status := cs[i].status, settleAt := cs[i].settleAt, fanReady := cs[i].fanReady, calls := cs[i].calls)
         && (IsUnwound(cs[i].status) <==> IsUnwound(bs[i].status))
  }

  lemma SameMinutesKeepCapacity(db: Db, next: Db)
    requires CapacityOk(db) && next.slots == db.slots && SameMinutes(db.bookings, next.bookings)
    ensures CapacityOk(next)
  {
    forall s | s in next.slots ensures SlotOk(next, s) {
      assert SlotOk(db, s);
      MinutesSame(db.bookings, next.bookings, s);
    }
  }

  /** The release subtracts exactly the booking's minutes: the floor at zero
      never takes effect. */
  lemma UnwindKeepsCapacity(db: Db, id: nat, key: Key, status: BookingStatus)
    requires CapacityOk(db) && id < |db.bookings| && !IsUnwound(db.bookings[id].status) && IsUnwound(status)
    ensures CapacityOk(Unwind(db, id, key, status).db)
    ensures var b := db.bookings[id]; var s := Slot(b.partner, b.date); var out := Unwind(db, id, key, status);
      out.reply == Done ==>
        && s in out.db.slots
        && out.db.slots == db.slots[s := db.slots[s].(booked := db.slots[s].booked - b.minutes)]
  {
    var b := db.bookings[id];
    var mine := Slot(b.partner, b.date);
    var next := Unwind(db, id, key, status).db;
    if Unwind(db, id, key, status).reply == Done {
      MinutesCover(db.bookings, id, mine);
      assert SlotOk(db, mine);
      forall s | s in next.slots ensures SlotOk(next, s) {
        assert SlotOk(db, s);
        MinutesUpdate(db.bookings, id, b.(status := status), s);
      }
    }
  }

  lemma NewBookingKeepsCapacity(db: Db, next: Db, row: Booking)
    requires CapacityOk(db) && Slot(row.partner, row.date) in db.slots && !IsUnwound(row.status) && row.minutes > 0
    requires next.bookings == db.bookings + [row]
    requires var s := Slot(row.partner, row.date);
      next.slots == db.slots[s := db.slots[s].(booked := db.slots[s].booked + row.minutes)]
    ensures CapacityOk(next)
  {
    hide BookedMinutes;
    forall s | s in next.slots ensures SlotOk(next, s) {
      assert SlotOk(db, s);
      MinutesAppend(db.bookings, row, s);
    }
  }

  lemma BookKeepsCapacity(db: Db, fan: nat, partner: nat, date: int, minutes: Minutes, quote: Option<Quote>)
    requires CapacityOk(db)
    ensures CapacityOk(BookCall(db, fan, partner, date, minutes, quote).db)
  {
    hide Post, BookTxn, CapacityOk;
    var out := BookCall(db, fan, partner, date, minutes, quote);
    if out.reply == Done { NewBookingKeepsCapacity(db, out.db, out.db.bookings[|db.bookings|]); }
  }

  lemma {:induction false} NoMinutesElsewhere(bs: seq<Booking>, s: Slot)
    requires forall i :: 0 <= i < |bs| ==> Slot(bs[i].partner, bs[i].date) != s
    ensures BookedMinutes(bs, s) == 0
  {
    if |bs| > 0 { NoMinutesElsewhere(bs[..|bs| - 1], s); }
  }

  lemma SetAvailabilityKeepsCapacity(db: Db, partner: nat, date: int, limit: int)
    requires CapacityOk(db)
    ensures CapacityOk(SetAvailability(db, partner, date, limit).db)
  {
    var next := SetAvailability(db, partner, date, limit).db;
    var mine := Slot(partner, date);
    if mine !in db.slots { NoMinutesElsewhere(db.bookings, mine); }
    forall s | s in next.slots ensures SlotOk(next, s) {
      if s in db.slots { assert SlotOk(db, s); }
    }
  }

  lemma PaidStepsKeepCapacity(db: Db, id: nat, share: int, refund: int)
    requires CapacityOk(db)
    ensures CapacityOk(SettleBooking(db, id).db)
    ensures CapacityOk(ResolvePartial(db, id, share, refund).db)
  {
    hide CapacityOk, Post, OpenCallReport, Earned, PartialRefundTxn;
    var settled := SettleBooking(db, id).db;
    assert settled.bookings == db.bookings && settled.slots == db.slots;
    SameMinutesKeepCapacity(db, settled);
    var split := ResolvePartial(db, id, share, refund).db;
    assert split.slots == db.slots;
    SameMinutesKeepCapacity(db, split);
  }

  lemma AdminExpireKeepsCapacity(db: Db, id: nat, status: BookingStatus)
    requires CapacityOk(db) && AdminExpireAllowed(db, id, status)
    ensures CapacityOk(AdminExpireBooking(db, id, status).db)
  {
    hide CapacityOk, Unwind;
    if id < |db.bookings| && (status == Completed || IsExpired(status)) {
      var out := AdminExpireBooking(db, id, status);
      if status == Completed {
        SameMinutesKeepCapacity(db, out.db);
      } else {
        UnwindKeepsCapacity(db, id, AdminExpire(id), status);
        SameMinutesKeepCapacity(Unwind(db, id, AdminExpire(id), status).db, out.db);
      }
    }
  }

  lemma BookingStepKeepsCapacity(db: Db, a: BookingAction)
    requires CapacityOk(db) && Allowed(db, OnBooking(a))
    ensures CapacityOk(StepBooking(db, a).db)
  {
    hide CapacityOk, Post, SettleBooking, ResolvePartial, AdminExpireBooking, BookCall, SetAvailability, Unwind, Classify;
    match a {
      case DoSetAvailability(p, date, limit) => SetAvailabilityKeepsCapacity(db, p, date, limit);
      case DoBook(f, p, date, m, q) => BookKeepsCapacity(db, f, p, date, m, q);
      case DoRefund(i) =>
        if i < |db.bookings| && db.bookings[i].status == Booked { UnwindKeepsCapacity(db, i, Refund(i), CancelledByFan); }
      case DoExpire(i) =>
        if DueForExpiry(db, i) {
          var status := Classify(db.bookings[i]);
          if status == Completed || status == RequiresAdminReview {
            SameMinutesKeepCapacity(db, ExpireBooking(db, i).db);
          } else {
            UnwindKeepsCapacity(db, i, Expire(i), status);
          }
        }
      case DoSettle(i) => PaidStepsKeepCapacity(db, i, 0, 0);
      case DoResolvePartial(i, share, refund) => PaidStepsKeepCapacity(db, i, share, refund);
      case DoAdminExpire(i, s) => AdminExpireKeepsCapacity(db, i, s);
    }
  }

  lemma CallStepKeepsCapacity(db: Db, a: CallAction)
    requires CapacityOk(db) && CallsOk(db)
    ensures CapacityOk(StepCall(db, a).db)
  {
    hide CapacityOk, CallsOk, Moves, StepCall;
    CallFrame(db, a);
    StepMovesRows(db, a);
    forall i | 0 <= i < |db.bookings|
      ensures RowMoves(db.bookings[i], StepCall(db, a).db.bookings[i], db.now)
    {}
    SameMinutesKeepCapacity(db, StepCall(db, a).db);
  }

  /** No other transaction writes bookings or availability. */
  lemma OthersKeepBookings(db: Db, a: Action)
    requires !a.OnBooking? && !a.OnCall?
    ensures Step(db, a).db.bookings == db.bookings && Step(db, a).db.slots == db.slots
  {
    hide StepMessage, StepShoutout, StepMoney, StepWorld;
    match a {
      case OnMessage(x) => MessageFrame(db, x);
      case OnShoutout(x) => ShoutoutFrame(db, x);
      case OnMoney(x) => MoneyFrame(db, x);
      case OnWorld(x) => WorldFrame(db, x);
    }
  }

  lemma StepKeepsCapacity(db: Db, a: Action)
    requires CapacityOk(db) && CallsOk(db) && Allowed(db, a)
    ensures CapacityOk(Step(db, a).db)
  {
    hide CapacityOk, CallsOk, StepBooking, StepCall, StepMessage, StepShoutout, StepMoney, StepWorld;
    match a {
      case OnBooking(x) => BookingStepKeepsCapacity(db, x);
      case OnCall(x) => CallStepKeepsCapacity(db, x);
      case _ =>
        OthersKeepBookings(db, a);
        SameMinutesKeepCapacity(db, Step(db, a).db);
    }
  }

  /** Whatever a partner does to the limit, a step that adds minutes to a day ends
      within that day's limit. */
  lemma RaisesEndWithinThreshold(db: Db, a: Action, s: Slot)
    requires CapacityOk(db) && CallsOk(db) && Allowed(db, a)
    requires s in db.slots && s in Step(db, a).db.slots && Step(db, a).db.slots[s].booked > db.slots[s].booked
    ensures Step(db, a).db.slots[s].booked <= Step(db, a).db.slots[s].threshold <= 600
  {
    hide Post, StepMessage, StepShoutout, StepMoney, StepWorld;
    StepKeepsCapacity(db, a);
    assert SlotOk(Step(db, a).db, s);
    if a.OnBooking? {
      BookingRaise(db, a.booking, s);
    } else if !a.OnCall? {
      OthersKeepBookings(db, a);
    }
  }

  lemma ResolveKeepsSlots(db: Db, id: nat, share: int, refund: int)
    ensures ResolvePartial(db, id, share, refund).db.slots == db.slots
  {
    hide Post, Earned, PartialRefundTxn;
  }

  lemma BookingRaise(db: Db, a: BookingAction, s: Slot)
    requires CapacityOk(db)
    requires s in db.slots && s in StepBooking(db, a).db.slots
    requires StepBooking(db, a).db.slots[s].booked > db.slots[s].booked
    ensures StepBooking(db, a).db.slots[s].booked <= StepBooking(db, a).db.slots[s].threshold
  {
    hide Post, BookedMinutes, Classify, SettleBooking, ResolvePartial, UnwindTxn;
    assert SlotOk(db, s);
    match a {
      case DoSettle(i) => SettleKeepsRows(db, i);
      case DoResolvePartial(i, share, refund) => ResolveKeepsSlots(db, i, share, refund);
      case _ =>
    }
  }
}
