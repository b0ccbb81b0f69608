/** Video-call bookings: booking, refund, day-end expiry, settlement and the
    admin decisions, as functions on the database.
 */
module Bookings {
  import opened Schema
  import opened Ledger
  import opened Tables

  /** call_duration_options_enum */
  type Minutes = m: int | m in {1, 2, 3, 5, 7, 9, 12, 15} witness 1

  /** What price resolution returns: list price and platform-funded discount. */
  datatype Quote = Quote(base: int, discount: int)

  predicate IsExpired(s: BookingStatus) {
    s in {ExpiredPartnerNoShow, ExpiredFanNoJoin, ExpiredFanDeclined, ExpiredTechnical}
  }

  /** Statuses reached only by giving the fan everything back. */
  predicate IsUnwound(s: BookingStatus) {
    s == CancelledByFan || IsExpired(s)
  }

  function BookTxn(id: nat, fan: nat, quote: Quote): Txn {
    var debit := WalletLeg(fan, -(quote.base - quote.discount));
    var hold := Plain(Escrow, quote.base);
    Txn(Book(id), quote.base,
        if quote.discount > 0 then [debit, hold, Plain(PromoIncentive, -quote.discount)]
        else [debit, hold])
  }

  /** The legs that unwind a booking; the key says which path did it. */
  function UnwindTxn(key: Key, b: Booking): Txn {
    var release := Plain(Escrow, -b.original);
    var credit := WalletLeg(b.fan, b.price);
    Txn(key, b.original,
        if b.discount > 0 then [release, credit, Plain(PromoIncentive, b.discount)]
        else [release, credit])
  }

  function ReleaseMinutes(slots: map<Slot, Availability>, b: Booking): map<Slot, Availability> {
    var s := Slot(b.partner, b.date);
    if s in slots then slots[s := slots[s].(booked := Max(0, slots[s].booked - b.minutes))] else slots
  }

  function SetAvailability(db: Db, partner: nat, date: int, minutes: int): Out {
    if minutes < 0 then Refuse(db, InvalidMinutes)
    else if minutes > 600 then Refuse(db, MinutesExceedCap)
    else
      var s := Slot(partner, date);
      var booked := if s in db.slots then db.slots[s].booked else 0;
      Out(db.(slots := db.slots[s := Availability(minutes > 0, minutes, booked)]), Done)
  }

  /** `quote` is None when the partner gate or the price lookup refused. */
  function BookCall(db: Db, fan: nat, partner: nat, date: int, minutes: Minutes, quote: Option<Quote>): Out {
    var s := Slot(partner, date);
    if fan >= |db.bank.wallets| then Raise(db, NoSuchProfile)
    else if quote.None? then Refuse(db, ServiceRefused)
    else if s !in db.slots || !db.slots[s].available then Refuse(db, NotAvailable)
    else if db.slots[s].booked + minutes > db.slots[s].threshold then Refuse(db, NoCapacity)
    else HoldAndBook(db, fan, s, minutes, quote.value)
  }

  /** The row insert checks that the fan pays something. */
  function HoldAndBook(db: Db, fan: nat, s: Slot, minutes: Minutes, q: Quote): Out
    requires s in db.slots
  {
    match Post(db.bank, BookTxn(|db.bookings|, fan, q))
    case Failed(e) => Raise(db, e)
    case Posted(bank, _, _) =>
      if q.base - q.discount <= 0 then Raise(db, CheckViolation)
      else
        var row := Booking(fan, s.partner, s.date, minutes, q.base - q.discount, q.base, q.discount,
                           Booked, db.now + db.settings.settlementWindow, false, []);
        Out(db.(bank := bank, bookings := db.bookings + [row],
                slots := db.slots[s := db.slots[s].(booked := db.slots[s].booked + minutes)]), Done)
  }

  /** Post the unwinding legs, release the minutes and set the final status. */
  function Unwind(db: Db, id: nat, key: Key, status: BookingStatus): Out
    requires id < |db.bookings|
  {
    var b := db.bookings[id];
    match Post(db.bank, UnwindTxn(key, b))
    case Failed(e) => Raise(db, e)
    case Posted(bank, _, _) =>
      Out(db.(bank := bank, bookings := db.bookings[id := b.(status := status)],
              slots := ReleaseMinutes(db.slots, b)), Done)
  }

  function RefundBooking(db: Db, id: nat): Out {
    if id >= |db.bookings| then Refuse(db, NotFound)
    else if db.bookings[id].status != Booked then Refuse(db, NotRefundable)
    else if db.now > db.bookings[id].settleAt then Refuse(db, PastRefundWindow)
    else Unwind(db, id, Refund(id), CancelledByFan)
  }

  // ── Day-end expiry ───────────────────────────────────────────────────────

  predicate IsTerminal(s: CallStatus) {
    s in {CallCompleted, MissedNoJoin, MissedDeclined, DroppedTechnical}
  }

  /** ended_at - started_at, where both are known. */
  function CallSeconds(c: Call): int {
    if IsTerminal(c.status) && c.startedAt.Some? && c.endedAt.Some?
    then c.endedAt.value - c.startedAt.value else 0
  }

  /** COALESCE(MAX(ended_at - started_at), 0) over the ended attempts. */
  function LongestCall(calls: seq<Call>): int {
    if |calls| == 0 then 0
    else Max(LongestCall(calls[..|calls| - 1]), CallSeconds(calls[|calls| - 1]))
  }

  predicate AnyCall(calls: seq<Call>, s: CallStatus) {
    exists i :: 0 <= i < |calls| && calls[i].status == s
  }

  predicate AnyTerminal(calls: seq<Call>) {
    exists i :: 0 <= i < |calls| && IsTerminal(calls[i].status)
  }

  /** The status the sweep gives an overdue booking. */
  function Classify(b: Booking): (s: BookingStatus)
    ensures s == Completed || s == RequiresAdminReview || IsExpired(s)
  {
    if LongestCall(b.calls) >= b.minutes * 60 then Completed
    else if LongestCall(b.calls) >= 180 then RequiresAdminReview
    else if !AnyTerminal(b.calls) then ExpiredPartnerNoShow
    else if AnyCall(b.calls, MissedDeclined) then ExpiredFanDeclined
    else if AnyCall(b.calls, MissedNoJoin) then ExpiredFanNoJoin
    else ExpiredTechnical
  }

  predicate DueForExpiry(db: Db, id: nat) {
    id < |db.bookings| && db.bookings[id].status == Booked && db.bookings[id].settleAt <= db.now
  }

  /** One iteration of the sweep, on a row the loop query classified. */
  function ExpireRow(db: Db, id: nat, status: BookingStatus): Out
    requires id < |db.bookings|
  {
    if status == Completed then
      var b := db.bookings[id].(status := Completed, settleAt := db.now + db.settings.settlementWindow);
      Out(db.(bookings := db.bookings[id := b]), Done)
    else if status == RequiresAdminReview then
      Out(db.(bookings := db.bookings[id := db.bookings[id].(status := RequiresAdminReview)]), Done)
    else Unwind(db, id, Expire(id), status)
  }

  /** The iteration on a row that is still due; other rows are not selected. */
  function ExpireBooking(db: Db, id: nat): Out {
    if DueForExpiry(db, id) then ExpireRow(db, id, Classify(db.bookings[id])) else Refuse(db, NotFound)
  }

  // ── Settlement and admin decisions ───────────────────────────────────────

  /** Also the body of rpc_admin_force_settle_booking. */
  function SettleBooking(db: Db, id: nat): Out {
    if id >= |db.bookings| then Refuse(db, NotFound)
    else
      var b := db.bookings[id];
      if b.status != Completed then Refuse(db, NotSettleable)
      else if OpenCallReport(db.reports, id) then Refuse(db, ReportPending)
      else if Earned(db, BookingItem(id)) then Out(db, AlreadyDone)
      else PayPartner(db, BookingItem(id), b.partner, Settle(id), b.original)
  }

  function PartialRefundTxn(id: nat, fan: nat, refund: int): Txn {
    Txn(PartialRefund(id), refund, [Plain(Escrow, -refund), WalletLeg(fan, refund)])
  }

  function ResolvePartial(db: Db, id: nat, partnerShare: int, fanRefund: int): Out {
    if id >= |db.bookings| then Refuse(db, NotFound)
    else
      var b := db.bookings[id];
      if b.status != RequiresAdminReview then Refuse(db, InvalidStatus)
      else if partnerShare + fanRefund != b.original then Refuse(db, SplitMismatch)
      else if Earned(db, BookingItem(id)) then Out(db, AlreadyDone)
      else
        var paid := if partnerShare > 0
                    then PayPartner(db, BookingItem(id), b.partner, PartialSettle(id), partnerShare)
                    else Out(db, Done);
        if paid.reply.Raised? then Raise(db, paid.reply.error)
        else if fanRefund > 0 then
          match Post(paid.db.bank, PartialRefundTxn(id, b.fan, fanRefund))
          case Failed(e) => Raise(db, e)
          case Posted(bank, _, _) => Out(MarkResolved(paid.db.(bank := bank), id), Done)
        else Out(MarkResolved(paid.db, id), Done)
  }

  function MarkResolved(db: Db, id: nat): Db
    requires id < |db.bookings|
  {
    db.(bookings := db.bookings[id := db.bookings[id].(status := Completed)],
        audit := db.audit + [AuditResolvePartial(id)])
  }

  /** rpc_admin_expire_booking tests no current status. */
  function AdminExpireBooking(db: Db, id: nat, status: BookingStatus): Out {
    if status != Completed && !IsExpired(status) then Refuse(db, InvalidStatus)
    else if id >= |db.bookings| then Refuse(db, NotFound)
    else
      var step := if status == Completed
                  then Out(db.(bookings := db.bookings[id := db.bookings[id].(status := Completed)]), Done)
                  else Unwind(db, id, AdminExpire(id), status);
      if step.reply.Raised? then step
      else Out(step.db.(audit := step.db.audit + [AuditExpireBooking(id, status)]), Done)
  }
}
