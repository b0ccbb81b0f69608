/** Why a call is turned down: for every error reply the whole condition under which a
    caller gets it. The conditions of one call exclude each other.
 */
module Refusals {
  import opened Schema
  import opened Ledger
  import opened Tables
  import opened Bookings
  import opened Calls
  import opened Messages
  import opened Shoutouts
  import opened Payouts

  /** The quote comes before the day, the day before the money. */
  lemma BookingRefusals(db: Db, fan: nat, partner: nat, date: int, minutes: Minutes, quote: Option<Quote>)
    requires fan < |db.bank.wallets|
    ensures var reply := BookCall(db, fan, partner, date, minutes, quote).reply; var s := Slot(partner, date);
      && (reply == Refused(ServiceRefused) <==> quote.None?)
      && (reply == Refused(NotAvailable) <==> quote.Some? && (s in db.slots ==> !db.slots[s].available))
      && (reply == Refused(NoCapacity) <==>
            quote.Some? && s in db.slots && db.slots[s].available && db.slots[s].threshold - db.slots[s].booked < minutes)
  {
    hide Post, BookTxn;
  }

  lemma RefundRefusals(db: Db, id: nat)
    ensures var reply := RefundBooking(db, id).reply;
      && (reply == Refused(NotFound) <==> id >= |db.bookings|)
      && (reply == Refused(NotRefundable) <==> id < |db.bookings| && db.bookings[id].status != Booked)
      && (reply == Refused(PastRefundWindow) <==>
            id < |db.bookings| && db.bookings[id].status == Booked && db.bookings[id].settleAt < db.now)
  {
    hide Post, UnwindTxn;
  }

  /** An open report stops a settlement even of a booking paid before. */
  lemma SettlementRefusals(db: Db, id: nat)
    ensures var reply := SettleBooking(db, id).reply;
      && (reply == Refused(NotFound) <==> id >= |db.bookings|)
      && (reply == Refused(NotSettleable) <==> id < |db.bookings| && db.bookings[id].status != Completed)
      && (reply == Refused(ReportPending) <==>
            id < |db.bookings| && db.bookings[id].status == Completed && OpenCallReport(db.reports, id))
      && (reply == AlreadyDone <==>
            id < |db.bookings| && db.bookings[id].status == Completed && !OpenCallReport(db.reports, id) && Earned(db, BookingItem(id)))
  {
    hide PaidFor, Post;
  }

  lemma WindowSettlementRefusals(db: Db, c: nat, w: nat)
    ensures var reply := SettleQuestion(db, c, w).reply;
      var ready := HasWindow(db, c, w) && WindowAt(db, c, w).kind == Paid && WindowAt(db, c, w).charge != 0
                   && WindowAt(db, c, w).status == Answered;
      && (reply == Refused(NotSettleable) <==> !ready)
      && (reply == Refused(ReportPending) <==> ready && OpenReportOn(db.reports, WindowTarget(c, w)))
      && (reply == AlreadyDone <==> ready && !OpenReportOn(db.reports, WindowTarget(c, w)) && Earned(db, WindowItem(c, w)))
  {
    hide PaidFor, Post;
  }

  lemma SplitRefusals(db: Db, id: nat, share: int, refund: int)
    ensures var reply := ResolvePartial(db, id, share, refund).reply;
      && (reply == Refused(NotFound) <==> id >= |db.bookings|)
      && (reply == Refused(InvalidStatus) <==> id < |db.bookings| && db.bookings[id].status != RequiresAdminReview)
      && (reply == Refused(SplitMismatch) <==>
            id < |db.bookings| && db.bookings[id].status == RequiresAdminReview && share + refund != db.bookings[id].original)
      && (reply == AlreadyDone <==>
            id < |db.bookings| && db.bookings[id].status == RequiresAdminReview && share + refund == db.bookings[id].original
            && Earned(db, BookingItem(id)))
  {
    hide PaidFor, Post;
  }

  lemma AdminExpiryRefusals(db: Db, id: nat, status: BookingStatus)
    ensures var reply := AdminExpireBooking(db, id, status).reply;
      && (reply == Refused(InvalidStatus) <==> status in {Booked, RequiresAdminReview, CancelledByFan})
      && (reply == Refused(NotFound) <==> status !in {Booked, RequiresAdminReview, CancelledByFan} && id >= |db.bookings|)
  {
    hide Post;
  }

  lemma CallRefusals(db: Db, id: nat, k: nat, auto: bool, byFan: bool, seen: Option<bool>, status: CallStatus)
    ensures var here := id < |db.bookings| && k < |db.bookings[id].calls|;
      var reply := MarkMissed(db, id, k, status).reply;
      var known := status in {MissedNoJoin, MissedDeclined, DroppedTechnical};
      && (Heartbeat(db, id, k, byFan, seen).reply == Refused(NotFound) <==> !here)
      && (CompleteCall(db, id, k, auto).reply == Refused(NotInProgress) <==> !here || db.bookings[id].calls[k].status != InProgress)
      && (reply == Refused(InvalidStatus) <==> !known)
      && (reply == Refused(NotActive) <==> known && (!here || IsTerminal(db.bookings[id].calls[k].status)))
      && (reply == Refused(AlreadyJoined) <==>
            known && here && db.bookings[id].calls[k].status == InProgress && status != DroppedTechnical)
  {
  }

  lemma RingRefusals(db: Db, id: nat)
    ensures var booked := id < |db.bookings| && db.bookings[id].status == Booked;
      && (SignalReady(db, id).reply == Refused(NotBookable) <==> !booked)
      && (InitiateCall(db, id).reply == Refused(NotBookable) <==> !booked)
      && (InitiateCall(db, id).reply == Refused(AlreadyInitiated) <==>
            booked && exists k :: 0 <= k < |db.bookings[id].calls| && StillRings(db.bookings[id].calls[k], db.now))
      && (JoinCall(db, id).reply == Refused(NoActiveCall) <==>
            (id < |db.bookings| ==> forall k :: 0 <= k < |db.bookings[id].calls| ==> IsTerminal(db.bookings[id].calls[k].status)))
      && (AdminRecoverCall(db, id).reply == Refused(NotFound) <==> id >= |db.bookings|)
      && (AdminRecoverCall(db, id).reply == Refused(NotRecoverable) <==>
            id < |db.bookings| && db.bookings[id].status !in {Booked, ExpiredTechnical, ExpiredPartnerNoShow})
  {
    hide ConsumedSeconds;
    if id < |db.bookings| {
      var calls := db.bookings[id].calls;
      assert forall k :: 0 <= k < |calls| ==>
        (StillRings(calls[k], db.now) <==> calls[k].status == PartnerInitiated && calls[k].initiatedAt > db.now - 60);
    }
  }

  /** A ring placed less than a minute ago. */
  predicate StillRings(c: Call, now: int) { c.status == PartnerInitiated && now - c.initiatedAt < 60 }

  lemma QuestionRefusals(db: Db, fan: nat, partner: nat, blocked: bool, price: Option<int>)
    requires fan < |db.bank.wallets|
    ensures var reply := AskQuestion(db, fan, partner, blocked, price).reply;
      var found := FindConversation(db.conversations, fan, partner);
      var ws := if found.Some? then db.conversations[found.value].windows else [];
      && (reply == Refused(ServiceRefused) <==> blocked || (|ws| > 0 && NewestOpen(ws).None? && price.None?))
      && (reply == Refused(WindowLimit) <==>
            !blocked && NewestOpen(ws).Some? && FanMessages(ws[NewestOpen(ws).value].messages) >= ws[NewestOpen(ws).value].cap)
  {
    hide Post, FanMessages;
  }

  lemma AnswerRefusals(db: Db, partner: nat, c: nat, fan: nat, blocked: bool)
    ensures var reply := PartnerAnswer(db, partner, c).reply;
      && (reply == Refused(NotFound) <==> c >= |db.conversations|)
      && (reply == Refused(PartnerMismatch) <==> c < |db.conversations| && db.conversations[c].partner != partner)
      && (reply == Refused(NoWindow) <==>
            c < |db.conversations| && db.conversations[c].partner == partner
            && forall k :: 0 <= k < |db.conversations[c].windows| ==> db.conversations[c].windows[k].status == WindowExpired)
    ensures var reply := PartnerFollowup(db, partner, fan, blocked).reply;
      && (reply == Refused(ServiceRefused) <==> blocked)
      && (reply == Refused(NoConversation) <==>
            !blocked && forall c :: 0 <= c < |db.conversations| ==>
              db.conversations[c].fan != fan || db.conversations[c].partner != partner)
  {
  }

  lemma DeliveryRefusals(db: Db, s: nat, link: string, fan: nat)
    ensures var reply := UploadShoutout(db, s, link).reply;
      var blank := forall i :: 0 <= i < |link| ==> link[i] == ' ';
      && (reply == Refused(NotFound) <==> s >= |db.shoutouts|)
      && (reply == Refused(LinkRequired) <==> s < |db.shoutouts| && blank)
      && (reply == Refused(InvalidState) <==> s < |db.shoutouts| && !blank && db.shoutouts[s].status != AwaitingVideo)
    ensures var reply := ConfirmShoutout(db, fan, s).reply;
      && (reply == Refused(NotFound) <==> s >= |db.shoutouts|)
      && (reply == Refused(FanMismatch) <==> s < |db.shoutouts| && db.shoutouts[s].fan != fan)
      && (reply == Refused(InvalidState) <==> s < |db.shoutouts| && db.shoutouts[s].fan == fan && db.shoutouts[s].status != Delivered)
      && (reply == AlreadyDone <==>
            s < |db.shoutouts| && db.shoutouts[s].fan == fan && db.shoutouts[s].status == Delivered && db.shoutouts[s].confirmed.Some?)
    ensures var reply := RequestCorrection(db, fan, s).reply;
      && (reply == Refused(NotFound) <==> s >= |db.shoutouts|)
      && (reply == Refused(FanMismatch) <==> s < |db.shoutouts| && db.shoutouts[s].fan != fan)
      && (reply == Refused(InvalidState) <==>
            && s < |db.shoutouts| && db.shoutouts[s].fan == fan
            && (db.shoutouts[s].status != Delivered || db.shoutouts[s].confirmed.Some? || db.shoutouts[s].disputed))
  {
    hide Post;
  }

  lemma CancelRefusals(db: Db, s: nat)
    ensures var reply := CancelShoutout(db, s).reply;
      && (reply == Refused(NotFound) <==> s >= |db.shoutouts|)
      && (reply == Refused(InvalidState) <==> s < |db.shoutouts| && db.shoutouts[s].status in {RefundedByAdmin, ExpiredNoDelivery})
      && (reply == Refused(AlreadySettled) <==>
            s < |db.shoutouts| && db.shoutouts[s].status !in {RefundedByAdmin, ExpiredNoDelivery} && Earned(db, ShoutoutItem(s)))
  {
    hide Post, Fees, PaidFor, CloseReports;
    if s < |db.shoutouts| {
      var status := db.shoutouts[s].status;
      assert status.AwaitingVideo? || status.Delivered? || status.IssueReported? || status.RefundedByAdmin? || status.ExpiredNoDelivery?;
    }
  }

  lemma DisputeRefusals(db: Db, s: nat, verdict: Verdict, approve: bool)
    ensures ResolveDispute(db, s, verdict).reply == Refused(NotFlagged) <==>
              (s < |db.shoutouts| ==> db.shoutouts[s].status != IssueReported)
    ensures var reply := AdminDeliver(db, s, approve).reply;
      && (reply == Refused(NotFound) <==> s >= |db.shoutouts|)
      && (reply == Refused(InvalidState) <==>
            && s < |db.shoutouts|
            && (db.shoutouts[s].status !in {Delivered, IssueReported} || db.shoutouts[s].confirmed.Some?))
    ensures ReportShoutout(db, s).reply == Refused(NotReportable) <==>
              (s < |db.shoutouts| ==> db.shoutouts[s].status != Delivered || db.shoutouts[s].confirmed.Some?)
  {
    hide Post, Fees, PaidFor, CloseReports;
  }

  lemma ShoutoutJobRefusals(db: Db, s: nat)
    ensures var reply := ExpireShoutout(db, s).reply;
      && (reply == Refused(NotFound) <==> s >= |db.shoutouts|)
      && (reply == Refused(NotExpirable) <==>
            s < |db.shoutouts| && (db.shoutouts[s].status != AwaitingVideo || db.now < db.shoutouts[s].settleAt))
    ensures var reply := AutoConfirmShoutout(db, s).reply;
      && (reply == Refused(NotFound) <==> s >= |db.shoutouts|)
      && (reply == Refused(NotConfirmable) <==>
            && s < |db.shoutouts|
            && (|| db.shoutouts[s].status != Delivered || db.shoutouts[s].confirmed.Some?
                || db.shoutouts[s].reviewDeadline.None? || db.now < db.shoutouts[s].reviewDeadline.value))
    ensures var reply := SettleShoutout(db, s).reply;
      && (reply == Refused(NotFound) <==> s >= |db.shoutouts|)
      && (reply == Refused(NotSettleable) <==>
            s < |db.shoutouts| && (db.shoutouts[s].status != Delivered || db.shoutouts[s].confirmed.None?))
      && (reply == AlreadyDone <==>
            s < |db.shoutouts| && db.shoutouts[s].status == Delivered && db.shoutouts[s].confirmed.Some? && Earned(db, ShoutoutItem(s)))
  {
    hide Post, Fees, PaidFor;
  }

  lemma PayoutRefusals(db: Db, partner: nat, methodVerified: bool, p: nat, reference: string)
    ensures var reply := CreatePayout(db, partner, methodVerified).reply; var sum := PendingFor(db.earnings, partner);
      var least := db.settings.minWithdrawal;
      && (reply == Refused(UnverifiedMethod) <==> !methodVerified)
      && (reply == Refused(NothingToPay) <==> methodVerified && sum == 0)
      && (reply == Refused(BelowMinWithdrawal) <==> methodVerified && sum != 0 && least.Some? && sum < least.value)
    ensures var reply := ApprovePayout(db, p, reference).reply; var utr := NormaliseUtr(reference);
      var open := p < |db.payouts| && db.payouts[p].status == Requested;
      && (reply == Refused(InvalidState) <==> !open)
      && (reply == Refused(UtrRequired) <==> open && |utr| == 0)
      && (reply == Refused(UtrInvalidFormat) <==> open && |utr| > 0 && !UtrWellFormed(utr))
      && (reply == Refused(UtrAlreadyUsed) <==>
            open && UtrWellFormed(utr) && exists q :: 0 <= q < |db.payouts| && q != p && db.payouts[q].utr == Some(utr))
    ensures RejectPayout(db, p).reply == Refused(InvalidState) <==> (p < |db.payouts| ==> db.payouts[p].status != Requested)
  {
    hide Post, PendingFor, NormaliseUtr;
  }

  lemma TopupRefusals(db: Db, fan: nat, credit: int, gst: nat, cap: Option<int>, t: nat, amount: int)
    requires fan < |db.bank.wallets|
    ensures var reply := CreateTopup(db, fan, credit, gst, cap).reply;
      && (reply == Refused(BadAmount) <==> credit <= 0)
      && (reply == Refused(CapExceeded) <==>
            && credit > 0 && cap.Some? && cap.value != 0
            && cap.value < db.bank.wallets[fan].balance + Reserved(db.topups, fan, db.now) + credit)
    ensures var reply := VerifyTopup(db, t).reply;
      && (reply == Refused(OrderNotFound) <==> t >= |db.topups|)
      && (reply == AlreadyDone <==> t < |db.topups| && db.topups[t].status == TopupSuccessful)
    ensures GrantCredit(db, fan, amount).reply == Refused(ZeroAmount) <==> amount == 0
  {
    hide Post, Reserved;
  }
}
