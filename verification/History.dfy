/** What can never be undone: how every row may change from one state to any later
    state of a run.
 */
module History {
  import opened Schema
  import opened Ledger
  import opened Tables
  import opened Bookings
  import opened Calls
  import opened Messages
  import opened Shoutouts
  import opened Payouts
  import opened Platform
  import opened CallRules
  import opened MessageRules
  import opened ShoutoutRules

  // ── Rows ─────────────────────────────────────────────────────────────────

  /** An ended attempt is final but for late heartbeats; a live one keeps its start
      and its deadline however often it is rejoined. */
  predicate CallEvolves(x: Call, y: Call) {
    && y.initiatedAt == x.initiatedAt
    && (IsTerminal(x.status) ==> OnlyBeats(x, y))
    && (x.mediaConfirmed == Some(true) ==> y.mediaConfirmed == Some(true))
    && (x.status == InProgress ==> y.status != PartnerInitiated && y.startedAt == x.startedAt && y.deadline == x.deadline)
  }

  /** Parties, day and prices never change, an unwound booking stays as it is, and
      a paid one stays completed. */
  predicate BookingEvolves(b: Booking, c: Booking, earned: bool) {
    && c == b.(status := c.status, settleAt := c.settleAt, fanReady := c.fanReady, calls := c.calls)
    && (IsUnwound(b.status) ==> c.status == b.status)
    && (b.status != Booked ==> c.status != Booked)
    && (b.status == Completed && earned ==> c.status == Completed)
    && |b.calls| <= |c.calls|
    && (forall k :: 0 <= k < |b.calls| ==> CallEvolves(b.calls[k], c.calls[k]))
  }

  predicate ConversationEvolves(x: Conversation, y: Conversation) {
    && y.fan == x.fan && y.partner == x.partner && |x.windows| <= |y.windows|
    && (forall k :: 0 <= k < |x.windows| ==> WindowMoves(x.windows[k], y.windows[k]))
  }

  predicate EarningEvolves(x: Earning, y: Earning) {
    && y == x.(status := y.status, payout := y.payout)
    && (x.status == EarningPaid ==> y == x)
  }

  predicate PayoutEvolves(x: PayoutRow, y: PayoutRow) {
    y.partner == x.partner && y.amount == x.amount && (x.status != Requested ==> y == x)
  }

  predicate TopupEvolves(x: TopupOrder, y: TopupOrder) {
    y == x.(status := y.status) && (x.status == TopupSuccessful ==> y == x)
  }

  // ── Tables ───────────────────────────────────────────────────────────────

  ghost predicate BookingsEvolve(db: Db, next: Db) {
    && |db.bookings| <= |next.bookings|
    && forall i :: 0 <= i < |db.bookings| ==>
         BookingEvolves(db.bookings[i], next.bookings[i], Earned(db, BookingItem(i)))
  }

  ghost predicate ConversationsEvolve(db: Db, next: Db) {
    && |db.conversations| <= |next.conversations|
    && forall c :: 0 <= c < |db.conversations| ==> ConversationEvolves(db.conversations[c], next.conversations[c])
  }

  ghost predicate EarningsEvolve(db: Db, next: Db) {
    && |db.earnings| <= |next.earnings|
    && forall j :: 0 <= j < |db.earnings| ==> EarningEvolves(db.earnings[j], next.earnings[j])
  }

  ghost predicate PayoutsEvolve(db: Db, next: Db) {
    && |db.payouts| <= |next.payouts|
    && forall p :: 0 <= p < |db.payouts| ==> PayoutEvolves(db.payouts[p], next.payouts[p])
  }

  ghost predicate TopupsEvolve(db: Db, next: Db) {
    && |db.topups| <= |next.topups|
    && forall t :: 0 <= t < |db.topups| ==> TopupEvolves(db.topups[t], next.topups[t])
  }

  ghost predicate Evolves(db: Db, next: Db) {
    && db.now <= next.now
    && db.bank.ledger <= next.bank.ledger && |db.bank.wallets| <= |next.bank.wallets|
    && BookingsEvolve(db, next)
    && ConversationsEvolve(db, next)
    && AllMove(db, next)
    && EarningsEvolve(db, next)
    && PayoutsEvolve(db, next)
    && TopupsEvolve(db, next)
  }

  // ── A service once paid stays paid, with the same amount ─────────────────

  lemma {:induction false} PaidStays(es: seq<Earning>, fs: seq<Earning>, service: Item)
    requires |es| <= |fs| && forall j :: 0 <= j < |es| ==> EarningEvolves(es[j], fs[j])
    requires PaidFor(es, service).Some?
    ensures PaidFor(fs, service) == PaidFor(es, service)
    decreases |fs|
  {
    var init := fs[..|fs| - 1];
    if |es| < |fs| {
      PaidStays(es, init, service);
    } else if PaidFor(es[..|es| - 1], service).Some? {
      PaidStays(es[..|es| - 1], init, service);
    } else {
      UnpaidSame(es[..|es| - 1], init, service);
    }
  }

  lemma {:induction false} UnpaidSame(es: seq<Earning>, fs: seq<Earning>, service: Item)
    requires |es| == |fs| && forall j :: 0 <= j < |es| ==> EarningEvolves(es[j], fs[j])
    requires PaidFor(es, service).None?
    ensures PaidFor(fs, service).None?
  {
    if |es| > 0 { UnpaidSame(es[..|es| - 1], fs[..|fs| - 1], service); }
  }

  lemma EarnedStays(db: Db, next: Db)
    requires EarningsEvolve(db, next)
    ensures forall x :: Earned(db, x) ==> Earned(next, x) && PaidFor(next.earnings, x) == PaidFor(db.earnings, x)
  {
    forall x | Earned(db, x) ensures Earned(next, x) && PaidFor(next.earnings, x) == PaidFor(db.earnings, x) {
      PaidStays(db.earnings, next.earnings, x);
    }
  }

  // ── Reflexive, table by table, and transitive ────────────────────────────

  lemma SameBookings(db: Db, next: Db)
    requires next.bookings == db.bookings
    ensures BookingsEvolve(db, next)
  {
  }

  lemma SameConversations(db: Db, next: Db)
    requires next.conversations == db.conversations
    ensures ConversationsEvolve(db, next)
  {
  }

  lemma EvolvesTransitive(a: Db, b: Db, c: Db)
    requires Evolves(a, b) && Evolves(b, c)
    ensures Evolves(a, c)
  {
    hide BookingEvolves, ConversationEvolves, ShoutoutMoves, EarningEvolves, PayoutEvolves, TopupEvolves, Earned;
    EarnedStays(a, b);
    forall i | 0 <= i < |a.bookings|
      ensures BookingEvolves(a.bookings[i], c.bookings[i], Earned(a, BookingItem(i)))
    { BookingTransitive(a.bookings[i], b.bookings[i], c.bookings[i], Earned(a, BookingItem(i)), Earned(b, BookingItem(i))); }
    forall x | 0 <= x < |a.conversations| ensures ConversationEvolves(a.conversations[x], c.conversations[x]) {
      ConversationTransitive(a.conversations[x], b.conversations[x], c.conversations[x]);
    }
    forall s | 0 <= s < |a.shoutouts|
      ensures ShoutoutMoves(a.shoutouts[s], c.shoutouts[s], Earned(a, ShoutoutItem(s)))
    { ShoutoutTransitive(a.shoutouts[s], b.shoutouts[s], c.shoutouts[s], Earned(a, ShoutoutItem(s)), Earned(b, ShoutoutItem(s))); }
    MoneyRowsTransitive(a, b, c);
  }

  lemma MoneyRowsTransitive(a: Db, b: Db, c: Db)
    requires EarningsEvolve(a, b) && EarningsEvolve(b, c) && PayoutsEvolve(a, b) && PayoutsEvolve(b, c)
    requires TopupsEvolve(a, b) && TopupsEvolve(b, c)
    ensures EarningsEvolve(a, c) && PayoutsEvolve(a, c) && TopupsEvolve(a, c)
  {
    forall j | 0 <= j < |a.earnings| ensures EarningEvolves(a.earnings[j], c.earnings[j]) {
      assert EarningEvolves(a.earnings[j], b.earnings[j]) && EarningEvolves(b.earnings[j], c.earnings[j]);
    }
    forall p | 0 <= p < |a.payouts| ensures PayoutEvolves(a.payouts[p], c.payouts[p]) {
      assert PayoutEvolves(a.payouts[p], b.payouts[p]) && PayoutEvolves(b.payouts[p], c.payouts[p]);
    }
    forall t | 0 <= t < |a.topups| ensures TopupEvolves(a.topups[t], c.topups[t]) {
      assert TopupEvolves(a.topups[t], b.topups[t]) && TopupEvolves(b.topups[t], c.topups[t]);
    }
  }

  lemma BookingTransitive(x: Booking, y: Booking, z: Booking, paidX: bool, paidY: bool)
    requires BookingEvolves(x, y, paidX) && BookingEvolves(y, z, paidY) && (paidX ==> paidY)
    ensures BookingEvolves(x, z, paidX)
  {
    forall k | 0 <= k < |x.calls| ensures CallEvolves(x.calls[k], z.calls[k]) {
      assert CallEvolves(x.calls[k], y.calls[k]) && CallEvolves(y.calls[k], z.calls[k]);
    }
  }

  lemma ConversationTransitive(x: Conversation, y: Conversation, z: Conversation)
    requires ConversationEvolves(x, y) && ConversationEvolves(y, z)
    ensures ConversationEvolves(x, z)
  {
    forall k | 0 <= k < |x.windows| ensures WindowMoves(x.windows[k], z.windows[k]) {
      assert WindowMoves(x.windows[k], y.windows[k]) && WindowMoves(y.windows[k], z.windows[k]);
    }
  }

  lemma ShoutoutTransitive(x: Shoutout, y: Shoutout, z: Shoutout, paidX: bool, paidY: bool)
    requires ShoutoutMoves(x, y, paidX) && ShoutoutMoves(y, z, paidY) && (paidX ==> paidY)
    ensures ShoutoutMoves(x, z, paidX)
  {
  }

  // ── Every allowed step ───────────────────────────────────────────────────

  lemma RowMoveEvolves(b: Booking, c: Booking, now: int, earned: bool)
    requires RowMoves(b, c, now) && b.minutes > 0
    requires forall k :: 0 <= k < |b.calls| ==> CallOk(b.calls[k], now, b.minutes * 60)
    ensures BookingEvolves(b, c, earned)
  {
    forall k | 0 <= k < |b.calls| ensures CallEvolves(b.calls[k], c.calls[k]) {
      assert Moves(b.calls[k], c.calls[k], now, TimeLeft(b, k));
    }
  }

  lemma CallStepEvolves(db: Db, a: CallAction)
    requires CallsOk(db)
    ensures BookingsEvolve(db, StepCall(db, a).db)
  {
    hide RowMoves, StepCall, BookingEvolves, CallOk;
    StepMovesRows(db, a);
    var next := StepCall(db, a).db;
    forall i | 0 <= i < |db.bookings|
      ensures BookingEvolves(db.bookings[i], next.bookings[i], Earned(db, BookingItem(i)))
    {
      assert AttemptsOk(db.bookings[i], db.now);
      assert RowMoves(db.bookings[i], next.bookings[i], db.now);
      RowMoveEvolves(db.bookings[i], next.bookings[i], db.now, Earned(db, BookingItem(i)));
    }
  }

  lemma OneBookingEvolves(db: Db, next: Db, id: nat, row: Booking)
    requires id < |db.bookings| && next.bookings == db.bookings[id := row]
    requires BookingEvolves(db.bookings[id], row, Earned(db, BookingItem(id)))
    ensures BookingsEvolve(db, next)
  {
  }

  lemma NewEarningEvolves(db: Db, next: Db, e: Earning)
    requires next.earnings == db.earnings + [e]
    ensures EarningsEvolve(db, next)
  {
  }

  /** No transaction takes a ledger row away. */
  ghost predicate LedgerGrows(db: Db, next: Db) {
    db.bank.ledger <= next.bank.ledger && |db.bank.wallets| == |next.bank.wallets|
  }

  lemma BookingStepEvolves(db: Db, a: BookingAction)
    requires Allowed(db, OnBooking(a))
    ensures var next := StepBooking(db, a).db;
      BookingsEvolve(db, next) && EarningsEvolve(db, next) && LedgerGrows(db, next)
  {
    hide Post, ExpireBooking, BookCall, SettleBooking, ResolvePartial, AdminExpireBooking, Earned, Unwind;
    match a {
      case DoSetAvailability(_, _, _) =>
      case DoBook(f, p, date, m, q) => BookEvolves(db, f, p, date, m, q);
      case DoRefund(i) =>
        if i < |db.bookings| && db.bookings[i].status == Booked { UnwindEvolves(db, i, Refund(i), CancelledByFan); }
      case DoExpire(i) => ExpireEvolves(db, i);
      case DoSettle(i) => SettleEvolves(db, i);
      case DoResolvePartial(i, share, refund) => ResolveEvolves(db, i, share, refund);
      case DoAdminExpire(i, s) => AdminExpireEvolves(db, i, s);
    }
  }

  lemma BookEvolves(db: Db, fan: nat, partner: nat, date: int, minutes: Minutes, quote: Option<Quote>)
    ensures var next := BookCall(db, fan, partner, date, minutes, quote).db;
      BookingsEvolve(db, next) && EarningsEvolve(db, next) && LedgerGrows(db, next)
  {
    hide Post, BookTxn, Earned;
  }

  lemma UnwindEvolves(db: Db, id: nat, key: Key, status: BookingStatus)
    requires id < |db.bookings| && !IsUnwound(db.bookings[id].status) && status != Booked
    requires Earned(db, BookingItem(id)) ==> db.bookings[id].status != Completed
    ensures var next := Unwind(db, id, key, status).db;
      BookingsEvolve(db, next) && EarningsEvolve(db, next) && LedgerGrows(db, next)
  {
    hide Post, UnwindTxn, Earned;
  }

  lemma ExpireEvolves(db: Db, id: nat)
    ensures var next := ExpireBooking(db, id).db;
      BookingsEvolve(db, next) && EarningsEvolve(db, next) && LedgerGrows(db, next)
  {
    hide Unwind, Earned, LongestCall, AnyCall, AnyTerminal;
    if DueForExpiry(db, id) {
      var status := Classify(db.bookings[id]);
      if status == Completed || status == RequiresAdminReview {
        OneBookingEvolves(db, ExpireBooking(db, id).db, id, ExpireBooking(db, id).db.bookings[id]);
      } else {
        UnwindEvolves(db, id, Expire(id), status);
      }
    }
  }

  lemma SettleEvolves(db: Db, id: nat)
    ensures var next := SettleBooking(db, id).db;
      BookingsEvolve(db, next) && EarningsEvolve(db, next) && LedgerGrows(db, next)
  {
    hide Post, Earned, OpenCallReport, EarningsEvolve;
    var next := SettleBooking(db, id).db;
    assert next == db || next.earnings == db.earnings + [next.earnings[|db.earnings|]];
    if next != db { NewEarningEvolves(db, next, next.earnings[|db.earnings|]); }
    else { SameEarningsEvolve(db); }
  }

  lemma SameEarningsEvolve(db: Db)
    ensures EarningsEvolve(db, db)
  {
  }

  lemma ResolveEvolves(db: Db, id: nat, share: int, refund: int)
    requires share >= 1
    ensures var next := ResolvePartial(db, id, share, refund).db;
      BookingsEvolve(db, next) && EarningsEvolve(db, next) && LedgerGrows(db, next)
  {
    hide Post, Earned, PartialRefundTxn;
  }

  lemma AdminExpireEvolves(db: Db, id: nat, status: BookingStatus)
    requires AdminExpireAllowed(db, id, status)
    ensures var next := AdminExpireBooking(db, id, status).db;
      BookingsEvolve(db, next) && EarningsEvolve(db, next) && LedgerGrows(db, next)
  {
    hide Post, Earned, ReleaseMinutes, UnwindTxn;
  }

  lemma MessageStepEvolves(db: Db, a: MessageAction)
    ensures var next := StepMessage(db, a).db;
      ConversationsEvolve(db, next) && EarningsEvolve(db, next) && LedgerGrows(db, next)
  {
    hide Post, FindConversation, OpenReportOn, Earned, FanMessages, WindowMoves, ConversationEvolves;
    var next := StepMessage(db, a).db;
    forall c | 0 <= c < |db.conversations|
      ensures ConversationEvolves(db.conversations[c], next.conversations[c])
    { WindowsMove(db, a, c); }
  }

  lemma WindowsMove(db: Db, a: MessageAction, c: nat)
    requires c < |db.conversations|
    ensures c < |StepMessage(db, a).db.conversations|
    ensures ConversationEvolves(db.conversations[c], StepMessage(db, a).db.conversations[c])
  {
    hide Post, FindConversation, OpenReportOn, Earned, FanMessages, AskQuestion, PartnerAnswer, PartnerFollowup;
    match a {
      case DoAsk(f, p, blocked, price) => AskMoves(db, f, p, blocked, price, c);
      case DoAnswer(p, d) => AnswerMoves(db, p, d, c);
      case DoFollowup(p, f, blocked) => FollowupMoves(db, p, f, blocked, c);
      case _ =>
    }
  }

  lemma AskMoves(db: Db, fan: nat, partner: nat, blocked: bool, price: Option<int>, c: nat)
    requires c < |db.conversations|
    ensures var next := AskQuestion(db, fan, partner, blocked, price).db;
      c < |next.conversations| && ConversationEvolves(db.conversations[c], next.conversations[c])
  {
    hide Post, FindConversation, FanMessages;
  }

  lemma AnswerMoves(db: Db, partner: nat, d: nat, c: nat)
    requires c < |db.conversations|
    ensures var next := PartnerAnswer(db, partner, d).db;
      c < |next.conversations| && ConversationEvolves(db.conversations[c], next.conversations[c])
  {
  }

  lemma FollowupMoves(db: Db, partner: nat, fan: nat, blocked: bool, c: nat)
    requires c < |db.conversations|
    ensures var next := PartnerFollowup(db, partner, fan, blocked).db;
      c < |next.conversations| && ConversationEvolves(db.conversations[c], next.conversations[c])
  {
    hide FindConversation;
  }

  lemma ShoutoutStepEvolves(db: Db, a: ShoutoutAction)
    ensures var next := StepShoutout(db, a).db;
      EarningsEvolve(db, next) && LedgerGrows(db, next)
  {
    hide Post, CloseReports, CloseRounds, Fees, Earned, HasKey;
  }

  lemma MoneyStepEvolves(db: Db, a: MoneyAction)
    requires forall j :: 0 <= j < |db.earnings| ==> EarningHonest(db, db.earnings[j])
    ensures var next := StepMoney(db, a).db;
      EarningsEvolve(db, next) && PayoutsEvolve(db, next) && TopupsEvolve(db, next) && LedgerGrows(db, next)
  {
    hide Post, PendingFor, Reserved, NormaliseUtr, UtrTaken;
  }

  /** A paid earning belongs to a paid payout. */
  predicate EarningHonest(db: Db, e: Earning) {
    e.status == EarningPaid ==>
      e.payout.Some? && e.payout.value < |db.payouts| && db.payouts[e.payout.value].status == PayoutPaid
  }

  lemma StepEvolves(db: Db, a: Action)
    requires CallsOk(db) && ShoutoutRulesOk(db) && PaidIsConfirmed(db) && Allowed(db, a)
    requires forall j :: 0 <= j < |db.earnings| ==> EarningHonest(db, db.earnings[j])
    ensures Evolves(db, Step(db, a).db)
  {
    hide CallsOk, ShoutoutRulesOk, PaidIsConfirmed, AllMove, StepBooking, StepCall, StepMessage, StepShoutout, StepMoney,
         StepWorld, BookingsEvolve, ConversationsEvolve, EarningHonest;
    var next := Step(db, a).db;
    StepKeepsShoutouts(db, a);
    match a {
      case OnBooking(x) => BookingStepEvolves(db, x); BookingFrame(db, x); SameConversations(db, next);
      case OnCall(x) => CallStepEvolves(db, x); CallFrame(db, x); SameConversations(db, next);
      case OnMessage(x) => MessageStepEvolves(db, x); MessageFrame(db, x); SameBookings(db, next);
      case OnShoutout(x) =>
        ShoutoutStepEvolves(db, x); ShoutoutFrame(db, x);
        SameBookings(db, next); SameConversations(db, next);
      case OnMoney(x) =>
        MoneyStepEvolves(db, x); MoneyFrame(db, x);
        SameBookings(db, next); SameConversations(db, next);
      case OnWorld(x) =>
        WorldFrame(db, x); NewFanOnlyAdds(db, x);
        SameBookings(db, next); SameConversations(db, next);
    }
  }

  lemma NewFanOnlyAdds(db: Db, a: WorldAction)
    ensures |db.bank.wallets| <= |StepWorld(db, a).db.bank.wallets|
  {
  }
}
