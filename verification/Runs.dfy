/** The invariant of the whole platform, kept by every allowed run. */
module Runs {
  import opened Schema
  import opened Ledger
  import opened Tables
  import opened Bookings
  import opened Messages
  import opened Shoutouts
  import opened Payouts
  import opened Platform
  import opened MoneyInvariant
  import opened BookingMoney
  import opened WindowMoney
  import opened ShoutoutMoney
  import opened PayoutMoney
  import opened Capacity
  import opened CallRules
  import opened MessageRules
  import opened ShoutoutRules
  import opened History

  ghost predicate Inv(db: Db) {
    MoneyInv(db) && CapacityOk(db) && CallsOk(db) && MessagesOk(db) && ShoutoutRulesOk(db)
  }

  lemma EmptyIsOk(settings: Settings)
    ensures Inv(EmptyDb(settings))
  {
    var db := EmptyDb(settings);
    assert forall item, sel :: ItemFlow(db.bank.ledger, item, sel) == 0;
    assert MoneyInv(db);
  }

  // ── Money, family by family ──────────────────────────────────────────────

  lemma BookingStepKeepsMoney(db: Db, a: BookingAction)
    requires MoneyInv(db) && Allowed(db, OnBooking(a))
    ensures MoneyInv(StepBooking(db, a).db)
  {
    hide MoneyInv, BookCall, RefundBooking, ExpireBooking, SettleBooking, ResolvePartial, AdminExpireBooking, Earned;
    match a {
      case DoSetAvailability(_, _, _) => NothingMoved(db, StepBooking(db, a).db);
      case DoBook(f, p, date, m, q) => BookCallKeepsMoney(db, f, p, date, m, q);
      case DoRefund(i) => RefundKeepsMoney(db, i);
      case DoExpire(i) => ExpireKeepsMoney(db, i);
      case DoSettle(i) => SettleBookingKeepsMoney(db, i);
      case DoResolvePartial(i, share, refund) => ResolvePartialKeepsMoney(db, i, share, refund);
      case DoAdminExpire(i, s) => AdminExpireKeepsMoney(db, i, s);
    }
  }

  lemma CallActionKeepsMoney(db: Db, a: CallAction)
    requires MoneyInv(db) && CallsOk(db)
    ensures MoneyInv(StepCall(db, a).db)
  {
    hide MoneyInv, CallsOk, RowMoves, StepCall;
    var next := StepCall(db, a).db;
    if a.DoSweepRings? {
      assert next == Calls.SweepRings(db).db by { SweepStep(db); }
      SweepRingsKeepsMoney(db);
    } else {
      CallTouchesOne(db, a);
      CallFrame(db, a);
      if a.booking < |db.bookings| {
        StepMovesRows(db, a);
        assert RowMoves(db.bookings[a.booking], next.bookings[a.booking], db.now);
        MovedStatus(db.bookings[a.booking], next.bookings[a.booking], db.now);
        CallStepKeepsMoney(db, next, a.booking);
      } else {
        NothingMoved(db, next);
      }
    }
  }

  lemma SweepStep(db: Db)
    ensures StepCall(db, DoSweepRings).db == Calls.SweepRings(db).db
  {
  }

  lemma MovedStatus(b: Booking, c: Booking, now: int)
    requires RowMoves(b, c, now)
    ensures c == b.(status := c.status, fanReady := c.fanReady, calls := c.calls)
    ensures c.status == b.status || (b.status == Booked && c.status == Completed)
  {
  }

  lemma MessageStepKeepsMoney(db: Db, a: MessageAction)
    requires MoneyInv(db) && MessagesOk(db) && Allowed(db, OnMessage(a))
    ensures MoneyInv(StepMessage(db, a).db)
  {
    hide MoneyInv, MessagesOk, AskQuestion, PartnerAnswer, PartnerFollowup, ExpireWindow, SettleQuestion;
    match a {
      case DoAsk(f, p, blocked, price) => AskKeepsMoney(db, f, p, blocked, price);
      case DoAnswer(p, c) => AnswerKeepsMoney(db, p, c);
      case DoFollowup(p, f, blocked) =>
        FansHaveWallets(db);
        FollowupKeepsMoney(db, p, f, blocked);
      case DoExpireWindow(c, w) => ExpireWindowKeepsMoney(db, c, w);
      case DoSettleWindow(c, w) => SettleQuestionKeepsMoney(db, c, w);
    }
  }

  lemma FansHaveWallets(db: Db)
    requires MoneyInv(db) && MessagesOk(db)
    ensures forall c :: 0 <= c < |db.conversations| ==> db.conversations[c].fan < |db.bank.wallets|
  {
    forall c | 0 <= c < |db.conversations| ensures db.conversations[c].fan < |db.bank.wallets| {
      assert ConversationOk(db.conversations[c]);
      assert HasWindow(db, c, 0);
      assert WindowOk(db, c, 0);
    }
  }

  lemma ShoutoutStepKeepsMoney(db: Db, a: ShoutoutAction)
    requires MoneyInv(db)
    ensures MoneyInv(StepShoutout(db, a).db)
  {
    hide MoneyInv, RequestShoutout, UploadShoutout, ConfirmShoutout, AutoConfirmShoutout, ReportShoutout,
         RequestCorrection, CancelShoutout, ResolveDispute, AdminDeliver, ExpireShoutout, SettleShoutout;
    match a {
      case DoRequest(f, p, blocked, price) => RequestKeepsMoney(db, f, p, blocked, price);
      case DoUpload(s, link) => UploadKeepsMoney(db, s, link);
      case DoConfirm(f, s) => ConfirmKeepsMoney(db, f, s);
      case DoAutoConfirm(s) => AutoConfirmKeepsMoney(db, s);
      case DoReport(s) => ReportKeepsMoney(db, s);
      case DoCorrect(f, s) => CorrectionKeepsMoney(db, f, s);
      case DoCancel(s) => CancelKeepsMoney(db, s);
      case DoResolve(s, v) => ResolveDisputeKeepsMoney(db, s, v);
      case DoAdminDeliver(s, approve) => AdminDeliverKeepsMoney(db, s, approve);
      case DoExpireShoutout(s) => ExpireShoutoutKeepsMoney(db, s);
      case DoSettleShoutout(s) => SettleShoutoutKeepsMoney(db, s);
    }
  }

  lemma MoneyStepKeepsMoney(db: Db, a: MoneyAction)
    requires MoneyInv(db)
    ensures MoneyInv(StepMoney(db, a).db)
  {
    hide MoneyInv, CreatePayout, ApprovePayout, RejectPayout, CreateTopup, VerifyTopup, Webhook, CleanupTopups, GrantCredit;
    match a {
      case DoCreatePayout(p, v) => CreatePayoutKeepsMoney(db, p, v);
      case DoApprove(p, reference) => ApprovePayoutKeepsMoney(db, p, reference);
      case DoReject(p) => RejectPayoutKeepsMoney(db, p);
      case DoCreateTopup(f, credit, gst, cap) => CreateTopupKeepsMoney(db, f, credit, gst, cap);
      case DoVerify(t) => VerifyTopupKeepsMoney(db, t);
      case DoWebhook(e, t, checked) => WebhookKeepsMoney(db, e, t, checked);
      case DoCleanup => CleanupKeepsMoney(db);
      case DoGrant(f, amount) => GrantKeepsMoney(db, f, amount);
    }
  }

  lemma WorldStepKeepsMoney(db: Db, a: WorldAction)
    requires MoneyInv(db)
    ensures MoneyInv(StepWorld(db, a).db)
  {
    hide MoneyInv, NewFan;
    if a.DoNewFan? { NewFanKeepsMoney(db); } else { NothingMoved(db, StepWorld(db, a).db); }
  }

  lemma StepKeepsMoney(db: Db, a: Action)
    requires Inv(db) && Allowed(db, a)
    ensures MoneyInv(Step(db, a).db)
  {
    hide MoneyInv, MessagesOk, CallsOk, CapacityOk, ShoutoutRulesOk, StepBooking, StepCall, StepMessage, StepShoutout, StepMoney, StepWorld;
    match a {
      case OnBooking(x) => BookingStepKeepsMoney(db, x);
      case OnCall(x) => CallActionKeepsMoney(db, x);
      case OnMessage(x) => MessageStepKeepsMoney(db, x);
      case OnShoutout(x) => ShoutoutStepKeepsMoney(db, x);
      case OnMoney(x) => MoneyStepKeepsMoney(db, x);
      case OnWorld(x) => WorldStepKeepsMoney(db, x);
    }
  }

  // ── All of it, over every run ────────────────────────────────────────────

  lemma PaidShoutoutsAreConfirmed(db: Db)
    requires MoneyInv(db)
    ensures PaidIsConfirmed(db)
  {
    hide BankOk, EarningsOk, HasKey, ItemFlow;
    forall s | 0 <= s < |db.shoutouts| && Earned(db, ShoutoutItem(s))
      ensures db.shoutouts[s].status == Delivered && db.shoutouts[s].confirmed.Some?
    { assert ShoutoutOk(db, s); }
  }

  lemma EarningsAreHonest(db: Db)
    requires EarningsOk(db)
    ensures forall j :: 0 <= j < |db.earnings| ==> EarningHonest(db, db.earnings[j])
  {
    forall j | 0 <= j < |db.earnings| ensures EarningHonest(db, db.earnings[j]) { assert EarningOk(db, j); }
  }

  lemma StepKeepsInv(db: Db, a: Action)
    requires Inv(db) && Allowed(db, a)
    ensures Inv(Step(db, a).db)
    ensures Evolves(db, Step(db, a).db)
  {
    PaidShoutoutsAreConfirmed(db);
    EarningsAreHonest(db);
    hide BankOk, KeysOwned, BookingsOk, WindowsOk, ShoutoutsOk, TopupsOk, PayoutsOk, GrantsOk, EarningsOk,
         CapacityOk, CallsOk, MessagesOk, ShoutoutRulesOk, PaidIsConfirmed, EarningHonest, Step, Evolves;
    StepKeepsMoney(db, a);
    StepKeepsCapacity(db, a);
    StepKeepsCalls(db, a);
    StepKeepsMessages(db, a);
    StepKeepsShoutouts(db, a);
    StepEvolves(db, a);
  }

  lemma {:induction false} RunKeepsInv(db: Db, actions: seq<Action>)
    requires Inv(db) && AllowedRun(db, actions)
    ensures Inv(Run(db, actions))
    decreases |actions|
  {
    hide Inv, Step;
    if |actions| > 0 {
      StepKeepsInv(db, actions[0]);
      RunKeepsInv(Step(db, actions[0]).db, actions[1..]);
    }
  }

  lemma EvolvesReflexive(db: Db)
    requires ShoutoutRulesOk(db)
    ensures Evolves(db, db)
  {
    SameShoutouts(db, db);
  }

  /** Nothing a run does takes back what an earlier state had settled. */
  lemma {:induction false} RunEvolves(db: Db, actions: seq<Action>)
    requires Inv(db) && AllowedRun(db, actions)
    ensures Evolves(db, Run(db, actions))
    decreases |actions|
  {
    hide MoneyInv, CapacityOk, CallsOk, MessagesOk, ShoutoutRulesOk, Step, Evolves;
    EvolvesReflexive(db);
    if |actions| > 0 {
      var mid := Step(db, actions[0]).db;
      StepKeepsInv(db, actions[0]);
      RunEvolves(mid, actions[1..]);
      EvolvesTransitive(db, mid, Run(mid, actions[1..]));
    }
  }

  /** Every state the platform can reach from empty tables. */
  ghost predicate Reachable(db: Db) {
    exists settings, actions :: AllowedRun(EmptyDb(settings), actions) && db == Run(EmptyDb(settings), actions)
  }

  lemma ReachableIsOk(db: Db)
    requires Reachable(db)
    ensures Inv(db)
  {
    hide Inv, AllowedRun, Run;
    var settings, actions :| AllowedRun(EmptyDb(settings), actions) && db == Run(EmptyDb(settings), actions);
    EmptyIsOk(settings);
    RunKeepsInv(EmptyDb(settings), actions);
  }
}
