/** Concrete runs: the unsafe uses of the under-guarded calls, and the inputs on which
    a property one might expect fails. */
module Witness {
  import opened Schema
  import opened Ledger
  import opened Tables
  import opened Bookings
  import opened Messages
  import opened Platform
  import opened MoneyInvariant
  import opened Runs
  import opened Guarantees
  import Exact
  import BookingMoney
  import WindowMoney
  import ShoutoutMoney
  import CallRules
  import Shoutouts
  import Topups
  import opened Calls

  const WEEK: nat := 604800
  const SETTINGS: Settings := Settings(WEEK, 172800, 259200, 100, None, None)
  const DAY_ONE: Slot := Slot(0, 0)

  lemma {:induction false} RunAppend(db: Db, actions: seq<Action>, a: Action)
    requires AllowedRun(db, actions) && Allowed(Run(db, actions), a)
    ensures AllowedRun(db, actions + [a]) && Run(db, actions + [a]) == Step(Run(db, actions), a).db
    decreases |actions|
  {
    hide Step, Allowed;
    if |actions| == 0 {
      assert actions + [a] == [a] && [a][1..] == [];
      assert Run(Step(db, a).db, []) == Step(db, a).db;
      assert AllowedRun(Step(db, a).db, []);
    } else {
      assert (actions + [a])[1..] == actions[1..] + [a];
      RunAppend(Step(db, actions[0]).db, actions[1..], a);
    }
  }

  lemma OneMoreStep(db: Db, a: Action)
    requires Reachable(db) && Allowed(db, a)
    ensures Reachable(Step(db, a).db)
  {
    hide Step, Allowed, Run, AllowedRun;
    var settings, actions :| AllowedRun(EmptyDb(settings), actions) && db == Run(EmptyDb(settings), actions);
    RunAppend(EmptyDb(settings), actions, a);
  }

  const GRANT: Txn := Payouts.GrantTxn(0, 0, 1000)

  /** One fan with 1000 paise, and one bookable day. */
  const FUNDED: Db := EmptyDb(SETTINGS).(bank := Bank([GRANT], [Wallet(1000, 1000)]),
                                         slots := map[DAY_ONE := Availability(true, 60, 0)])

  lemma EmptyIsReachable()
    ensures Reachable(EmptyDb(SETTINGS))
  {
    assert AllowedRun(EmptyDb(SETTINGS), []) && Run(EmptyDb(SETTINGS), []) == EmptyDb(SETTINGS);
  }

  lemma GrantPosts()
    ensures Post(Bank([], [Wallet(0, 0)]), GRANT) == Posted(Bank([GRANT], [Wallet(1000, 1000)]), 0, false)
  {
    PairSum(GRANT.legs[0], GRANT.legs[1]);
    FirstLegMoves([Wallet(0, 0)], GRANT.legs[0], GRANT.legs[1], GRANT.legs[1]);
    assert GRANT.legs == [GRANT.legs[0], GRANT.legs[1]];
  }

  lemma FundedIsReachable()
    ensures Reachable(FUNDED)
  {
    hide Reachable, Post, BookCall;
    var d0 := EmptyDb(SETTINGS);
    EmptyIsReachable();
    var d1 := d0.(bank := Bank([], [Wallet(0, 0)]));
    assert d0.bank.wallets + [Wallet(0, 0)] == [Wallet(0, 0)];
    assert Step(d0, OnWorld(DoNewFan)).db == d1;
    OneMoreStep(d0, OnWorld(DoNewFan));
    GrantPosts();
    var d2 := d1.(bank := Bank([GRANT], [Wallet(1000, 1000)]));
    OneMoreStep(d1, OnMoney(DoGrant(0, 1000)));
    OneMoreStep(d2, OnBooking(DoSetAvailability(0, 0, 60)));
  }

  /** A debit the funded fan can pay posts. */
  lemma FundedPays(t: Txn, price: int)
    requires 0 < price <= 1000 && t == Txn(t.key, price, [WalletLeg(0, -price), Plain(Escrow, price)]) && t.key != AdminCredit(0)
    ensures Post(FUNDED.bank, t).Posted?
  {
    PairSum(t.legs[0], t.legs[1]);
    FirstLegMoves(FUNDED.bank.wallets, t.legs[0], t.legs[1], t.legs[1]);
    assert !HasKey([GRANT], t.key);
  }

  // ── A booking ────────────────────────────────────────────────────────────

  const BOOK: Action := OnBooking(DoBook(0, 0, 0, 5, Some(Quote(1000, 0))))
  const BOOKED: Booking := Booking(0, 0, 0, 5, 1000, 1000, 0, Booked, WEEK, false, [])

  lemma BookedIsReachable() returns (db: Db)
    ensures Reachable(db) && db.bookings == [BOOKED] && db.now == 0 && db.settings == SETTINGS && db.reports == []
  {
    hide Reachable, Post;
    FundedIsReachable();
    FundedPays(BookTxn(0, 0, Quote(1000, 0)), 1000);
    db := Step(FUNDED, BOOK).db;
    OneMoreStep(FUNDED, BOOK);
  }

  /** Refund, then the admin's expiry: the fan is paid twice. */
  lemma RefundThenAdminExpire()
    ensures exists db, id: nat :: Reachable(db) && id < |db.bookings|
              && EscrowOf(AdminExpireBooking(db, id, ExpiredTechnical).db, BookingItem(id)) < 0
  {
    hide Reachable, Post, AdminExpireBooking, ItemFlow, HasKey, Unwind;
    var db := BookedIsReachable();
    ReachableIsOk(db);
    BookingMoney.UnwindKeepsMoney(db, 0, Refund(0), CancelledByFan) by { UnpaidBooked(db); }
    var next := Step(db, OnBooking(DoRefund(0))).db;
    OneMoreStep(db, OnBooking(DoRefund(0)));
    ReachableIsOk(next);
    Exact.UnwindShape(db, 0, Refund(0), CancelledByFan);
    NoAdminExpire(next);
    Exact.AdminExpireOverdraws(next, 0, ExpiredTechnical);
    assert EscrowOf(AdminExpireBooking(next, 0, ExpiredTechnical).db, BookingItem(0)) == -1000;
  }

  lemma UnpaidBooked(db: Db)
    requires MoneyInv(db) && |db.bookings| > 0 && db.bookings[0].status == Booked
    ensures PaidFor(db.earnings, BookingItem(0)).None?
  {
    assert BookingOk(db, 0);
  }

  lemma NoAdminExpire(db: Db)
    requires MoneyInv(db) && |db.bookings| > 0 && db.bookings[0].status == CancelledByFan
    ensures !HasKey(db.bank.ledger, AdminExpire(0))
  {
    assert BookingOk(db, 0);
  }

  // ── A call of 200 seconds, judged at day end ─────────────────────────────

  const RINGING: Call := Call(PartnerInitiated, 0, None, None, None, None, None, None)
  const LIVE: Call := RINGING.(status := InProgress, startedAt := Some(0), deadline := Some(300), fanBeat := Some(0))
  const DROPPED: Call := LIVE.(status := DroppedTechnical, endedAt := Some(200))

  lemma LiveIsReachable() returns (db: Db)
    ensures Reachable(db) && db.bookings == [BOOKED.(calls := [LIVE])] && db.now == 0 && db.reports == []
  {
    hide Reachable;
    var d0 := BookedIsReachable();
    OneMoreStep(d0, OnCall(DoInitiate(0)));
    var d1 := d0.(bookings := [BOOKED.(calls := [RINGING])]);
    assert [] + [RINGING] == [RINGING];
    assert Step(d0, OnCall(DoInitiate(0))).db == d1;
    OneMoreStep(d1, OnCall(DoJoin(0)));
    db := d1.(bookings := [BOOKED.(calls := [LIVE])]);
    assert ConsumedSeconds([RINGING], 0) == 0 && LatestActive([RINGING]) == Some(0);
    assert [RINGING][0 := LIVE] == [LIVE] && d1.bookings[0 := BOOKED.(calls := [LIVE])] == db.bookings;
    assert Step(d1, OnCall(DoJoin(0))).db == db;
  }

  /** Ring, join, hang up after 200 of the 300 seconds. */
  lemma DroppedIsReachable() returns (db: Db)
    ensures Reachable(db) && db.bookings == [BOOKED.(calls := [DROPPED])] && db.now == 200 && db.reports == []
  {
    hide Reachable;
    var d2 := LiveIsReachable();
    OneMoreStep(d2, OnWorld(Tick(200)));
    var d3 := d2.(now := 200);
    OneMoreStep(d3, OnCall(DoComplete(0, 0, false)));
    db := Step(d3, OnCall(DoComplete(0, 0, false))).db;
    assert [LIVE][0 := DROPPED] == [DROPPED];
    assert db.bookings[0].calls == [DROPPED];
  }

  lemma ReviewIsReachable() returns (db: Db)
    ensures Reachable(db) && |db.bookings| == 1 && db.reports == []
    ensures db.bookings[0].status == RequiresAdminReview && db.bookings[0].original == 1000
  {
    hide Reachable;
    var d0 := DroppedIsReachable();
    OneMoreStep(d0, OnWorld(Tick(WEEK)));
    var d1 := d0.(now := 200 + WEEK);
    OneMoreStep(d1, OnBooking(DoExpire(0)));
    db := Step(d1, OnBooking(DoExpire(0))).db;
    assert CallSeconds(DROPPED) == 200;
    assert LongestCall([DROPPED]) == 200 by { assert [DROPPED][..0] == []; }
  }

  /** Split nothing to the partner, then settle: the booking is paid out twice. */
  lemma ZeroShareThenSettle()
    ensures exists db, id: nat :: Reachable(db) && id < |db.bookings| && EscrowOf(
              SettleBooking(ResolvePartial(db, id, 0, db.bookings[id].original).db, id).db, BookingItem(id)) < 0
  {
    hide Reachable, ResolvePartial, SettleBooking, ItemFlow, MoneyInv;
    var db := ReviewIsReachable();
    ReachableIsOk(db);
    Exact.ZeroShareIsPaidAgain(db, 0);
    assert EscrowOf(SettleBooking(ResolvePartial(db, 0, 0, db.bookings[0].original).db, 0).db, BookingItem(0)) == -1000;
  }

  // ── A question answered and settled while a refund job is under way ──────

  const ASK: Action := OnMessage(DoAsk(0, 0, false, Some(500)))
  const ANSWER: Action := OnMessage(DoAnswer(0, 0))
  const FIRST: Window := Window(Free, 0, MESSAGE_CAP, Answered, None, Some(WEEK), [FromFan, FromPartner])
  const SECOND: Window := Window(Paid, 500, MESSAGE_CAP, Open, Some(172800), Some(WEEK), [FromFan])

  lemma AnsweredIsReachable() returns (db: Db)
    ensures Reachable(db) && db.conversations == [Conversation(0, 0, [FIRST])]
    ensures db == FUNDED.(conversations := db.conversations)
  {
    hide Reachable;
    FundedIsReachable();
    OneMoreStep(FUNDED, ASK);
    var open := FIRST.(status := Open, settleAt := None, messages := [FromFan]);
    var d1 := FUNDED.(conversations := [Conversation(0, 0, [open])]);
    assert [] + [Conversation(0, 0, [open])] == [Conversation(0, 0, [open])];
    assert Step(FUNDED, ASK).db == d1;
    OneMoreStep(d1, ANSWER);
    assert [FromFan] + [FromPartner] == [FromFan, FromPartner] && [open][0 := FIRST] == [FIRST];
    db := Step(d1, ANSWER).db;
    assert db.conversations[0].windows == [FIRST];
  }

  lemma PaidQuestionIsReachable() returns (db: Db)
    ensures Reachable(db) && db.conversations == [Conversation(0, 0, [FIRST, SECOND])] && db.now == 0 && db.reports == []
  {
    hide Reachable, Post;
    var d0 := AnsweredIsReachable();
    FundedPays(QuestionTxn(0, 1, 0, 500), 500);
    OneMoreStep(d0, ASK);
    db := Step(d0, ASK).db;
    assert [FIRST] + [SECOND] == [FIRST, SECOND];
  }

  /** The window is overdue when the job lists it; the partner answers, a week
      passes and the settlement pays; then the job's item refunds the fan as well. */
  lemma SettleBetweenListAndItem()
    ensures exists db, c: nat, w: nat :: Reachable(db) && EscrowOf(ExpireWindow(db, c, w).db, WindowItem(c, w)) < 0
  {
    hide Reachable, ExpireWindow, ItemFlow, MoneyInv, SettleQuestion;
    var d0 := PaidQuestionIsReachable();
    OneMoreStep(d0, OnWorld(Tick(172800)));
    var d1 := d0.(now := 172800);
    assert WindowOverdue(d1, 0, 1);
    OneMoreStep(d1, ANSWER);
    var d2 := Step(d1, ANSWER).db;
    assert d2.conversations[0].windows[1].status == Answered;
    OneMoreStep(d2, OnMessage(DoSettleWindow(0, 1)));
    var d3 := SettleQuestion(d2, 0, 1).db;
    ReachableIsOk(d2);
    SettledIsEarned(d2);
    ReachableIsOk(d3);
    Exact.StaleExpiryOverdraws(d3, 0, 1);
    assert EscrowOf(ExpireWindow(d3, 0, 1).db, WindowItem(0, 1)) == -500;
  }

  lemma SettledIsEarned(db: Db)
    requires MoneyInv(db) && HasWindow(db, 0, 1) && db.reports == []
    requires WindowAt(db, 0, 1).kind == Paid && WindowAt(db, 0, 1).status == Answered && WindowAt(db, 0, 1).charge == 500
    ensures var next := SettleQuestion(db, 0, 1).db;
      Earned(next, WindowItem(0, 1)) && next.conversations == db.conversations
  {
    hide BankOk, EarningsOk, HasKey, ItemFlow, Post;
    assert WindowOk(db, 0, 1);
    if !Earned(db, WindowItem(0, 1)) { WindowMoney.SettleQuestionEffect(db, 0, 1); }
  }

  // ── A call that is dropped and joined again ──────────────────────────────

  const SECOND_RING: Call := Call(PartnerInitiated, 200, None, None, None, None, None, None)

  /** Hang up after 200 of the 300 seconds, ring again, join again: the second attempt
      has the 100 seconds that are left, not the booked time. */
  lemma RejoinGetsTheRest()
    ensures exists db :: Reachable(db) && |db.bookings| == 1 && |JoinCall(db, 0).db.bookings| == 1
              && |JoinCall(db, 0).db.bookings[0].calls| == 2
              && var b, y := db.bookings[0], JoinCall(db, 0).db.bookings[0].calls[1];
                 && b.minutes == 5 && JoinCall(db, 0).reply == Done && y.status == InProgress
                 && y.deadline == Some(db.now + 100) && y.deadline != Some(db.now + b.minutes * 60)
  {
    hide Reachable, JoinCall;
    var d0 := DroppedIsReachable();
    OneMoreStep(d0, OnCall(DoInitiate(0)));
    var db := d0.(bookings := [BOOKED.(calls := [DROPPED, SECOND_RING])]);
    assert [DROPPED] + [SECOND_RING] == [DROPPED, SECOND_RING];
    assert Step(d0, OnCall(DoInitiate(0))).db == db;
    hide Step;
    HundredSecondsLeft();
    assert LatestActive(db.bookings[0].calls) == Some(1);
    hide ConsumedSeconds, LatestActive;
    CallRules.JoinGrantsFullTimeIff(db, 0, 1);
    JoinKeepsShape(db, 1);
  }

  lemma HundredSecondsLeft()
    ensures ConsumedSeconds([DROPPED, SECOND_RING], 1) == 200
  {
    var calls := [DROPPED, SECOND_RING];
    assert calls[..1] == [DROPPED] && [DROPPED][..0] == [];
    assert CallSeconds(DROPPED) == 200;
    assert ConsumedSeconds([], 1) == 0;
    assert ConsumedSeconds([DROPPED], 1) == 200;
  }

  lemma JoinKeepsShape(db: Db, k: nat)
    requires |db.bookings| == 1 && LatestActive(db.bookings[0].calls) == Some(k)
    ensures |JoinCall(db, 0).db.bookings| == 1 && |JoinCall(db, 0).db.bookings[0].calls| == |db.bookings[0].calls|
    ensures JoinCall(db, 0).db.bookings[0].calls[k].status == InProgress
  {
  }

  // ── A booking recovered by an admin ──────────────────────────────────────

  /** Recovery of a booking that is still BOOKED: expired, and not refunded. */
  lemma RecoverStrandsTheFan()
    ensures exists db :: Reachable(db) && |db.bookings| == 1
              && var next := AdminRecoverCall(db, 0).db;
                 && |next.bookings| == 1 && next.bookings[0].status == ExpiredTechnical
                 && EscrowOf(next, BookingItem(0)) == 1000
                 && ItemFlow(next.bank.ledger, BookingItem(0), OnWallet(0)) == -1000
  {
    hide Reachable, ItemFlow, MoneyInv;
    var db := BookedIsReachable();
    ReachableIsOk(db);
    Exact.AdminRecoverStrands(db, 0);
  }

  // ── A capture after its reservation lapsed ───────────────────────────────

  const CAP: Option<int> := Some(2000)
  const FIRST_ORDER: TopupOrder := TopupOrder(0, 1000, 180, 1180, TopupPending, 0)
  const SECOND_ORDER: TopupOrder := TopupOrder(0, 1000, 180, 1180, TopupPending, 1800)

  const OPEN_ORDER: Action := OnMoney(DoCreateTopup(0, 1000, 180, CAP))

  lemma OrderOpens(db: Db)
    requires |db.bank.wallets| == 1 && db.bank.wallets[0].balance == 1000 && Payouts.Reserved(db.topups, 0, db.now) == 0
    ensures Payouts.CreateTopup(db, 0, 1000, 180, CAP).db
         == db.(topups := db.topups + [TopupOrder(0, 1000, 180, 1180, TopupPending, db.now)])
  {
    hide Payouts.Reserved;
  }

  /** At 30 minutes the first order no longer counts. */
  lemma FirstOrderLapsed()
    ensures Payouts.Reserved([FIRST_ORDER], 0, 1800) == 0
  {
    assert [FIRST_ORDER][..0] == [];
  }

  lemma TwoOrdersAreReachable() returns (db: Db)
    ensures Reachable(db) && db == FUNDED.(now := 1800, topups := [FIRST_ORDER, SECOND_ORDER])
  {
    hide Reachable, Payouts.CreateTopup, Payouts.Reserved;
    FundedIsReachable();
    NothingReserved();
    OrderOpens(FUNDED);
    assert [] + [FIRST_ORDER] == [FIRST_ORDER];
    OneMoreStep(FUNDED, OPEN_ORDER);
    var d1 := FUNDED.(topups := [FIRST_ORDER]);
    OneMoreStep(d1, OnWorld(Tick(1800)));
    var d2 := d1.(now := 1800);
    FirstOrderLapsed();
    OrderOpens(d2);
    assert [FIRST_ORDER] + [SECOND_ORDER] == [FIRST_ORDER, SECOND_ORDER];
    OneMoreStep(d2, OPEN_ORDER);
    db := d2.(topups := [FIRST_ORDER, SECOND_ORDER]);
  }

  lemma NothingReserved()
    ensures Payouts.Reserved([], 0, 0) == 0
  {
  }

  /** Two orders, each within the cap when it was opened, and the first captured after
      30 minutes: the fan may end above the cap. */
  lemma LateCaptureExceedsTheCap()
    ensures exists db, t: nat :: Reachable(db) && t < |db.topups| && |db.bank.wallets| == 1
              && Topups.Exposure(db, 0) == 2000
              && |Payouts.VerifyTopup(db, t).db.bank.wallets| == 1
              && Topups.Exposure(Payouts.VerifyTopup(db, t).db, 0) > 2000
  {
    hide Reachable, MoneyInv, Post;
    var db := TwoOrdersAreReachable();
    ReachableIsOk(db);
    Topups.LateCaptureExceedsIff(db, 0, 2000);
    assert [FIRST_ORDER, SECOND_ORDER][..1] == [FIRST_ORDER] && [FIRST_ORDER][..0] == [];
    assert Payouts.Reserved([FIRST_ORDER], 0, 1800) == 0;
    assert Topups.Exposure(db, 0) == 2000;
  }

  // ── A shout-out that expires after a paid round ──────────────────────────

  const REQUESTED: Shoutout := Shoutout(0, 0, 500, AwaitingVideo, WEEK, None, false, false, None, [])
  const DELIVERED_ONCE: Shoutout := REQUESTED.(status := Delivered, reviewDeadline := Some(259200))
  const SENT_BACK: Shoutout :=
    DELIVERED_ONCE.(status := AwaitingVideo, freeUsed := true, corrections := [Correction(FreeRound, 0, false)])
  const DELIVERED_TWICE: Shoutout := SENT_BACK.(status := Delivered, corrections := [Correction(FreeRound, 0, true)])
  const PAID_BACK: Shoutout :=
    DELIVERED_TWICE.(status := AwaitingVideo, corrections := [Correction(FreeRound, 0, true), Correction(PaidRound, 100, false)])

  /** A debit that the wallet covers posts. */
  lemma CoveredDebitPosts(bank: Bank, t: Txn, amount: int)
    requires |bank.wallets| == 1 && 0 < amount <= bank.wallets[0].balance && !HasKey(bank.ledger, t.key)
    requires t == Txn(t.key, amount, [WalletLeg(0, -amount), Plain(Escrow, amount)])
    ensures var r := Post(bank, t);
      r.Posted? && |r.bank.wallets| == 1 && r.bank.wallets[0].balance == bank.wallets[0].balance - amount
  {
    PairSum(t.legs[0], t.legs[1]);
    FirstLegMoves(bank.wallets, t.legs[0], t.legs[1], t.legs[1]);
  }

  predicate At(db: Db, row: Shoutout, balance: int) {
    && db.shoutouts == [row] && db.now == 0 && db.settings == SETTINGS
    && |db.bank.wallets| == 1 && db.bank.wallets[0].balance == balance
  }

  lemma RequestedIsReachable() returns (db: Db)
    ensures Reachable(db) && At(db, REQUESTED, 500)
  {
    hide Reachable, Post;
    FundedIsReachable();
    var a := OnShoutout(DoRequest(0, 0, false, Some(500)));
    NoShoutKey();
    CoveredDebitPosts(FUNDED.bank, Shoutouts.RequestTxn(0, 0, 500), 500);
    OneMoreStep(FUNDED, a);
    db := Step(FUNDED, a).db;
    assert [] + [REQUESTED] == [REQUESTED];
  }

  lemma NoShoutKey()
    ensures !HasKey(FUNDED.bank.ledger, Shout(0))
  {
  }

  /** Delivered, sent back for free, delivered again. */
  lemma TwiceDeliveredIsReachable() returns (db: Db)
    ensures Reachable(db) && At(db, DELIVERED_TWICE, 500)
  {
    hide Reachable;
    var d0 := RequestedIsReachable();
    var upload, correct := OnShoutout(DoUpload(0, "x")), OnShoutout(DoCorrect(0, 0));
    OneMoreStep(d0, upload);
    var d1 := d0.(shoutouts := [DELIVERED_ONCE]);
    assert "x"[0] != ' ' && Shoutouts.CloseRounds([]) == [];
    assert Step(d0, upload).db == d1;
    OneMoreStep(d1, correct);
    var d2 := d0.(shoutouts := [SENT_BACK]);
    assert [] + [Correction(FreeRound, 0, false)] == [Correction(FreeRound, 0, false)];
    assert Step(d1, correct).db == d2;
    OneMoreStep(d2, upload);
    db := d0.(shoutouts := [DELIVERED_TWICE]);
    assert Shoutouts.CloseRounds(SENT_BACK.corrections) == DELIVERED_TWICE.corrections;
    assert Step(d2, upload).db == db;
  }

  lemma PaidRoundIsReachable() returns (db: Db)
    ensures Reachable(db) && At(db, PAID_BACK, 400)
  {
    hide Reachable, Post;
    var d0 := TwiceDeliveredIsReachable();
    var a := OnShoutout(DoCorrect(0, 0));
    ReachableIsOk(d0);
    NoPaidRoundKey(d0);
    CoveredDebitPosts(d0.bank, Shoutouts.CorrectionTxn(0, 1, 0, 100), 100);
    OneMoreStep(d0, a);
    db := Step(d0, a).db;
    assert [Correction(FreeRound, 0, true)] + [Correction(PaidRound, 100, false)] == PAID_BACK.corrections;
    assert d0.shoutouts[0 := PAID_BACK] == [PAID_BACK];
  }

  lemma NoPaidRoundKey(db: Db)
    requires MoneyInv(db) && |db.shoutouts| == 1 && |db.shoutouts[0].corrections| == 1
    ensures !HasKey(db.bank.ledger, ShoutCorrection(0, 1))
  {
    hide BankOk, EarningsOk, HasKey, ItemFlow;
    assert ShoutoutOk(db, 0);
  }

  /** The partner never delivers the paid round and the shout-out expires: the fan gets
      the price back and is out the fee. */
  lemma ExpiryKeepsThePaidFee()
    ensures exists db :: Reachable(db) && |db.shoutouts| == 1 && db.shoutouts[0].status == ExpiredNoDelivery
              && ItemFlow(db.bank.ledger, ShoutoutItem(0), OnWallet(0)) == -100
              && EscrowOf(db, ShoutoutItem(0)) == 100
  {
    hide Reachable, MoneyInv, Post, ItemFlow;
    var d0 := PaidRoundIsReachable();
    OneMoreStep(d0, OnWorld(Tick(WEEK)));
    var d1 := d0.(now := WEEK);
    ReachableIsOk(d1);
    ShoutoutMoney.ExpireShoutoutKeepsMoney(d1, 0);
    OneMoreStep(d1, OnShoutout(DoExpireShoutout(0)));
    var db := Step(d1, OnShoutout(DoExpireShoutout(0))).db;
    assert db.shoutouts[0] == PAID_BACK.(status := ExpiredNoDelivery);
    ShoutoutMoneyIsGated(db, 0);
    var cs := PAID_BACK.corrections;
    assert cs[..1] == [cs[0]] && [cs[0]][..0] == [];
    assert Shoutouts.Fees([cs[0]]) == 0 && Shoutouts.Fees(cs) == 100;
  }
}
