/** Top-ups: every order is credited once, and prompt captures stay under the
    wallet cap.
 */
module Topups {
  import opened Schema
  import opened Ledger
  import opened Tables
  import opened Bookings
  import opened Messages
  import opened Shoutouts
  import opened Payouts
  import opened Platform
  import opened MoneyInvariant
  import opened BookingMoney
  import opened PayoutMoney
  import opened CallRules
  import opened MessageRules
  import opened ShoutoutRules
  import opened Capacity
  import opened History
  import opened Runs
  import opened Guarantees

  // ── Exactly once ─────────────────────────────────────────────────────────

  /** A capture event that passes its cross-check credits an uncredited order in full,
      whether it is still pending or cleanup has failed it. */
  lemma CaptureCredits(db: Db, event: nat, t: nat)
    requires MoneyInv(db) && t < |db.topups| && event !in db.webhooks && db.topups[t].status != TopupSuccessful
    ensures var o := db.topups[t]; var out := Webhook(db, event, t, true);
      && out.reply == Done && event in out.db.webhooks
      && out.db.topups[t].status == TopupSuccessful
      && o.fan < |db.bank.wallets| == |out.db.bank.wallets|
      && out.db.bank.wallets[o.fan].balance == db.bank.wallets[o.fan].balance + o.credit
  {
    hide BankOk, EarningsOk, HasKey, ItemFlow, LegSum, Flow;
    assert TopupOk(db, t);
    TopupPosts(db, t);
  }

  lemma TopupPosts(db: Db, t: nat)
    requires BankOk(db.bank) && t < |db.topups| && TopupOk(db, t) && db.topups[t].status != TopupSuccessful
    ensures var o := db.topups[t]; var r := Post(db.bank, TopupTxn(t, o));
      && r.Posted? && |r.bank.wallets| == |db.bank.wallets|
      && (forall w :: 0 <= w < |db.bank.wallets| ==>
            r.bank.wallets[w].balance == db.bank.wallets[w].balance + if w == o.fan then o.credit else 0)
  {
    var o := db.topups[t];
    var txn := TopupTxn(t, o);
    var x, y, z := WalletLeg(o.fan, o.credit), Plain(GstPayable, o.gst), Plain(RazorpayClearing, -o.amount);
    TripleSum(x, y, z);
    WalletInBounds(db, o.fan);
    FirstLegMoves(db.bank.wallets, x, y, z);
    assert txn.legs == [x, y, z];
  }

  /** Any number of captures, retries and cleanups later, a credited order has
      credited its fan exactly once. */
  lemma CreditedExactlyOnce(db: Db, actions: seq<Action>, t: nat)
    requires Reachable(db) && AllowedRun(db, actions) && t < |db.topups|
    ensures var later := Run(db, actions);
      && t < |later.topups|
      && var o := later.topups[t];
         && o == db.topups[t].(status := o.status)
         && (db.topups[t].status == TopupSuccessful ==> o.status == TopupSuccessful)
         && ItemFlow(later.bank.ledger, TopupItem(t), OnWallet(o.fan)) == (if o.status == TopupSuccessful then o.credit else 0)
         && (HasKey(later.bank.ledger, Topup(t)) <==> o.status == TopupSuccessful)
  {
    hide Reachable, AllowedRun, Run;
    ReachableIsOk(db);
    RunKeepsInv(db, actions);
    RunEvolves(db, actions);
    hide BankOk, EarningsOk, HasKey, ItemFlow, CapacityOk, CallsOk, MessagesOk, ShoutoutRulesOk;
    assert TopupOk(Run(db, actions), t);
  }

  // ── The wallet cap ───────────────────────────────────────────────────────

  /** What the fan has, or may still be credited by an order young enough to count. */
  function Exposure(db: Db, fan: nat): int
    requires fan < |db.bank.wallets|
  {
    db.bank.wallets[fan].balance + Reserved(db.topups, fan, db.now)
  }

  predicate Counts(o: TopupOrder, fan: nat, now: int) {
    o.fan == fan && o.status == TopupPending && o.createdAt > now - 1800
  }

  /** The action captures an order of the fan's while its reservation lasts. */
  predicate CapturesReserved(db: Db, a: Action, fan: nat) {
    match a
    case OnMoney(DoVerify(t)) => t < |db.topups| && Counts(db.topups[t], fan, db.now)
    case OnMoney(DoWebhook(_, t, _)) => t < |db.topups| && Counts(db.topups[t], fan, db.now)
    case _ => false
  }

  /** What the transactions of a step credit to the fan's wallet, on balance, other
      than by capturing a reserved order. */
  function Credited(db: Db, a: Action, fan: nat): nat {
    if CapturesReserved(db, a, fan) then 0
    else Max(0, Flow(Step(db, a).db.bank.ledger, OnWallet(fan)) - Flow(db.bank.ledger, OnWallet(fan)))
  }

  function CreditedOver(db: Db, actions: seq<Action>, fan: nat): nat
    decreases |actions|
  {
    if |actions| == 0 then 0
    else Credited(db, actions[0], fan) + CreditedOver(Step(db, actions[0]).db, actions[1..], fan)
  }

  /** Every checkout of the fan is opened under the same cap. */
  predicate OpensUnder(actions: seq<Action>, fan: nat, cap: int) {
    forall i :: 0 <= i < |actions| && actions[i].OnMoney? && actions[i].money.DoCreateTopup? && actions[i].money.fan == fan ==>
      actions[i].money.cap == Some(cap)
  }

  lemma {:induction false} ReservedOnlyDrops(ts: seq<TopupOrder>, us: seq<TopupOrder>, fan: nat, now: int, later: int)
    requires |us| == |ts| && now <= later && forall t :: 0 <= t < |ts| ==> ts[t].credit > 0
    requires forall t :: 0 <= t < |ts| ==> us[t] == ts[t].(status := us[t].status)
    requires forall t :: 0 <= t < |ts| ==> us[t].status == TopupPending ==> ts[t].status == TopupPending
    ensures 0 <= Reserved(us, fan, later) <= Reserved(ts, fan, now)
  {
    if |ts| > 0 { ReservedOnlyDrops(ts[..|ts| - 1], us[..|us| - 1], fan, now, later); }
  }

  lemma {:induction false} ReservedDropsByCredit(ts: seq<TopupOrder>, t: nat, fan: nat, now: int)
    requires t < |ts| && Counts(ts[t], fan, now)
    ensures Reserved(ts[t := ts[t].(status := TopupSuccessful)], fan, now) == Reserved(ts, fan, now) - ts[t].credit
  {
    var n := |ts| - 1;
    var us := ts[t := ts[t].(status := TopupSuccessful)];
    if t == n {
      assert us[..n] == ts[..n];
    } else {
      assert us[..n] == ts[..n][t := ts[t].(status := TopupSuccessful)];
      ReservedDropsByCredit(ts[..n], t, fan, now);
    }
  }

  lemma CreditsArePositive(db: Db)
    requires TopupsOk(db)
    ensures forall t :: 0 <= t < |db.topups| ==> db.topups[t].credit > 0
  {
    forall t | 0 <= t < |db.topups| ensures db.topups[t].credit > 0 { assert TopupOk(db, t); }
  }

  /** Capturing a reserved order turns reservation into balance. */
  lemma CaptureKeepsExposure(db: Db, t: nat, fan: nat)
    requires MoneyInv(db) && fan < |db.bank.wallets| && t < |db.topups| && Counts(db.topups[t], fan, db.now)
    ensures var next := VerifyTopup(db, t).db; fan < |next.bank.wallets| && Exposure(next, fan) == Exposure(db, fan)
  {
    hide BankOk, EarningsOk, HasKey, ItemFlow, LegSum;
    assert TopupOk(db, t);
    TopupPosts(db, t);
    ReservedDropsByCredit(db.topups, t, fan, db.now);
  }

  lemma ReservedAppend(ts: seq<TopupOrder>, o: TopupOrder, fan: nat, now: int)
    ensures Reserved(ts + [o], fan, now) == Reserved(ts, fan, now) + if Counts(o, fan, now) then o.credit else 0
  {
    assert (ts + [o])[..|ts|] == ts;
  }

  /** Opening an order under the cap ends within it, or changes nothing. */
  lemma OpenKeepsExposure(db: Db, f: nat, credit: int, gst: nat, c: Option<int>, fan: nat, cap: int)
    requires fan < |db.bank.wallets| && cap != 0 && (f == fan ==> c == Some(cap))
    ensures var next := CreateTopup(db, f, credit, gst, c).db;
      fan < |next.bank.wallets| && Exposure(next, fan) <= Max(Exposure(db, fan), cap)
  {
    hide Reserved;
    ReservedAppend(db.topups, TopupOrder(f, credit, gst, credit + gst, TopupPending, db.now), fan, db.now);
  }

  /** No other step adds a pending order. */
  lemma OtherStepsOnlyDropReservations(db: Db, a: Action, fan: nat)
    requires TopupsOk(db) && !(a.OnMoney? && a.money.DoCreateTopup?)
    ensures var next := Step(db, a).db; Reserved(next.topups, fan, next.now) <= Reserved(db.topups, fan, db.now)
  {
    hide StepBooking, StepCall, StepMessage, StepShoutout, StepWorld, TopupsOk, Post, Reserved;
    CreditsArePositive(db);
    var next := Step(db, a).db;
    match a {
      case OnBooking(x) => BookingFrame(db, x);
      case OnCall(x) => CallFrame(db, x);
      case OnMessage(x) => MessageFrame(db, x);
      case OnShoutout(x) => ShoutoutFrame(db, x);
      case OnMoney(x) => MoneyFrame(db, x);
      case OnWorld(x) => WorldFrame(db, x);
    }
    ReservedOnlyDrops(db.topups, next.topups, fan, db.now, next.now);
  }

  lemma BalanceIsFlow(db: Db, fan: nat)
    requires MoneyInv(db) && fan < |db.bank.wallets|
    ensures db.bank.wallets[fan].balance == Flow(db.bank.ledger, OnWallet(fan))
  {
    assert WalletOk(db.bank.ledger, db.bank.wallets, fan);
  }

  lemma WalletsStay(db: Db, a: Action)
    requires Inv(db) && Allowed(db, a)
    ensures |Step(db, a).db.bank.wallets| >= |db.bank.wallets|
  {
    hide Inv, Step;
    StepKeepsInv(db, a);
  }

  /** One step raises the exposure above the cap by no more than it credits. */
  lemma StepExposure(db: Db, a: Action, fan: nat, cap: int)
    requires Inv(db) && Allowed(db, a) && fan < |db.bank.wallets| && cap != 0 && OpensUnder([a], fan, cap)
    ensures var next := Step(db, a).db;
      fan < |next.bank.wallets| && Exposure(next, fan) <= Max(Exposure(db, fan), cap) + Credited(db, a, fan)
  {
    hide CapacityOk, CallsOk, MessagesOk, ShoutoutRulesOk, BankOk, EarningsOk, TopupsOk, StepBooking, StepCall, StepMessage,
         StepShoutout, StepWorld, Reserved, CreateTopup, VerifyTopup, Counts;
    WalletsStay(db, a);
    if a.OnMoney? && a.money.DoCreateTopup? {
      assert [a][0] == a;
      OpenKeepsExposure(db, a.money.fan, a.money.credit, a.money.gst, a.money.cap, fan, cap);
    } else if CapturesReserved(db, a, fan) {
      CaptureKeepsExposure(db, a.money.order, fan);
    } else {
      OtherStepsOnlyDropReservations(db, a, fan);
      StepKeepsMoney(db, a);
      BalanceIsFlow(db, fan);
      BalanceIsFlow(Step(db, a).db, fan);
    }
  }

  /** However many checkouts a fan opens at once: balance plus unexpired pending credit
      never exceeds the cap by more than refunds, grants and late captures have credited
      during the run. Without any, it never exceeds the cap. */
  lemma {:induction false} RunKeepsCap(db: Db, actions: seq<Action>, fan: nat, cap: int)
    requires Inv(db) && AllowedRun(db, actions) && fan < |db.bank.wallets| && cap != 0
    requires Exposure(db, fan) <= cap && OpensUnder(actions, fan, cap)
    ensures var later := Run(db, actions); var extra := CreditedOver(db, actions, fan);
      fan < |later.bank.wallets| && Exposure(later, fan) <= cap + extra && later.bank.wallets[fan].balance <= cap + extra
  {
    RunExposure(db, actions, fan, cap, 0);
    hide Run, AllowedRun, Credited, CapacityOk, CallsOk, MessagesOk, ShoutoutRulesOk, BankOk, EarningsOk;
    RunKeepsInv(db, actions);
    var later := Run(db, actions);
    CreditsArePositive(later);
    ReservedOnlyDrops(later.topups, later.topups, fan, later.now, later.now);
  }

  lemma {:induction false} RunExposure(db: Db, actions: seq<Action>, fan: nat, cap: int, extra: nat)
    requires Inv(db) && AllowedRun(db, actions) && fan < |db.bank.wallets| && cap != 0
    requires Exposure(db, fan) <= cap + extra && OpensUnder(actions, fan, cap)
    ensures var later := Run(db, actions);
      fan < |later.bank.wallets| && Exposure(later, fan) <= cap + extra + CreditedOver(db, actions, fan)
    decreases |actions|
  {
    hide Inv, Step, Allowed, Exposure, Credited;
    if |actions| > 0 {
      var a := actions[0];
      StepKeepsInv(db, a);
      StepExposure(db, a, fan, cap);
      RunExposure(Step(db, a).db, actions[1..], fan, cap, extra + Credited(db, a, fan));
    }
  }

  // ── What can credit a fan at all ─────────────────────────────────────────

  /** Refunds, splits, goodwill grants and captures. */
  predicate MayCredit(a: Action) {
    match a
    case OnBooking(x) => x.DoRefund? || x.DoExpire? || x.DoResolvePartial? || x.DoAdminExpire?
    case OnMessage(x) => x.DoExpireWindow?
    case OnShoutout(x) => x.DoCancel? || x.DoResolve? || x.DoExpireShoutout?
    case OnMoney(x) => x.DoGrant? || x.DoVerify? || x.DoWebhook?
    case _ => false
  }

  lemma DebitLowersFlow(bank: Bank, t: Txn, fan: nat)
    requires LegSum(t.legs, OnWallet(fan)) <= 0 && Post(bank, t).Posted?
    ensures Flow(Post(bank, t).bank.ledger, OnWallet(fan)) <= Flow(bank.ledger, OnWallet(fan))
  {
    if !HasKey(bank.ledger, t.key) { FreshPost(bank, t); }
  }

  lemma PaymentCreditsNobody(db: Db, service: Item, partner: nat, key: Key, amount: int, fan: nat)
    ensures Flow(PayPartner(db, service, partner, key, amount).db.bank.ledger, OnWallet(fan))
         <= Flow(db.bank.ledger, OnWallet(fan))
  {
    PairSum(Plain(Escrow, -amount), Plain(PartnerPayable, amount));
    var t := Txn(key, amount, [Plain(Escrow, -amount), Plain(PartnerPayable, amount)]);
    if Post(db.bank, t).Posted? { DebitLowersFlow(db.bank, t, fan); }
  }

  lemma BookingCreditsNobody(db: Db, fan: nat, partner: nat, date: int, minutes: Minutes, quote: Option<Quote>, who: nat)
    ensures Flow(BookCall(db, fan, partner, date, minutes, quote).db.bank.ledger, OnWallet(who))
         <= Flow(db.bank.ledger, OnWallet(who))
  {
    hide Post, Flow;
    if quote.Some? {
      var t := BookTxn(|db.bookings|, fan, quote.value);
      BookTxnSum(|db.bookings|, fan, quote.value);
      if Post(db.bank, t).Posted? && quote.value.base - quote.value.discount > 0 { DebitLowersFlow(db.bank, t, who); }
    }
  }

  /** A debit of a positive amount from one wallet into escrow. */
  lemma HoldCreditsNobody(bank: Bank, key: Key, fan: nat, amount: int, who: nat)
    ensures var t := Txn(key, amount, [WalletLeg(fan, -amount), Plain(Escrow, amount)]);
      Post(bank, t).Posted? ==> Flow(Post(bank, t).bank.ledger, OnWallet(who)) <= Flow(bank.ledger, OnWallet(who))
  {
    var t := Txn(key, amount, [WalletLeg(fan, -amount), Plain(Escrow, amount)]);
    PairSum(WalletLeg(fan, -amount), Plain(Escrow, amount));
    if Post(bank, t).Posted? { DebitLowersFlow(bank, t, who); }
  }

  lemma AskCreditsNobody(db: Db, fan: nat, partner: nat, blocked: bool, price: Option<int>, who: nat)
    ensures Flow(AskQuestion(db, fan, partner, blocked, price).db.bank.ledger, OnWallet(who)) <= Flow(db.bank.ledger, OnWallet(who))
  {
    hide Post, Flow, FanMessages;
    var found := FindConversation(db.conversations, fan, partner);
    if found.Some? && price.Some? {
      HoldCreditsNobody(db.bank, Question(found.value, |db.conversations[found.value].windows|), fan, price.value, who);
    }
  }

  lemma ShoutoutCreditsNobody(db: Db, a: ShoutoutAction, who: nat)
    requires !MayCredit(OnShoutout(a))
    ensures Flow(StepShoutout(db, a).db.bank.ledger, OnWallet(who)) <= Flow(db.bank.ledger, OnWallet(who))
  {
    hide Post, Flow, CloseReports, CloseRounds, Fees, Earned, PayPartner;
    match a {
      case DoRequest(fan, _, _, price) => if price.Some? { HoldCreditsNobody(db.bank, Shout(|db.shoutouts|), fan, price.value, who); }
      case DoCorrect(_, s) =>
        if s < |db.shoutouts| {
          var r := db.shoutouts[s];
          HoldCreditsNobody(db.bank, ShoutCorrection(s, |r.corrections|), r.fan, db.settings.correctionFee, who);
        }
      case DoSettleShoutout(s) =>
        if s < |db.shoutouts| {
          var r := db.shoutouts[s];
          PaymentCreditsNobody(db, ShoutoutItem(s), r.partner, SettleShout(s), r.price + Fees(r.corrections), who);
        }
      case _ =>
    }
  }

  lemma ApprovalCreditsNobody(db: Db, p: nat, reference: string, who: nat)
    ensures Flow(ApprovePayout(db, p, reference).db.bank.ledger, OnWallet(who)) <= Flow(db.bank.ledger, OnWallet(who))
  {
    hide Post, Flow, NormaliseUtr, UtrTaken;
    if p < |db.payouts| {
      var amount := db.payouts[p].amount;
      PairSum(Plain(PartnerPayable, -amount), Plain(RazorpayClearing, amount));
      if Post(db.bank, PayoutTxn(p, amount)).Posted? { DebitLowersFlow(db.bank, PayoutTxn(p, amount), who); }
    }
  }

  /** Only refunds, splits, grants and captures ever credit a fan. */
  lemma OnlyRefundsGrantsAndCapturesCredit(db: Db, a: Action, fan: nat)
    requires Credited(db, a, fan) > 0
    ensures MayCredit(a)
  {
    hide Post, Flow;
    if !MayCredit(a) {
      match a {
        case OnBooking(x) =>
          match x {
            case DoBook(f, p, date, m, q) => BookingCreditsNobody(db, f, p, date, m, q, fan);
            case DoSettle(i) =>
              if i < |db.bookings| {
                PaymentCreditsNobody(db, BookingItem(i), db.bookings[i].partner, Settle(i), db.bookings[i].original, fan);
              }
            case _ =>
          }
        case OnCall(x) => CallFrame(db, x);
        case OnMessage(x) =>
          match x {
            case DoAsk(f, p, blocked, price) => AskCreditsNobody(db, f, p, blocked, price, fan);
            case DoSettleWindow(c, w) =>
              if HasWindow(db, c, w) {
                PaymentCreditsNobody(db, WindowItem(c, w), db.conversations[c].partner, SettleWindow(c, w),
                                     WindowAt(db, c, w).charge, fan);
              }
            case _ =>
          }
        case OnShoutout(x) => ShoutoutCreditsNobody(db, x, fan);
        case OnMoney(x) =>
          match x {
            case DoApprove(p, reference) => ApprovalCreditsNobody(db, p, reference, fan);
            case _ =>
          }
        case OnWorld(x) => WorldFrame(db, x);
      }
    }
  }

  /** A capture after its reservation lapsed is credited without a check: it stays
      under the cap exactly when the room was still there. */
  lemma LateCaptureExceedsIff(db: Db, t: nat, cap: int)
    requires MoneyInv(db) && t < |db.topups| && db.topups[t].status != TopupSuccessful
    requires !Counts(db.topups[t], db.topups[t].fan, db.now)
    ensures var fan := db.topups[t].fan; var next := VerifyTopup(db, t).db;
      && fan < |db.bank.wallets| == |next.bank.wallets|
      && (Exposure(next, fan) <= cap <==> Exposure(db, fan) + db.topups[t].credit <= cap)
  {
    hide BankOk, EarningsOk, HasKey, ItemFlow, LegSum;
    assert TopupOk(db, t);
    TopupPosts(db, t);
    ReservedIgnores(db.topups, t, db.topups[t].fan, db.now);
  }

  lemma {:induction false} ReservedIgnores(ts: seq<TopupOrder>, t: nat, fan: nat, now: int)
    requires t < |ts| && !Counts(ts[t], fan, now)
    ensures Reserved(ts[t := ts[t].(status := TopupSuccessful)], fan, now) == Reserved(ts, fan, now)
  {
    var n := |ts| - 1;
    var us := ts[t := ts[t].(status := TopupSuccessful)];
    if t == n {
      assert us[..n] == ts[..n];
    } else {
      assert us[..n] == ts[..n][t := ts[t].(status := TopupSuccessful)];
      ReservedIgnores(ts[..n], t, fan, now);
    }
  }
}
