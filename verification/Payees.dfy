/** Who is paid: over every run each earning is in the name of the partner whose
    service it is for, and so is the payout it ends in.
 */
module Payees {
  import opened Schema
  import opened Ledger
  import opened Tables
  import opened Bookings
  import opened Messages
  import opened Shoutouts
  import opened Payouts
  import opened Platform
  import opened MoneyInvariant
  import opened CallRules
  import opened MessageRules
  import opened ShoutoutRules
  import opened Capacity
  import opened History
  import opened Runs

  /** The partner who provides the service. */
  predicate Provides(db: Db, item: Item, partner: nat) {
    match item
    case BookingItem(i) => i < |db.bookings| && db.bookings[i].partner == partner
    case WindowItem(c, _) => c < |db.conversations| && db.conversations[c].partner == partner
    case ShoutoutItem(s) => s < |db.shoutouts| && db.shoutouts[s].partner == partner
    case _ => false
  }

  ghost predicate PayeesOk(db: Db) {
    forall j :: 0 <= j < |db.earnings| ==> Provides(db, db.earnings[j].service, db.earnings[j].partner)
  }

  /** The rows a step adds are in the name of the service's partner. */
  ghost predicate NewPayeesOk(db: Db, next: Db) {
    && |db.earnings| <= |next.earnings|
    && forall j :: |db.earnings| <= j < |next.earnings| ==> Provides(db, next.earnings[j].service, next.earnings[j].partner)
  }

  lemma PayPartnerNames(db: Db, service: Item, partner: nat, key: Key, amount: int)
    requires Provides(db, service, partner)
    ensures NewPayeesOk(db, PayPartner(db, service, partner, key, amount).db)
  {
    hide Post;
  }

  lemma BookingPayees(db: Db, a: BookingAction)
    ensures NewPayeesOk(db, StepBooking(db, a).db)
  {
    hide PayPartner, NewPayeesOk, Earned, OpenCallReport, Classify, Unwind, BookCall;
    SamePayees(db, db);
    match a {
      case DoSettle(i) =>
        if i < |db.bookings| { PayPartnerNames(db, BookingItem(i), db.bookings[i].partner, Settle(i), db.bookings[i].original); }
      case DoResolvePartial(i, share, refund) =>
        if i < |db.bookings| {
          PayPartnerNames(db, BookingItem(i), db.bookings[i].partner, PartialSettle(i), share);
          ResolveEarnings(db, i, share, refund);
        }
      case DoBook(f, p, date, m, q) => BookEarnings(db, f, p, date, m, q); SamePayees(db, StepBooking(db, a).db);
      case DoRefund(i) => if i < |db.bookings| { UnwindEarnings(db, i, Refund(i), CancelledByFan); }
        SamePayees(db, StepBooking(db, a).db);
      case DoExpire(i) => if i < |db.bookings| { UnwindEarnings(db, i, Expire(i), Classify(db.bookings[i])); }
        SamePayees(db, StepBooking(db, a).db);
      case DoAdminExpire(i, s) => if i < |db.bookings| { UnwindEarnings(db, i, AdminExpire(i), s); }
        SamePayees(db, StepBooking(db, a).db);
      case _ => SamePayees(db, StepBooking(db, a).db);
    }
  }

  lemma SamePayees(db: Db, next: Db)
    requires next.earnings == db.earnings
    ensures NewPayeesOk(db, next)
  {
  }

  lemma BookEarnings(db: Db, fan: nat, partner: nat, date: int, minutes: Minutes, quote: Option<Quote>)
    ensures BookCall(db, fan, partner, date, minutes, quote).db.earnings == db.earnings
  {
    hide Post;
  }

  lemma UnwindEarnings(db: Db, id: nat, key: Key, status: BookingStatus)
    requires id < |db.bookings|
    ensures Unwind(db, id, key, status).db.earnings == db.earnings
  {
    hide Post;
  }

  lemma ResolveEarnings(db: Db, id: nat, share: int, refund: int)
    requires id < |db.bookings|
    requires NewPayeesOk(db, PayPartner(db, BookingItem(id), db.bookings[id].partner, PartialSettle(id), share).db)
    ensures NewPayeesOk(db, ResolvePartial(db, id, share, refund).db)
  {
    hide Post, PayPartner, Earned;
  }

  lemma MessagePayees(db: Db, a: MessageAction)
    ensures NewPayeesOk(db, StepMessage(db, a).db)
  {
    hide Post, PayPartner, Earned, OpenReportOn, FindConversation, NewestOpen, NewestReplyable, FanMessages;
    if a.DoSettleWindow? && HasWindow(db, a.conversation, a.window) {
      var c, w := a.conversation, a.window;
      PayPartnerNames(db, WindowItem(c, w), db.conversations[c].partner, SettleWindow(c, w), WindowAt(db, c, w).charge);
    }
  }

  lemma ShoutoutPayees(db: Db, a: ShoutoutAction)
    ensures NewPayeesOk(db, StepShoutout(db, a).db)
  {
    hide Post, PayPartner, Earned, Fees, CloseReports, CloseRounds, HasKey;
    if a.DoSettleShoutout? && a.shoutout < |db.shoutouts| {
      var r := db.shoutouts[a.shoutout];
      PayPartnerNames(db, ShoutoutItem(a.shoutout), r.partner, SettleShout(a.shoutout), r.price + Fees(r.corrections));
    }
  }

  lemma StepPayees(db: Db, a: Action)
    ensures NewPayeesOk(db, Step(db, a).db)
  {
    hide StepBooking, StepCall, StepMessage, StepShoutout, StepMoney, StepWorld;
    match a {
      case OnBooking(x) => BookingPayees(db, x);
      case OnCall(x) => CallFrame(db, x);
      case OnMessage(x) => MessagePayees(db, x);
      case OnShoutout(x) => ShoutoutPayees(db, x);
      case OnMoney(x) => MoneyEarnings(db, x);
      case OnWorld(x) => WorldFrame(db, x);
    }
  }

  lemma MoneyEarnings(db: Db, a: MoneyAction)
    ensures |StepMoney(db, a).db.earnings| == |db.earnings|
  {
    hide Post, PendingFor, Reserved, NormaliseUtr, UtrTaken;
  }

  lemma StepKeepsPayees(db: Db, a: Action)
    requires Inv(db) && PayeesOk(db) && Allowed(db, a)
    ensures PayeesOk(Step(db, a).db)
  {
    StepKeepsInv(db, a);
    StepPayees(db, a);
    hide Inv, Step;
    var next := Step(db, a).db;
    forall j | 0 <= j < |next.earnings| ensures Provides(next, next.earnings[j].service, next.earnings[j].partner) {
      if j < |db.earnings| { assert EarningEvolves(db.earnings[j], next.earnings[j]); }
      PartiesStay(db, next, next.earnings[j].service, next.earnings[j].partner);
    }
  }

  /** Nobody's service changes hands. */
  lemma PartiesStay(db: Db, next: Db, item: Item, partner: nat)
    requires Evolves(db, next) && Provides(db, item, partner)
    ensures Provides(next, item, partner)
  {
    hide Earned;
    match item {
      case BookingItem(i) => assert BookingEvolves(db.bookings[i], next.bookings[i], Earned(db, item));
      case WindowItem(c, _) => assert ConversationEvolves(db.conversations[c], next.conversations[c]);
      case ShoutoutItem(s) => assert ShoutoutMoves(db.shoutouts[s], next.shoutouts[s], Earned(db, item));
      case _ =>
    }
  }

  lemma {:induction false} RunKeepsPayees(db: Db, actions: seq<Action>)
    requires Inv(db) && PayeesOk(db) && AllowedRun(db, actions)
    ensures PayeesOk(Run(db, actions))
    decreases |actions|
  {
    hide Inv, Step, PayeesOk;
    if |actions| > 0 {
      StepKeepsInv(db, actions[0]);
      StepKeepsPayees(db, actions[0]);
      RunKeepsPayees(Step(db, actions[0]).db, actions[1..]);
    }
  }

  /** In every reachable state an earning is the service's own partner's, and a payout
      that names it goes to that partner. */
  lemma PartnersArePaidForTheirOwn(db: Db, j: nat)
    requires Reachable(db) && j < |db.earnings|
    ensures var e := db.earnings[j];
      && Provides(db, e.service, e.partner)
      && (e.payout.Some? ==> e.payout.value < |db.payouts| && Provides(db, e.service, db.payouts[e.payout.value].partner))
  {
    hide Inv, AllowedRun, Run;
    var settings, actions :| AllowedRun(EmptyDb(settings), actions) && db == Run(EmptyDb(settings), actions);
    EmptyIsOk(settings);
    assert PayeesOk(EmptyDb(settings));
    RunKeepsPayees(EmptyDb(settings), actions);
    RunKeepsInv(EmptyDb(settings), actions);
    NamedByItsPayout(db, j);
  }

  lemma NamedByItsPayout(db: Db, j: nat)
    requires Inv(db) && j < |db.earnings|
    ensures var e := db.earnings[j];
      e.payout.Some? ==> e.payout.value < |db.payouts| && db.payouts[e.payout.value].partner == e.partner
  {
    hide BankOk, HasKey, ItemFlow, CapacityOk, CallsOk, MessagesOk, ShoutoutRulesOk;
    assert EarningOk(db, j);
  }
}
