/** What every reachable state promises about one service, and what no later state
    can change.
 */
module Guarantees {
  import opened Schema
  import opened Ledger
  import opened Tables
  import opened Bookings
  import opened Calls
  import opened Messages
  import opened Shoutouts
  import opened Payouts
  import opened Platform
  import opened MoneyInvariant
  import opened MoneyFrames
  import opened BookingMoney
  import opened Capacity
  import opened CallRules
  import opened MessageRules
  import opened ShoutoutRules
  import opened History
  import opened Runs

  // ── Exactly once ─────────────────────────────────────────────────────────

  lemma {:induction false} PaidBySomeEarning(es: seq<Earning>, service: Item)
    requires PaidFor(es, service).Some?
    ensures exists j :: 0 <= j < |es| && es[j].service == service && PaidFor(es, service) == Some(es[j].amount)
  {
    var init := es[..|es| - 1];
    if PaidFor(init, service).Some? {
      PaidBySomeEarning(init, service);
      var j :| 0 <= j < |init| && init[j].service == service && PaidFor(init, service) == Some(init[j].amount);
      assert es[j].service == service;
    } else {
      assert es[|es| - 1].service == service;
    }
  }

  /** What escrow holds for one service, from the ledger. */
  function EscrowOf(db: Db, service: Item): int { ItemFlow(db.bank.ledger, service, OnAccount(Escrow)) }

  /** At most one of a service's earning keys is ever spent. */
  lemma OneEarningKey(db: Db, service: Item, k: Key, l: Key)
    requires MoneyInv(db) && Pays(k, service) && Pays(l, service)
    requires HasKey(db.bank.ledger, k) && HasKey(db.bank.ledger, l)
    ensures k == l && Earned(db, service)
  {
    hide BankOk, EarningsOk, HasKey, ItemFlow;
    assert ItemExists(db, Owner(k));
    match service {
      case BookingItem(i) => assert BookingOk(db, i);
      case WindowItem(c, w) => assert WindowOk(db, c, w);
      case ShoutoutItem(s) => assert ShoutoutOk(db, s);
      case _ =>
    }
  }

  /** The one transaction that pays a service carries the earning's amount. */
  lemma EarningMatchesItsTransaction(db: Db, service: Item)
    requires MoneyInv(db) && Earned(db, service)
    ensures exists t :: 0 <= t < |db.bank.ledger| && Pays(db.bank.ledger[t].key, service)
              && PaidFor(db.earnings, service) == Some(db.bank.ledger[t].amount)
  {
    PaidBySomeEarning(db.earnings, service);
    var j :| 0 <= j < |db.earnings| && db.earnings[j].service == service
             && PaidFor(db.earnings, service) == Some(db.earnings[j].amount);
    assert EarningOk(db, j);
  }

  /** Exactly-once payment. Whatever sweeps ran, from however stale lists: a service
      has at most one earning; it has one exactly when one of its settle keys is in
      the ledger; that key occurs once, with the earning's amount; and the escrow of
      the service never went below zero. */
  lemma PaidExactlyOnce(db: Db, service: Item)
    requires Reachable(db)
    ensures forall i, j :: 0 <= i < j < |db.earnings| ==> db.earnings[i].service != db.earnings[j].service
    ensures Earned(db, service) <==> exists k :: Pays(k, service) && HasKey(db.bank.ledger, k)
    ensures forall t, u :: 0 <= t < u < |db.bank.ledger| && Pays(db.bank.ledger[t].key, service) ==>
              !Pays(db.bank.ledger[u].key, service)
    ensures forall t :: 0 <= t < |db.bank.ledger| && Pays(db.bank.ledger[t].key, service) ==>
              PaidFor(db.earnings, service) == Some(db.bank.ledger[t].amount)
    ensures EscrowOf(db, service) >= 0
  {
    hide Reachable, MoneyInv;
    ReachableIsOk(db);
    assert MoneyInv(db) && ServicesDistinct(db.earnings) by { InvParts(db); }
    hide Inv;
    KeysPayOnce(db, service);
    EscrowIsNonnegative(db, service);
  }

  lemma InvParts(db: Db)
    requires Inv(db)
    ensures MoneyInv(db) && ServicesDistinct(db.earnings)
  {
  }

  lemma KeysPayOnce(db: Db, service: Item)
    requires MoneyInv(db)
    ensures Earned(db, service) <==> exists k :: Pays(k, service) && HasKey(db.bank.ledger, k)
    ensures forall t, u :: 0 <= t < u < |db.bank.ledger| && Pays(db.bank.ledger[t].key, service) ==>
              !Pays(db.bank.ledger[u].key, service)
    ensures forall t :: 0 <= t < |db.bank.ledger| && Pays(db.bank.ledger[t].key, service) ==>
              PaidFor(db.earnings, service) == Some(db.bank.ledger[t].amount)
  {
    assert UniqueKeys(db.bank.ledger) by { assert BankOk(db.bank); }
    hide MoneyInv, PaidFor, Pays, HasKey;
    var ledger := db.bank.ledger;
    if Earned(db, service) {
      EarningMatchesItsTransaction(db, service);
      var t :| 0 <= t < |ledger| && Pays(ledger[t].key, service)
               && PaidFor(db.earnings, service) == Some(ledger[t].amount);
      KeyIsHeld(ledger, t);
    }
    if k :| Pays(k, service) && HasKey(ledger, k) { OneEarningKey(db, service, k, k); }
    forall t, u | 0 <= t < |ledger| && 0 <= u < |ledger| && Pays(ledger[t].key, service) && Pays(ledger[u].key, service)
      ensures t == u && Earned(db, service)
    {
      KeyIsHeld(ledger, t);
      KeyIsHeld(ledger, u);
      OneEarningKey(db, service, ledger[t].key, ledger[u].key);
    }
  }

  lemma KeyIsHeld(ledger: seq<Txn>, t: nat)
    requires t < |ledger|
    ensures HasKey(ledger, ledger[t].key)
  {
  }

  lemma EscrowIsNonnegative(db: Db, service: Item)
    requires MoneyInv(db)
    ensures EscrowOf(db, service) >= 0
  {
    hide BankOk, EarningsOk, HasKey, ItemFlow;
    if !ItemExists(db, service) { FreshItem(db, service); }
    else {
      match service {
        case BookingItem(i) => assert BookingOk(db, i);
        case WindowItem(c, w) => assert WindowOk(db, c, w);
        case ShoutoutItem(s) => assert ShoutoutOk(db, s); FeesNonnegativeOf(db, s);
        case TopupItem(t) => assert TopupOk(db, t);
        case PayoutItem(p) => assert PayoutOk(db, p);
        case GrantItem(g) =>
      }
    }
  }

  lemma FeesNonnegativeOf(db: Db, s: nat)
    requires s < |db.shoutouts| && ShoutoutOk(db, s)
    ensures Fees(db.shoutouts[s].corrections) >= 0
  {
    ShoutoutMoney.FeesNonnegative(db.shoutouts[s].corrections);
  }

  /** A payment is final: in every later state of the run the earning has the same
      amount, the service's row keeps its outcome, and its escrow is empty. */
  lemma PaymentIsFinal(db: Db, actions: seq<Action>, service: Item)
    requires Reachable(db) && AllowedRun(db, actions) && Earned(db, service)
    ensures var later := Run(db, actions);
      && PaidFor(later.earnings, service) == PaidFor(db.earnings, service)
      && EscrowOf(later, service) == 0
      && (service.BookingItem? ==> service.booking < |later.bookings| && later.bookings[service.booking].status == Completed)
      && (service.ShoutoutItem? ==> service.shoutout < |db.shoutouts| <= |later.shoutouts|
                                    && later.shoutouts[service.shoutout] == db.shoutouts[service.shoutout])
  {
    hide Reachable, AllowedRun, Run, MoneyInv, CapacityOk, CallsOk, MessagesOk, ShoutoutRulesOk;
    ReachableIsOk(db);
    RunKeepsInv(db, actions);
    RunEvolves(db, actions);
    var later := Run(db, actions);
    hide Inv;
    EarnedStays(db, later);
    PaidRow(db, service);
    PaidRow(later, service);
    hide BookingsEvolve, ConversationsEvolve, EarningsEvolve, PayoutsEvolve, TopupsEvolve;
    if service.ShoutoutItem? {
      var s := service.shoutout;
      assert ShoutoutMoves(db.shoutouts[s], later.shoutouts[s], Earned(db, ShoutoutItem(s)));
    }
  }

  lemma PaidRow(db: Db, service: Item)
    requires MoneyInv(db) && Earned(db, service)
    ensures ItemExists(db, service) && EscrowOf(db, service) == 0
    ensures service.BookingItem? ==> db.bookings[service.booking].status == Completed
  {
    hide BankOk, EarningsOk, HasKey, ItemFlow;
    EarnedServiceExists(db, service);
    match service {
      case BookingItem(i) => assert BookingOk(db, i);
      case WindowItem(c, w) => assert WindowOk(db, c, w);
      case ShoutoutItem(s) => assert ShoutoutOk(db, s);
      case _ =>
    }
  }

  lemma EarnedServiceExists(db: Db, service: Item)
    requires MoneyInv(db) && Earned(db, service)
    ensures ItemExists(db, service) && (service.BookingItem? || service.WindowItem? || service.ShoutoutItem?)
  {
    EarningMatchesItsTransaction(db, service);
    var t :| 0 <= t < |db.bank.ledger| && Pays(db.bank.ledger[t].key, service)
             && PaidFor(db.earnings, service) == Some(db.bank.ledger[t].amount);
    assert HasKey(db.bank.ledger, db.bank.ledger[t].key);
  }

  // ── Unwinding a booking is an inverse ────────────────────────────────────

  /** An unwound booking has moved nothing on balance: not on any wallet, not on
      escrow, not on promotions, nor any other account. It is final. */
  lemma UnwoundBookingIsNeutral(db: Db, actions: seq<Action>, i: nat)
    requires Reachable(db) && AllowedRun(db, actions)
    requires i < |db.bookings| && IsUnwound(db.bookings[i].status)
    ensures var later := Run(db, actions);
      && i < |later.bookings| && later.bookings[i].status == db.bookings[i].status
      && (forall sel :: ItemFlow(later.bank.ledger, BookingItem(i), sel) == 0)
      && !Earned(later, BookingItem(i))
  {
    hide Reachable, AllowedRun, Run;
    ReachableIsOk(db);
    RunKeepsInv(db, actions);
    RunEvolves(db, actions);
    var later := Run(db, actions);
    hide HasKey, ItemFlow, CapacityOk, CallsOk, MessagesOk, ShoutoutRulesOk, MoneyInv, ConversationsEvolve, AllMove,
         EarningsEvolve, PayoutsEvolve, TopupsEvolve;
    assert BookingEvolves(db.bookings[i], later.bookings[i], Earned(db, BookingItem(i)));
    UnwoundRowIsNeutral(later, i);
  }

  lemma UnwoundRowIsNeutral(db: Db, i: nat)
    requires MoneyInv(db) && i < |db.bookings| && IsUnwound(db.bookings[i].status)
    ensures forall sel :: ItemFlow(db.bank.ledger, BookingItem(i), sel) == 0
    ensures !Earned(db, BookingItem(i))
  {
    hide BankOk, EarningsOk, HasKey, ItemFlow;
    assert BookingOk(db, i);
  }

  /** A settled booking has cost the fan its price and the platform the discount,
      and the partner is owed the list price. */
  lemma SettledBookingNets(db: Db, i: nat)
    requires Reachable(db) && i < |db.bookings| && HasKey(db.bank.ledger, Settle(i))
    ensures var b := db.bookings[i]; var ledger := db.bank.ledger; var me := BookingItem(i);
      && ItemFlow(ledger, me, OnWallet(b.fan)) == -b.price
      && ItemFlow(ledger, me, OnAccount(PromoIncentive)) == -b.discount
      && ItemFlow(ledger, me, OnAccount(PartnerPayable)) == b.original == b.price + b.discount
      && ItemFlow(ledger, me, OnAccount(Escrow)) == 0
      && PaidFor(db.earnings, me) == Some(b.original) && b.status == Completed
  {
    hide Reachable, AllowedRun, Run, BankOk, EarningsOk, HasKey, ItemFlow, PaidFor, CapacityOk, CallsOk, MessagesOk,
         ShoutoutRulesOk;
    ReachableIsOk(db);
    assert BookingOk(db, i);
  }

  /** With nothing else touching the wallet in between, booking and then unwinding
      restores the balance and leaves the bonus at min(bonus, balance - price). */
  lemma UnwindingRestoresTheWallet(w: Wallet, fan: nat, price: int)
    requires 0 <= w.bonus <= w.balance && 0 < price && MoveWallet(w, WalletLeg(fan, -price)).Some?
    ensures MoveWallet(MoveWallet(w, WalletLeg(fan, -price)).value, WalletLeg(fan, price)) == Some(Restored(w, price))
  {
  }

  /** The booking is still BOOKED at its price and its fan's wallet is as booking left
      it. Its call attempts and ready signal may be anything. */
  predicate LeftAlone(made: Db, mid: Db, id: nat, fan: nat) {
    && id < |made.bookings| && id < |mid.bookings|
    && (var b, c := made.bookings[id], mid.bookings[id];
        c.fan == b.fan && c.price == b.price && c.original == b.original && c.discount == b.discount && c.status == b.status)
    && fan < |made.bank.wallets| && fan < |mid.bank.wallets| && mid.bank.wallets[fan] == made.bank.wallets[fan]
  }

  /** The wallet as it was before a booking at this price was made and unwound. */
  function Restored(before: Wallet, price: int): Wallet {
    Wallet(before.balance, Min(before.bonus, before.balance - price))
  }

  /** The same for the calls themselves: other steps may happen in between as long as
      this fan's wallet and this booking are left alone. */
  lemma BookThenUnwind(db: Db, mid: Db, fan: nat, partner: nat, date: int, minutes: Minutes, quote: Option<Quote>,
                       key: Key, status: BookingStatus)
    requires MoneyInv(db) && MoneyInv(mid) && key in {Refund(|db.bookings|), Expire(|db.bookings|)}
    requires BookCall(db, fan, partner, date, minutes, quote).reply == Done
    requires LeftAlone(BookCall(db, fan, partner, date, minutes, quote).db, mid, |db.bookings|, fan)
    ensures var out := Unwind(mid, |db.bookings|, key, status);
      && out.reply == Done && fan < |db.bank.wallets| && fan < |out.db.bank.wallets|
      && out.db.bank.wallets[fan] == Restored(db.bank.wallets[fan], mid.bookings[|db.bookings|].price)
  {
    hide BankOk, EarningsOk, HasKey, ItemFlow, Post, Unwind, MoveWallet, Restored;
    var id := |db.bookings|;
    assert BookingOk(mid, id);
    WalletInBounds(db, fan);
    BookedWallet(db, fan, quote.value);
    UnwindingRestoresTheWallet(db.bank.wallets[fan], fan, mid.bookings[id].price);
    UnwoundWallet(mid, id, key, status);
  }

  lemma BookThenRefund(db: Db, mid: Db, fan: nat, partner: nat, date: int, minutes: Minutes, quote: Option<Quote>)
    requires MoneyInv(db) && MoneyInv(mid) && BookCall(db, fan, partner, date, minutes, quote).reply == Done
    requires LeftAlone(BookCall(db, fan, partner, date, minutes, quote).db, mid, |db.bookings|, fan)
    requires mid.now <= mid.bookings[|db.bookings|].settleAt
    ensures var out := RefundBooking(mid, |db.bookings|);
      && out.reply == Done && fan < |db.bank.wallets| && fan < |out.db.bank.wallets|
      && out.db.bank.wallets[fan] == Restored(db.bank.wallets[fan], mid.bookings[|db.bookings|].price)
  {
    hide MoneyInv, Unwind, Post, Restored;
    BookThenUnwind(db, mid, fan, partner, date, minutes, quote, Refund(|db.bookings|), CancelledByFan);
  }

  lemma BookThenExpire(db: Db, mid: Db, fan: nat, partner: nat, date: int, minutes: Minutes, quote: Option<Quote>)
    requires MoneyInv(db) && MoneyInv(mid) && BookCall(db, fan, partner, date, minutes, quote).reply == Done
    requires LeftAlone(BookCall(db, fan, partner, date, minutes, quote).db, mid, |db.bookings|, fan)
    requires DueForExpiry(mid, |db.bookings|) && IsExpired(Classify(mid.bookings[|db.bookings|]))
    ensures var out := ExpireBooking(mid, |db.bookings|);
      && out.reply == Done && fan < |db.bank.wallets| && fan < |out.db.bank.wallets|
      && out.db.bank.wallets[fan] == Restored(db.bank.wallets[fan], mid.bookings[|db.bookings|].price)
  {
    hide MoneyInv, Unwind, Post, Classify, Restored;
    var id := |db.bookings|;
    BookThenUnwind(db, mid, fan, partner, date, minutes, quote, Expire(id), Classify(mid.bookings[id]));
  }

  /** The same over every run that leaves the fan's wallet as booking left it: the
      booking ends refunded or expired with the wallet restored, whatever calls were
      rung, missed or joined meanwhile. */
  lemma UnwindAfterAnyRun(db: Db, fan: nat, partner: nat, date: int, minutes: Minutes, quote: Option<Quote>, actions: seq<Action>)
    requires Reachable(db) && BookCall(db, fan, partner, date, minutes, quote).reply == Done
    requires var made := BookCall(db, fan, partner, date, minutes, quote).db;
      && AllowedRun(made, actions) && fan < |made.bank.wallets|
      && (fan < |Run(made, actions).bank.wallets| ==> Run(made, actions).bank.wallets[fan] == made.bank.wallets[fan])
    ensures var id := |db.bookings|; var later := Run(BookCall(db, fan, partner, date, minutes, quote).db, actions);
      && quote.Some? && fan < |db.bank.wallets| && id < |later.bookings|
      && var after := Restored(db.bank.wallets[fan], quote.value.base - quote.value.discount);
         && (later.bookings[id].status == Booked && later.now <= later.bookings[id].settleAt ==>
               EndsWith(RefundBooking(later, id), fan, after))
         && (DueForExpiry(later, id) && IsExpired(Classify(later.bookings[id])) ==>
               EndsWith(ExpireBooking(later, id), fan, after))
  {
    hide Reachable, AllowedRun, Run, Classify, Restored, MoneyInv, CapacityOk, CallsOk, MessagesOk, ShoutoutRulesOk, Post,
         ConversationsEvolve, AllMove, EarningsEvolve, PayoutsEvolve, TopupsEvolve, RefundBooking, ExpireBooking;
    var made := BookCall(db, fan, partner, date, minutes, quote).db;
    var id := |db.bookings|;
    ReachableIsOk(db);
    StepKeepsInv(db, OnBooking(DoBook(fan, partner, date, minutes, quote)));
    RunKeepsInv(made, actions);
    RunEvolves(made, actions);
    var later := Run(made, actions);
    assert BookingEvolves(made.bookings[id], later.bookings[id], Earned(made, BookingItem(id)));
    if later.bookings[id].status == Booked {
      assert LeftAlone(made, later, id, fan);
      if later.now <= later.bookings[id].settleAt { BookThenRefund(db, later, fan, partner, date, minutes, quote); }
      if DueForExpiry(later, id) && IsExpired(Classify(later.bookings[id])) {
        BookThenExpire(db, later, fan, partner, date, minutes, quote);
      }
    }
  }

  predicate EndsWith(out: Out, fan: nat, w: Wallet) {
    out.reply == Done && fan < |out.db.bank.wallets| && out.db.bank.wallets[fan] == w
  }

  lemma WalletInBounds(db: Db, w: nat)
    requires BankOk(db.bank) && w < |db.bank.wallets|
    ensures 0 <= db.bank.wallets[w].bonus <= db.bank.wallets[w].balance
  {
    assert WalletOk(db.bank.ledger, db.bank.wallets, w);
  }

  /** A first post is made by moving the wallets leg by leg. */
  lemma BookedWallet(db: Db, fan: nat, q: Quote)
    requires fan < |db.bank.wallets| && Post(db.bank, BookTxn(|db.bookings|, fan, q)).Posted?
    requires MoneyInv(db)
    ensures var bank := Post(db.bank, BookTxn(|db.bookings|, fan, q)).bank;
      MoveWallet(db.bank.wallets[fan], WalletLeg(fan, -(q.base - q.discount))) == Some(bank.wallets[fan])
  {
    hide BankOk, ItemFlow, EarningsOk, BookingsOk, WindowsOk, ShoutoutsOk, TopupsOk, PayoutsOk, GrantsOk;
    var id := |db.bookings|;
    FreshItem(db, BookingItem(id));
    assert Owner(Book(id)) == BookingItem(id);
    FirstLegMoves(db.bank.wallets, WalletLeg(fan, -(q.base - q.discount)), Plain(Escrow, q.base), Plain(PromoIncentive, -q.discount));
  }

  lemma FirstLegMoves(ws: seq<Wallet>, x: Leg, y: Leg, z: Leg)
    requires x.wallet.Some? && x.wallet.value < |ws| && y.wallet.None? && z.wallet.None?
    ensures ApplyLegs(ws, [x, y]) == ApplyLeg(ws, x) && ApplyLegs(ws, [x, y, z]) == ApplyLeg(ws, x)
    ensures ApplyLegs(ws, [y, x]) == ApplyLeg(ws, x) && ApplyLegs(ws, [y, x, z]) == ApplyLeg(ws, x)
  {
    assert [x, y, z][..2] == [x, y] && [x, y][..1] == [x] && [x][..0] == [];
    assert [y, x, z][..2] == [y, x] && [y, x][..1] == [y] && [y][..0] == [];
    assert ApplyLegs(ws, [x]) == ApplyLeg(ws, x) && ApplyLegs(ws, [y]) == Some(ws);
  }

  lemma UnwoundWallet(db: Db, id: nat, key: Key, status: BookingStatus)
    requires id < |db.bookings| && BookingOk(db, id) && BankOk(db.bank)
    requires db.bookings[id].status == Booked && key in {Refund(id), Expire(id)}
    ensures var b := db.bookings[id]; var out := Unwind(db, id, key, status);
      && out.reply == Done && b.fan < |db.bank.wallets| && b.fan < |out.db.bank.wallets|
      && Some(out.db.bank.wallets[b.fan]) == MoveWallet(db.bank.wallets[b.fan], WalletLeg(b.fan, b.price))
  {
    hide BankOk, ItemFlow, HasKey, LegSum, PaidFor;
    var b := db.bookings[id];
    UnwindSucceeds(db, id, key);
    FirstLegMoves(db.bank.wallets, WalletLeg(b.fan, b.price), Plain(Escrow, -b.original), Plain(PromoIncentive, b.discount));
  }

  // ── No pay without a call ────────────────────────────────────────────────

  /** A partner is paid for a booking only if some call completed, some call lasted
      the booked time, or an admin decided. */
  lemma NoPayWithoutACall(db: Db, i: nat)
    requires Reachable(db) && Earned(db, BookingItem(i))
    ensures i < |db.bookings| && Deserved(db, i)
  {
    hide Reachable, AllowedRun, Run;
    ReachableIsOk(db);
    hide BankOk, EarningsOk, HasKey, ItemFlow, CapacityOk, MessagesOk, ShoutoutRulesOk;
    EarnedServiceExists(db, BookingItem(i));
    assert BookingOk(db, i);
  }

  /** A BOOKED booking has no completed call, and no call step brings an unwound
      booking back, whatever its attempts do. */
  lemma CallsRespectTheOutcome(db: Db, a: CallAction, i: nat)
    requires Reachable(db) && i < |db.bookings|
    ensures db.bookings[i].status == Booked ==> !AnyCall(db.bookings[i].calls, CallCompleted)
    ensures i < |StepCall(db, a).db.bookings|
    ensures db.bookings[i].status != Booked ==> StepCall(db, a).db.bookings[i].status == db.bookings[i].status
  {
    hide Reachable, AllowedRun, Run;
    ReachableIsOk(db);
    hide MoneyInv, CapacityOk, MessagesOk, ShoutoutRulesOk, StepCall, Moves;
    assert AttemptsOk(db.bookings[i], db.now);
    StepMovesRows(db, a);
    assert RowMoves(db.bookings[i], StepCall(db, a).db.bookings[i], db.now);
  }

  /** The deadline of a live call is fixed, and an ended attempt is final, over any
      number of rejoins, heartbeats and sweeps. The deadline is the start plus the
      booked time less what other attempts had delivered when the call started; it is
      start plus booked minutes in full when none had. */
  lemma CallsAreFinal(db: Db, actions: seq<Action>, i: nat, k: nat)
    requires Reachable(db) && AllowedRun(db, actions) && i < |db.bookings| && k < |db.bookings[i].calls|
    ensures var later := Run(db, actions);
      && i < |later.bookings| && k < |later.bookings[i].calls|
      && var x, y := db.bookings[i].calls[k], later.bookings[i].calls[k];
         && (x.status == InProgress ==>
               && y.startedAt == x.startedAt && y.deadline == x.deadline
               && x.startedAt.Some? && x.deadline.Some?
               && x.startedAt.value <= x.deadline.value <= x.startedAt.value + db.bookings[i].minutes * 60)
         && (IsTerminal(x.status) ==>
               y.status == x.status && y.startedAt == x.startedAt && y.endedAt == x.endedAt && y.deadline == x.deadline)
         && DeadlineOk(later.bookings[i], k)
  {
    hide Reachable, AllowedRun, Run;
    ReachableIsOk(db);
    RunKeepsInv(db, actions);
    RunEvolves(db, actions);
    hide MoneyInv, CapacityOk, MessagesOk, ShoutoutRulesOk, DeadlineOk;
    assert AttemptsOk(db.bookings[i], db.now);
    assert CallOk(db.bookings[i].calls[k], db.now, db.bookings[i].minutes * 60);
    var later := Run(db, actions);
    assert AttemptsOk(later.bookings[i], later.now);
    assert BookingEvolves(db.bookings[i], later.bookings[i], Earned(db, BookingItem(i)));
    assert CallEvolves(db.bookings[i].calls[k], later.bookings[i].calls[k]);
  }

  /** From the join on, in every later state of the run, the deadline is exactly the
      moment of joining plus the time that was left then; and that is the booked time
      in full if and only if no other attempt had delivered any. */
  lemma JoinFixesTheDeadline(db: Db, actions: seq<Action>, i: nat, k: nat)
    requires Reachable(db) && i < |db.bookings| && AllowedRun(JoinCall(db, i).db, actions)
    requires LatestActive(db.bookings[i].calls) == Some(k) && db.bookings[i].calls[k].status == PartnerInitiated
    ensures var b := db.bookings[i]; var later := Run(JoinCall(db, i).db, actions);
      && i < |later.bookings| && k < |later.bookings[i].calls|
      && var y := later.bookings[i].calls[k];
         && y.startedAt == Some(db.now)
         && y.deadline == Some(db.now + Max(0, b.minutes * 60 - ConsumedSeconds(b.calls, k)))
         && (y.deadline == Some(db.now + b.minutes * 60) <==> !OthersDelivered(b.calls, k))
  {
    hide Reachable, AllowedRun, Run, MoneyInv, CapacityOk, MessagesOk, ShoutoutRulesOk, OthersDelivered, ConsumedSeconds;
    ReachableIsOk(db);
    assert AttemptsOk(db.bookings[i], db.now);
    JoinGrantsFullTimeIff(db, i, k);
    var joined := JoinCall(db, i).db;
    assert joined == Step(db, OnCall(DoJoin(i))).db;
    StepKeepsInv(db, OnCall(DoJoin(i)));
    RunEvolves(joined, actions);
    hide JoinCall, CallsOk;
    JoinedIsLive(db, i, k);
    assert BookingEvolves(joined.bookings[i], Run(joined, actions).bookings[i], Earned(joined, BookingItem(i)));
    assert CallEvolves(joined.bookings[i].calls[k], Run(joined, actions).bookings[i].calls[k]);
  }

  /** Once the fan's app has seen the creator, nothing takes that back: whatever happens
      meanwhile, a call still live at its deadline completes, and its booking with it. */
  lemma SeenCallCompletes(db: Db, actions: seq<Action>, i: nat, k: nat, auto: bool)
    requires Reachable(db) && i < |db.bookings| && k < |db.bookings[i].calls|
    requires AllowedRun(Heartbeat(db, i, k, true, Some(true)).db, actions)
    ensures var later := Run(Heartbeat(db, i, k, true, Some(true)).db, actions);
      && i < |later.bookings| && k < |later.bookings[i].calls|
      && var x := later.bookings[i].calls[k];
         && x.mediaConfirmed == Some(true)
         && (x.status == InProgress ==>
               && x.deadline.Some?
               && (later.now + 5 >= x.deadline.value ==> Completes(later, CompleteCall(later, i, k, auto), i, k)))
  {
    hide Reachable, AllowedRun, Run;
    ReachableIsOk(db);
    var beat := OnCall(DoBeat(i, k, true, Some(true)));
    var seen := Heartbeat(db, i, k, true, Some(true)).db;
    StepKeepsInv(db, beat);
    RunKeepsInv(seen, actions);
    RunEvolves(seen, actions);
    hide MoneyInv, CapacityOk, MessagesOk, ShoutoutRulesOk, DeadlineOk, RingsApart, AnyCall, LongestCall, ConversationsEvolve,
         AllMove, EarningsEvolve, PayoutsEvolve, TopupsEvolve;
    var later := Run(seen, actions);
    assert BookingEvolves(seen.bookings[i], later.bookings[i], Earned(seen, BookingItem(i)));
    assert CallEvolves(seen.bookings[i].calls[k], later.bookings[i].calls[k]);
    assert AttemptsOk(later.bookings[i], later.now);
    hide Inv, Evolves, Completes, CompleteCall, StepCall, Step;
    SeenAtDeadline(later, i, k, auto);
  }

  lemma SeenAtDeadline(db: Db, i: nat, k: nat, auto: bool)
    requires i < |db.bookings| && k < |db.bookings[i].calls| && AttemptsOk(db.bookings[i], db.now)
    requires db.bookings[i].calls[k].mediaConfirmed == Some(true)
    ensures var x := db.bookings[i].calls[k];
      x.status == InProgress ==>
        && x.deadline.Some?
        && (db.now + 5 >= x.deadline.value ==> Completes(db, CompleteCall(db, i, k, auto), i, k))
  {
    hide DeadlineOk, RingsApart, AnyCall;
    assert CallOk(db.bookings[i].calls[k], db.now, db.bookings[i].minutes * 60);
  }

  /** The attempt is completed now, and a booking still BOOKED with it. */
  predicate Completes(was: Db, out: Out, i: nat, k: nat)
    requires i < |was.bookings|
  {
    && out.reply == Done && i < |out.db.bookings| && k < |out.db.bookings[i].calls|
    && out.db.bookings[i].calls[k].status == CallCompleted && out.db.bookings[i].calls[k].endedAt == Some(was.now)
    && out.db.bookings[i].status == if was.bookings[i].status == Booked then Completed else was.bookings[i].status
  }

  lemma JoinedIsLive(db: Db, i: nat, k: nat)
    requires i < |db.bookings| && LatestActive(db.bookings[i].calls) == Some(k)
    ensures i < |JoinCall(db, i).db.bookings| && k < |JoinCall(db, i).db.bookings[i].calls|
    ensures JoinCall(db, i).db.bookings[i].calls[k].status == InProgress
  {
  }

  // ── Question windows ─────────────────────────────────────────────────────

  /** A window is answered at most once and never reopens: from the first answer on
      its settle_at is fixed and it stays answered unless it expires. */
  lemma AnsweredOnce(db: Db, actions: seq<Action>, c: nat, w: nat)
    requires Reachable(db) && AllowedRun(db, actions) && HasWindow(db, c, w) && WindowAt(db, c, w).status == Answered
    ensures var later := Run(db, actions);
      && HasWindow(later, c, w) && WindowAt(later, c, w).status != Open
      && WindowAt(later, c, w).settleAt == WindowAt(db, c, w).settleAt
      && WindowAt(later, c, w).charge == WindowAt(db, c, w).charge
      && (Earned(db, WindowItem(c, w)) ==> WindowAt(later, c, w).status == Answered)
  {
    hide Reachable, AllowedRun, Run;
    ReachableIsOk(db);
    RunKeepsInv(db, actions);
    RunEvolves(db, actions);
    var later := Run(db, actions);
    hide BankOk, EarningsOk, HasKey, ItemFlow, CapacityOk, CallsOk, MessagesOk, ShoutoutRulesOk;
    assert ConversationEvolves(db.conversations[c], later.conversations[c]);
    assert WindowMoves(db.conversations[c].windows[w], later.conversations[c].windows[w]);
    EarnedStays(db, later);
    assert WindowOk(later, c, w);
  }

  /** An expired window was refunded once: the fan has back what was charged, escrow
      holds nothing, and the partner is never paid for it. */
  lemma ExpiredWindowIsNeutral(db: Db, c: nat, w: nat)
    requires Reachable(db) && HasWindow(db, c, w) && WindowAt(db, c, w).status == WindowExpired
    ensures forall sel :: ItemFlow(db.bank.ledger, WindowItem(c, w), sel) == 0
    ensures !Earned(db, WindowItem(c, w)) && HasKey(db.bank.ledger, QuestionExpire(c, w))
  {
    hide Reachable, AllowedRun, Run;
    ReachableIsOk(db);
    hide BankOk, EarningsOk, HasKey, ItemFlow, CapacityOk, CallsOk, MessagesOk, ShoutoutRulesOk;
    assert WindowOk(db, c, w);
  }

  // ── Shout-outs ───────────────────────────────────────────────────────────

  /** Money moves only at the fan's gate: a paid shout-out is a delivery confirmed by
      the fan, an admin or the timer, and it pays the price and every paid fee. Cancel
      leaves escrow empty; expiry leaves exactly the paid fees. */
  lemma ShoutoutMoneyIsGated(db: Db, s: nat)
    requires Reachable(db) && s < |db.shoutouts|
    ensures var r := db.shoutouts[s]; var me := ShoutoutItem(s);
      && (Earned(db, me) ==> r.status == Delivered && r.confirmed.Some?
                             && PaidFor(db.earnings, me) == Some(r.price + Fees(r.corrections)) && EscrowOf(db, me) == 0)
      && (r.status == RefundedByAdmin ==> EscrowOf(db, me) == 0 && ItemFlow(db.bank.ledger, me, OnWallet(r.fan)) == 0)
      && (r.status == ExpiredNoDelivery ==> EscrowOf(db, me) == Fees(r.corrections)
                                            && ItemFlow(db.bank.ledger, me, OnWallet(r.fan)) == -Fees(r.corrections))
      && (forall j, k :: 0 <= j < k < |r.corrections| ==>
            r.corrections[k].kind == PaidRound && (r.corrections[j].resubmitted || r.corrections[k].resubmitted))
  {
    hide Reachable, AllowedRun, Run;
    ReachableIsOk(db);
    hide BankOk, EarningsOk, HasKey, ItemFlow, CapacityOk, CallsOk, MessagesOk;
    assert ShoutoutOk(db, s);
    assert ShoutoutRuleOk(db.shoutouts[s]);
  }

  // ── Payables ─────────────────────────────────────────────────────────────

  /** partner_payable is the sum of the earnings not yet PAID; a payout that was not
      rejected is the sum of exactly the earnings naming it; references are distinct. */
  lemma PayableIsOwed(db: Db)
    requires Reachable(db)
    ensures Flow(db.bank.ledger, OnAccount(PartnerPayable)) == Owed(db.earnings)
    ensures forall p :: 0 <= p < |db.payouts| && db.payouts[p].status != Rejected ==>
              db.payouts[p].amount == PayoutSum(db.earnings, p)
    ensures forall j :: 0 <= j < |db.earnings| && db.earnings[j].payout.Some? ==>
              && db.earnings[j].payout.value < |db.payouts|
              && db.payouts[db.earnings[j].payout.value].status != Rejected
              && db.payouts[db.earnings[j].payout.value].partner == db.earnings[j].partner
    ensures forall p, q :: 0 <= p < q < |db.payouts| && db.payouts[p].status == PayoutPaid ==>
              db.payouts[p].utr.Some? && db.payouts[p].utr != db.payouts[q].utr
  {
    hide Reachable, AllowedRun, Run;
    ReachableIsOk(db);
    hide BankOk, HasKey, ItemFlow, CapacityOk, CallsOk, MessagesOk, ShoutoutRulesOk, Flow, Owed, PayoutSum, UtrWellFormed;
    forall p | 0 <= p < |db.payouts|
      ensures db.payouts[p].status != Rejected ==> db.payouts[p].amount == PayoutSum(db.earnings, p)
      ensures db.payouts[p].status == PayoutPaid ==> db.payouts[p].utr.Some?
    { assert PayoutOk(db, p); }
    forall j | 0 <= j < |db.earnings| && db.earnings[j].payout.Some?
      ensures db.earnings[j].payout.value < |db.payouts|
      ensures db.payouts[db.earnings[j].payout.value].status != Rejected
      ensures db.payouts[db.earnings[j].payout.value].partner == db.earnings[j].partner
    { assert EarningOk(db, j); }
  }
}
