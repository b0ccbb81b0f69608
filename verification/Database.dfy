/** The stored procedures as they run: step by step on mutable tables. Each leaves
    exactly what its specification function says, so every theorem about runs of
    those functions is a theorem about these procedures.
 */
module Database {
  import opened Schema
  import opened Ledger
  import opened Tables
  import Bookings
  import Calls
  import Messages
  import Shoutouts
  import Payouts
  import Platform
  import Sweeps
  import Promises
  import MoneyPromises
  import PayoutPromises
  import MoneyInvariant

  lemma {:induction false} PrefixAborts(wallets: seq<Wallet>, legs: seq<Leg>, n: nat)
    requires n <= |legs| && ApplyLegs(wallets, legs[..n]).None?
    ensures ApplyLegs(wallets, legs).None?
  {
    if n == |legs| {
      assert legs[..n] == legs;
    } else {
      assert legs[..|legs| - 1][..n] == legs[..n];
      PrefixAborts(wallets, legs[..|legs| - 1], n);
    }
  }

  lemma ExpireRowTouchesOne(db: Db, id: nat, status: BookingStatus)
    requires id < |db.bookings|
    ensures var out := Bookings.ExpireRow(db, id, status);
      && out.db.now == db.now && |out.db.bookings| == |db.bookings|
      && (forall j :: 0 <= j < |db.bookings| && j != id ==> out.db.bookings[j] == db.bookings[j])
      && (out.reply.Raised? ==> status != Completed && status != RequiresAdminReview)
  {
    hide Post;
  }

  /** What the day-end query can make of an overdue booking. */
  const OUTCOMES: set<BookingStatus> :=
    {Completed, RequiresAdminReview, ExpiredPartnerNoShow, ExpiredFanNoJoin, ExpiredFanDeclined, ExpiredTechnical}

  lemma DueRowStep(db: Db, id: nat)
    requires Bookings.DueForExpiry(db, id)
    ensures Platform.Step(db, Sweeps.WorkOn(Sweeps.ExpireBookings, BookingItem(id)))
         == Bookings.ExpireRow(db, id, Bookings.Classify(db.bookings[id]))
  {
    hide Bookings.ExpireRow, Bookings.Classify;
  }

  class Server {
    var now: int
    var settings: Settings
    var ledger: seq<Txn>
    var wallets: seq<Wallet>
    var bookings: seq<Booking>
    var slots: map<Slot, Availability>
    var conversations: seq<Conversation>
    var shoutouts: seq<Shoutout>
    var earnings: seq<Earning>
    var payouts: seq<PayoutRow>
    var topups: seq<TopupOrder>
    var webhooks: set<nat>
    var reports: seq<Report>
    var audit: seq<Audit>

    constructor (settings: Settings)
      ensures Snapshot() == EmptyDb(settings)
    {
      now, this.settings, ledger, wallets := 0, settings, [], [];
      bookings, slots, conversations, shoutouts := [], map[], [], [];
      earnings, payouts, topups, webhooks, reports, audit := [], [], [], {}, [], [];
    }

    function Snapshot(): Db
      reads this
    {
      Db(now, settings, Bank(ledger, wallets), bookings, slots, conversations, shoutouts, earnings, payouts,
         topups, webhooks, reports, audit)
    }

    // ── post_transaction ───────────────────────────────────────────────────

    method SumLegs(legs: seq<Leg>) returns (sum: int)
      ensures sum == LegSum(legs, AllLegs)
    {
      sum := 0;
      for i := 0 to |legs|
        invariant sum == LegSum(legs[..i], AllLegs)
      {
        assert legs[..i + 1][..i] == legs[..i];
        sum := sum + legs[i].delta;
      }
      assert legs[..|legs|] == legs;
    }

    /** Write the legs of the newest transaction and move the wallets they name, one
        leg at a time, until a CHECK fires. */
    method WriteLegs(legs: seq<Leg>) returns (ok: bool)
      requires |ledger| > 0 && ledger[|ledger| - 1].legs == [] && WalletsExist(wallets, legs)
      modifies this`ledger, this`wallets
      ensures ok ==> ApplyLegs(old(wallets), legs) == Some(wallets)
      ensures ok && AllInBounds(old(wallets)) ==> WalletsMove(old(wallets), legs, wallets)
      ensures ok ==> ledger == old(ledger)[|old(ledger)| - 1 := old(ledger)[|old(ledger)| - 1].(legs := legs)]
      ensures !ok ==> ApplyLegs(old(wallets), legs).None?
    {
      var id := |ledger| - 1;
      for i := 0 to |legs|
        invariant ledger == old(ledger)[id := old(ledger)[id].(legs := legs[..i])]
        invariant ApplyLegs(old(wallets), legs[..i]) == Some(wallets)
      {
        assert legs[..i + 1][..i] == legs[..i] && legs[..i + 1] == legs[..i] + [legs[i]];
        var leg := legs[i];
        ledger := ledger[id := ledger[id].(legs := ledger[id].legs + [leg])];
        if leg.wallet.Some? {
          var w := leg.wallet.value;
          var balance := wallets[w].balance + leg.delta;
          if balance < 0 {
            PrefixAborts(old(wallets), legs, i + 1);
            return false;
          }
          wallets := wallets[w := Wallet(balance, Max(0, Min(wallets[w].bonus + leg.bonusDelta, balance)))];
        }
      }
      assert legs[..|legs|] == legs;
      if AllInBounds(old(wallets)) { LegsMoveWallets(old(wallets), legs); }
      ok := true;
    }

    /** A CHECK that fires undoes everything written so far. */
    method PostTransaction(key: Key, amount: int, legs: seq<Leg>) returns (r: PostResult)
      modifies this`ledger, this`wallets
      ensures r == Post(old(Snapshot()).bank, Txn(key, amount, legs))
      ensures Bank(ledger, wallets) == if r.Posted? then r.bank else old(Snapshot()).bank
      ensures r.Posted? && r.replayed ==> ledger == old(ledger) && wallets == old(wallets)
      ensures r.Posted? && !r.replayed ==> ledger == old(ledger) + [Txn(key, amount, legs)] && r.id == |old(ledger)|
      ensures r.Posted? && !r.replayed && AllInBounds(old(wallets)) ==> WalletsMove(old(wallets), legs, wallets)
    {
      if |legs| < 2 { return Failed(BadLegs); }
      var sum := SumLegs(legs);
      if sum != 0 { return Failed(Unbalanced); }
      if amount <= 0 { return Failed(BadAmount); }
      var existing := FindKey(ledger, key);
      if existing.Some? { return Posted(Bank(ledger, wallets), existing.value, true); }
      for i := 0 to |legs|
        invariant WalletsExist(wallets, legs[..i])
      {
        if legs[i].wallet.Some? && legs[i].wallet.value >= |wallets| { return Failed(WalletNotFound); }
      }
      assert legs[..|legs|] == legs;
      var savedLedger, savedWallets := ledger, wallets;
      ledger := ledger + [Txn(key, amount, [])];
      var ok := WriteLegs(legs);
      if !ok {
        ledger, wallets := savedLedger, savedWallets;
        return Failed(CheckViolation);
      }
      assert ledger == savedLedger + [Txn(key, amount, legs)];
      r := Posted(Bank(ledger, wallets), |savedLedger|, false);
    }

    // ── Bookings ───────────────────────────────────────────────────────────

    method BookVideoCall(fan: nat, partner: nat, date: int, minutes: Bookings.Minutes, quote: Option<Bookings.Quote>)
      returns (reply: Reply)
      modifies this
      ensures Out(Snapshot(), reply) == Bookings.BookCall(old(Snapshot()), fan, partner, date, minutes, quote)
      ensures MoneyInvariant.MoneyInv(old(Snapshot())) ==>
                MoneyPromises.Books(old(Snapshot()), Snapshot(), reply, fan, partner, date, minutes, quote)
    {
      hide MoneyInvariant.MoneyInv, MoneyPromises.Books;
      if MoneyInvariant.MoneyInv(Snapshot()) { MoneyPromises.BookTakesIn(Snapshot(), fan, partner, date, minutes, quote); }
      if fan >= |wallets| { return Raised(NoSuchProfile); }
      if quote.None? { return Refused(ServiceRefused); }
      var s := Slot(partner, date);
      if s !in slots || !slots[s].available { return Refused(NotAvailable); }
      if slots[s].booked + minutes > slots[s].threshold { return Refused(NoCapacity); }
      hide Bookings.HoldAndBook;
      reply := HoldAndBook(fan, s, minutes, quote.value);
    }

    /** Debit the fan and the platform's share, hold the list price, insert the row and
        take the minutes. */
    method HoldAndBook(fan: nat, s: Slot, minutes: Bookings.Minutes, quote: Bookings.Quote) returns (reply: Reply)
      requires s in slots
      modifies this
      ensures Out(Snapshot(), reply) == Bookings.HoldAndBook(old(Snapshot()), fan, s, minutes, quote)
    {
      hide Post;
      var base, discount := quote.base, quote.discount;
      var legs := [WalletLeg(fan, -(base - discount)), Plain(Escrow, base)];
      if discount > 0 { legs := legs + [Plain(PromoIncentive, -discount)]; }
      assert Txn(Book(|bookings|), base, legs) == Bookings.BookTxn(|bookings|, fan, quote);
      hide Bookings.BookTxn;
      var savedLedger, savedWallets := ledger, wallets;
      var posted := PostTransaction(Book(|bookings|), base, legs);
      if posted.Failed? { return Raised(posted.error); }
      if base - discount <= 0 {
        ledger, wallets := savedLedger, savedWallets;
        return Raised(CheckViolation);
      }
      bookings := bookings + [Booking(fan, s.partner, s.date, minutes, base - discount, base, discount, Booked,
                                      now + settings.settlementWindow, false, [])];
      slots := slots[s := slots[s].(booked := slots[s].booked + minutes)];
      reply := Done;
    }

    /** Post the release of a booking's escrow, give the minutes back, set the status. */
    method Unwind(id: nat, key: Key, status: BookingStatus) returns (reply: Reply)
      requires id < |bookings|
      modifies this
      ensures Out(Snapshot(), reply) == Bookings.Unwind(old(Snapshot()), id, key, status)
    {
      hide Post;
      var b := bookings[id];
      var legs := [Plain(Escrow, -b.original), WalletLeg(b.fan, b.price)];
      if b.discount > 0 { legs := legs + [Plain(PromoIncentive, b.discount)]; }
      assert legs == Bookings.UnwindTxn(key, b).legs;
      var posted := PostTransaction(key, b.original, legs);
      if posted.Failed? { return Raised(posted.error); }
      var s := Slot(b.partner, b.date);
      if s in slots { slots := slots[s := slots[s].(booked := Max(0, slots[s].booked - b.minutes))]; }
      bookings := bookings[id := b.(status := status)];
      reply := Done;
    }

    method RefundBooking(id: nat) returns (reply: Reply)
      modifies this
      ensures Out(Snapshot(), reply) == Bookings.RefundBooking(old(Snapshot()), id)
      ensures MoneyInvariant.MoneyInv(old(Snapshot())) && reply == Done ==>
                MoneyPromises.GivesBack(old(Snapshot()), Snapshot(), BookingItem(id), old(bookings)[id].fan, 0)
    {
      hide MoneyInvariant.MoneyInv, MoneyPromises.GivesBack;
      if MoneyInvariant.MoneyInv(Snapshot()) && id < |bookings| { MoneyPromises.RefundGivesBack(Snapshot(), id); }
      if id >= |bookings| { return Refused(NotFound); }
      if bookings[id].status != Booked { return Refused(NotRefundable); }
      if now > bookings[id].settleAt { return Refused(PastRefundWindow); }
      reply := Unwind(id, Refund(id), CancelledByFan);
    }

    /** Escrow to payable, plus the earning row. */
    method PayPartner(service: Item, partner: nat, key: Key, amount: int) returns (reply: Reply)
      modifies this
      ensures Out(Snapshot(), reply) == Tables.PayPartner(old(Snapshot()), service, partner, key, amount)
    {
      var posted := PostTransaction(key, amount, [Plain(Escrow, -amount), Plain(PartnerPayable, amount)]);
      if posted.Failed? { return Raised(posted.error); }
      earnings := earnings + [Earning(partner, posted.id, service, amount, PendingPayout, None)];
      reply := Done;
    }

    method SettleBooking(id: nat) returns (reply: Reply)
      modifies this
      ensures Out(Snapshot(), reply) == Bookings.SettleBooking(old(Snapshot()), id)
      ensures MoneyInvariant.MoneyInv(old(Snapshot())) && id < |old(bookings)| ==>
                MoneyPromises.PaysOut(old(Snapshot()), Snapshot(), reply, BookingItem(id), old(bookings)[id].partner,
                                      old(bookings)[id].original)
    {
      hide MoneyInvariant.MoneyInv, MoneyPromises.PaysOut;
      if MoneyInvariant.MoneyInv(Snapshot()) && id < |bookings| { MoneyPromises.BookingPaysOut(Snapshot(), id); }
      if id >= |bookings| { return Refused(NotFound); }
      var b := bookings[id];
      if b.status != Completed { return Refused(NotSettleable); }
      if OpenCallReport(reports, id) { return Refused(ReportPending); }
      if PaidFor(earnings, BookingItem(id)).Some? { return AlreadyDone; }
      reply := PayPartner(BookingItem(id), b.partner, Settle(id), b.original);
    }

    method ResolvePartialCall(id: nat, partnerShare: int, fanRefund: int) returns (reply: Reply)
      modifies this
      ensures Out(Snapshot(), reply) == Bookings.ResolvePartial(old(Snapshot()), id, partnerShare, fanRefund)
      ensures MoneyInvariant.MoneyInv(old(Snapshot())) ==>
                MoneyPromises.Splits(old(Snapshot()), Snapshot(), reply, id, partnerShare, fanRefund)
    {
      hide Post, Tables.PayPartner, MoneyInvariant.MoneyInv, MoneyPromises.Splits;
      if MoneyInvariant.MoneyInv(Snapshot()) { MoneyPromises.SplitPays(Snapshot(), id, partnerShare, fanRefund); }
      if id >= |bookings| { return Refused(NotFound); }
      var b := bookings[id];
      if b.status != RequiresAdminReview { return Refused(InvalidStatus); }
      if partnerShare + fanRefund != b.original { return Refused(SplitMismatch); }
      if PaidFor(earnings, BookingItem(id)).Some? { return AlreadyDone; }
      var savedBank, savedEarnings := Bank(ledger, wallets), earnings;
      if partnerShare > 0 {
        var paid := PayPartner(BookingItem(id), b.partner, PartialSettle(id), partnerShare);
        if paid.Raised? { return paid; }
      }
      if fanRefund > 0 {
        var posted := PostTransaction(PartialRefund(id), fanRefund, [Plain(Escrow, -fanRefund), WalletLeg(b.fan, fanRefund)]);
        if posted.Failed? {
          ledger, wallets, earnings := savedBank.ledger, savedBank.wallets, savedEarnings;
          return Raised(posted.error);
        }
      }
      bookings := bookings[id := bookings[id].(status := Completed)];
      audit := audit + [AuditResolvePartial(id)];
      reply := Done;
    }

    // ── process_end_of_day_expired_bookings ────────────────────────────────

    /** The per-row block of the day-end loop on the status its query computed. */
    method ExpireRow(id: nat, status: BookingStatus) returns (reply: Reply)
      requires id < |bookings|
      modifies this
      ensures Out(Snapshot(), reply) == Bookings.ExpireRow(old(Snapshot()), id, status)
      ensures status == Completed ==> reply == Done && bookings[id].settleAt == old(now) + old(settings).settlementWindow
    {
      if status == Completed {
        bookings := bookings[id := bookings[id].(status := Completed, settleAt := now + settings.settlementWindow)];
        return Done;
      }
      if status == RequiresAdminReview {
        bookings := bookings[id := bookings[id].(status := RequiresAdminReview)];
        return Done;
      }
      reply := Unwind(id, Expire(id), status);
    }

    /** The rows are classified once, by the loop's query, and each row then runs in
        its own block: a raise is counted and the loop goes on. The outcome is that of
        expiring the rows one at a time, and `counts` says how many rows the query
        gave each status. */
    method ProcessEndOfDay(items: seq<Item>) returns (counts: map<BookingStatus, nat>, failed: nat)
      requires forall i :: 0 <= i < |items| ==> Sweeps.Due(Snapshot(), Sweeps.ExpireBookings, items[i])
      requires Sweeps.Distinct(items)
      modifies this
      ensures Snapshot() == Sweeps.ForEachId(old(Snapshot()), Sweeps.ExpireBookings, items).db
      ensures failed == Sweeps.ForEachId(old(Snapshot()), Sweeps.ExpireBookings, items).failed
      ensures counts.Keys == OUTCOMES && forall s :: s in OUTCOMES ==> counts[s] == Classified(old(bookings), items, s)
    {
      hide Sweeps.ForEachId, Bookings.Classify, Bookings.ExpireRow, Platform.Step;
      ghost var before := Snapshot();
      var rows := bookings;
      counts := map s | s in OUTCOMES :: 0;
      failed := 0;
      Sweeps.EmptyBatch(before, Sweeps.ExpireBookings);
      for i := 0 to |items|
        invariant now == before.now && |bookings| == |before.bookings|
        invariant failed <= i && counts.Keys == OUTCOMES
        invariant Sweeps.ForEachId(before, Sweeps.ExpireBookings, items[..i]) == Sweeps.Tally(Snapshot(), i - failed, failed)
        invariant forall j :: i <= j < |items| ==> bookings[items[j].booking] == before.bookings[items[j].booking]
        invariant forall s :: s in OUTCOMES ==> counts[s] == Classified(rows, items[..i], s)
      {
        assert Sweeps.Due(before, Sweeps.ExpireBookings, items[i]);
        var id := items[i].booking;
        var status := Bookings.Classify(rows[id]);
        assert items[..i + 1][..i] == items[..i];
        counts := counts[status := counts[status] + 1];
        ExpireRowTouchesOne(Snapshot(), id, status);
        Sweeps.BatchStep(before, Sweeps.ExpireBookings, items, i);
        DueRowStep(Snapshot(), id);
        var reply := ExpireRow(id, status);
        if reply.Raised? { failed := failed + 1; }
      }
      assert items[..|items|] == items;
    }

    // ── Settlement of the other services ───────────────────────────────────

    method SettleWindow(c: nat, w: nat) returns (reply: Reply)
      modifies this
      ensures Out(Snapshot(), reply) == Messages.SettleQuestion(old(Snapshot()), c, w)
      ensures MoneyInvariant.MoneyInv(old(Snapshot())) && Messages.HasWindow(old(Snapshot()), c, w) ==>
                MoneyPromises.PaysOut(old(Snapshot()), Snapshot(), reply, WindowItem(c, w), old(conversations)[c].partner,
                                      old(conversations)[c].windows[w].charge)
    {
      hide MoneyInvariant.MoneyInv, MoneyPromises.PaysOut;
      if MoneyInvariant.MoneyInv(Snapshot()) && Messages.HasWindow(Snapshot(), c, w) { MoneyPromises.WindowPaysOut(Snapshot(), c, w); }
      if c >= |conversations| || w >= |conversations[c].windows| { return Refused(NotSettleable); }
      var row := conversations[c].windows[w];
      if row.kind != Paid || row.charge == 0 || row.status != Answered { return Refused(NotSettleable); }
      if OpenReportOn(reports, WindowTarget(c, w)) { return Refused(ReportPending); }
      if PaidFor(earnings, WindowItem(c, w)).Some? { return AlreadyDone; }
      reply := PayPartner(WindowItem(c, w), conversations[c].partner, Schema.SettleWindow(c, w), row.charge);
    }

    method SettleShoutout(s: nat) returns (reply: Reply)
      modifies this
      ensures Out(Snapshot(), reply) == Shoutouts.SettleShoutout(old(Snapshot()), s)
      ensures MoneyInvariant.MoneyInv(old(Snapshot())) && s < |old(shoutouts)| ==>
                MoneyPromises.PaysOut(old(Snapshot()), Snapshot(), reply, ShoutoutItem(s), old(shoutouts)[s].partner,
                                      old(shoutouts)[s].price + Shoutouts.Fees(old(shoutouts)[s].corrections))
    {
      hide MoneyInvariant.MoneyInv, MoneyPromises.PaysOut, Shoutouts.Fees;
      if MoneyInvariant.MoneyInv(Snapshot()) && s < |shoutouts| { MoneyPromises.ShoutoutPaysOut(Snapshot(), s); }
      if s >= |shoutouts| { return Refused(NotFound); }
      var r := shoutouts[s];
      if r.status != Delivered || r.confirmed.None? { return Refused(NotSettleable); }
      if PaidFor(earnings, ShoutoutItem(s)).Some? { return AlreadyDone; }
      var fees := Shoutouts.Fees(r.corrections);
      reply := PayPartner(ShoutoutItem(s), r.partner, SettleShout(s), r.price + fees);
    }

    method AdminExpireBooking(id: nat, status: BookingStatus) returns (reply: Reply)
      modifies this
      ensures Out(Snapshot(), reply) == Bookings.AdminExpireBooking(old(Snapshot()), id, status)
      ensures MoneyInvariant.MoneyInv(old(Snapshot())) ==>
                MoneyPromises.AdminExpires(old(Snapshot()), Snapshot(), reply, id, status)
    {
      hide Bookings.Unwind, MoneyInvariant.MoneyInv, MoneyPromises.AdminExpires;
      if MoneyInvariant.MoneyInv(Snapshot()) { MoneyPromises.AdminExpiryGivesBack(Snapshot(), id, status); }
      if status != Completed && !Bookings.IsExpired(status) { return Refused(InvalidStatus); }
      if id >= |bookings| { return Refused(NotFound); }
      if status == Completed {
        bookings := bookings[id := bookings[id].(status := Completed)];
      } else {
        var unwound := Unwind(id, AdminExpire(id), status);
        if unwound.Raised? { return unwound; }
      }
      audit := audit + [AuditExpireBooking(id, status)];
      reply := Done;
    }

    method SetAvailability(partner: nat, date: int, minutes: int) returns (reply: Reply)
      modifies this
      ensures Out(Snapshot(), reply) == Bookings.SetAvailability(old(Snapshot()), partner, date, minutes)
      ensures Promises.Offers(old(Snapshot()), Snapshot(), reply, partner, date, minutes)
    {
      hide Promises.Offers;
      Promises.AvailabilityOffers(Snapshot(), partner, date, minutes);
      if minutes < 0 { return Refused(InvalidMinutes); }
      if minutes > 600 { return Refused(MinutesExceedCap); }
      var s := Slot(partner, date);
      if s in slots {
        slots := slots[s := slots[s].(available := minutes > 0, threshold := minutes)];
      } else {
        slots := slots[s := Availability(minutes > 0, minutes, 0)];
      }
      reply := Done;
    }

    // ── Calls and their triggers ───────────────────────────────────────────

    /** UPDATE calls: the row, then the triggers on attempt_status. */
    method UpdateCall(id: nat, k: nat, c: Call)
      requires id < |bookings| && k < |bookings[id].calls|
      modifies this`bookings
      ensures Snapshot() == Calls.SetCall(old(Snapshot()), id, k, c)
    {
      var b := bookings[id];
      var was := b.calls[k].status;
      b := b.(calls := b.calls[k := c]);
      if c.status != was {
        if c.status == CallCompleted && b.status == Booked { b := b.(status := Completed); }
        if c.status in {MissedNoJoin, MissedDeclined, DroppedTechnical} { b := b.(fanReady := false); }
      }
      bookings := bookings[id := b];
    }

    method SignalReady(id: nat) returns (reply: Reply)
      modifies this
      ensures Out(Snapshot(), reply) == Calls.SignalReady(old(Snapshot()), id)
      ensures Promises.Readies(old(Snapshot()), Snapshot(), reply, id)
    {
      Promises.SignalReadies(Snapshot(), id);
      if id >= |bookings| || bookings[id].status != Booked { return Refused(NotBookable); }
      bookings := bookings[id := bookings[id].(fanReady := true)];
      reply := Done;
    }

    method AdminRecoverCall(id: nat) returns (reply: Reply)
      modifies this
      ensures Out(Snapshot(), reply) == Calls.AdminRecoverCall(old(Snapshot()), id)
      ensures Promises.Recovers(old(Snapshot()), Snapshot(), reply, id)
    {
      hide Promises.Recovers;
      Promises.RecoverRecovers(Snapshot(), id);
      if id >= |bookings| { return Refused(NotFound); }
      if bookings[id].status !in {Booked, ExpiredTechnical, ExpiredPartnerNoShow} { return Refused(NotRecoverable); }
      var active := Calls.LatestActive(bookings[id].calls);
      if active.Some? {
        var k := active.value;
        UpdateCall(id, k, bookings[id].calls[k].(status := DroppedTechnical, endedAt := Some(now)));
      }
      bookings := bookings[id := bookings[id].(status := ExpiredTechnical)];
      reply := Done;
    }

    method InitiateCall(id: nat) returns (reply: Reply)
      modifies this
      ensures Out(Snapshot(), reply) == Calls.InitiateCall(old(Snapshot()), id)
      ensures Promises.Rings(old(Snapshot()), Snapshot(), reply, id)
    {
      Promises.InitiateRings(Snapshot(), id);
      if id >= |bookings| || bookings[id].status != Booked { return Refused(NotBookable); }
      var b := bookings[id];
      if Calls.RecentRing(b.calls, now) { return Refused(AlreadyInitiated); }
      bookings := bookings[id := b.(calls := b.calls + [Call(PartnerInitiated, now, None, None, None, None, None, None)])];
      reply := Done;
    }

    method JoinCall(id: nat) returns (reply: Reply)
      modifies this
      ensures Out(Snapshot(), reply) == Calls.JoinCall(old(Snapshot()), id)
      ensures Promises.GoesLive(old(Snapshot()), Snapshot(), reply, id)
    {
      Promises.JoinGoesLive(Snapshot(), id);
      if id >= |bookings| { return Refused(NoActiveCall); }
      var b := bookings[id];
      var active := Calls.LatestActive(b.calls);
      if active.None? { return Refused(NoActiveCall); }
      var k := active.value;
      if b.calls[k].status == InProgress { return Done; }
      var used := Calls.ConsumedSeconds(b.calls, k);
      UpdateCall(id, k, b.calls[k].(status := InProgress, startedAt := Some(now),
                                    deadline := Some(now + Max(0, b.minutes * 60 - used)), fanBeat := Some(now)));
      reply := Done;
    }

    method Heartbeat(id: nat, k: nat, byFan: bool, peerSeen: Option<bool>) returns (reply: Reply)
      modifies this
      ensures Out(Snapshot(), reply) == Calls.Heartbeat(old(Snapshot()), id, k, byFan, peerSeen)
      ensures Promises.Beats(old(Snapshot()), Snapshot(), reply, id, k, byFan, peerSeen)
    {
      Promises.HeartbeatBeats(Snapshot(), id, k, byFan, peerSeen);
      if id >= |bookings| || k >= |bookings[id].calls| { return Refused(NotFound); }
      var c := bookings[id].calls[k];
      if byFan {
        c := c.(fanBeat := Some(now));
        if peerSeen.Some? { c := c.(mediaConfirmed := Some((c.mediaConfirmed == Some(true)) || peerSeen.value)); }
      } else {
        c := c.(partnerBeat := Some(now));
      }
      UpdateCall(id, k, c);
      reply := Done;
    }

    method CompleteCall(id: nat, k: nat, auto: bool) returns (reply: Reply)
      modifies this
      ensures Out(Snapshot(), reply) == Calls.CompleteCall(old(Snapshot()), id, k, auto)
      ensures Promises.EndsLive(old(Snapshot()), Snapshot(), reply, id, k, auto)
    {
      Promises.CompleteEndsLive(Snapshot(), id, k, auto);
      if id >= |bookings| || k >= |bookings[id].calls| || bookings[id].calls[k].status != InProgress {
        return Refused(NotInProgress);
      }
      var c := bookings[id].calls[k];
      if c.mediaConfirmed == Some(false) {
        c := c.(status := DroppedTechnical, endedAt := c.startedAt);
      } else if auto || (c.deadline.Some? && now >= c.deadline.value - 5) {
        c := c.(status := CallCompleted, endedAt := Some(now));
      } else {
        c := c.(status := DroppedTechnical, endedAt := Some(now));
      }
      UpdateCall(id, k, c);
      reply := Done;
    }

    method MarkCallMissed(id: nat, k: nat, status: CallStatus) returns (reply: Reply)
      modifies this
      ensures Out(Snapshot(), reply) == Calls.MarkMissed(old(Snapshot()), id, k, status)
      ensures Promises.Misses(old(Snapshot()), Snapshot(), reply, id, k, status)
    {
      Promises.MarkMissedMisses(Snapshot(), id, k, status);
      if status !in {MissedNoJoin, MissedDeclined, DroppedTechnical} { return Refused(InvalidStatus); }
      if id >= |bookings| || k >= |bookings[id].calls| || !Calls.IsActive(bookings[id].calls[k].status) {
        return Refused(NotActive);
      }
      var c := bookings[id].calls[k];
      if status != DroppedTechnical && c.status == InProgress { return Refused(AlreadyJoined); }
      UpdateCall(id, k, c.(status := status, endedAt := Some(now)));
      reply := Done;
    }

    /** cleanup_stalled_calls, row by row: the trigger fires once per missed ring. */
    method CleanupStalledCalls() returns (reply: Reply)
      modifies this
      ensures Out(Snapshot(), reply) == Calls.SweepRings(old(Snapshot()))
      ensures Promises.SweepsOut(old(Snapshot()), Snapshot())
    {
      hide Promises.SweepsOut;
      Promises.SweepRingsSweepsOut(Snapshot());
      ghost var before := Snapshot();
      for i := 0 to |bookings|
        invariant Snapshot() == before.(bookings := bookings) && |bookings| == |before.bookings|
        invariant forall j :: 0 <= j < i ==> bookings[j] == Calls.SweptBooking(before.bookings[j], now)
        invariant forall j :: i <= j < |bookings| ==> bookings[j] == before.bookings[j]
      {
        var row := SweepRow(bookings[i], now);
        bookings := bookings[i := row];
      }
      assert bookings == Calls.SweepRings(before).db.bookings;
      reply := Done;
    }

    method SweepRow(b: Booking, at: int) returns (row: Booking)
      ensures row == Calls.SweptBooking(b, at)
    {
      row := b;
      for k := 0 to |b.calls|
        invariant row == b.(calls := row.calls, fanReady := row.fanReady) && |row.calls| == |b.calls|
        invariant forall j :: 0 <= j < k ==> row.calls[j] == Calls.SweptCall(b.calls[j], at)
        invariant forall j :: k <= j < |b.calls| ==> row.calls[j] == b.calls[j]
        invariant row.fanReady == (b.fanReady && !exists j :: 0 <= j < k && Calls.RangOut(b.calls[j], at))
      {
        if Calls.RangOut(b.calls[k], at) {
          row := row.(calls := row.calls[k := row.calls[k].(status := MissedNoJoin, endedAt := Some(at))], fanReady := false);
        }
      }
      assert row.calls == Calls.SweptBooking(b, at).calls;
    }

    // ── Questions ──────────────────────────────────────────────────────────

    method AskQuestion(fan: nat, partner: nat, blocked: bool, price: Option<int>) returns (reply: Reply)
      modifies this
      ensures Out(Snapshot(), reply) == Messages.AskQuestion(old(Snapshot()), fan, partner, blocked, price)
      ensures MoneyInvariant.MoneyInv(old(Snapshot())) ==>
                MoneyPromises.Asks(old(Snapshot()), Snapshot(), reply, fan, partner, blocked, price)
    {
      hide Post, MoneyInvariant.MoneyInv, MoneyPromises.Asks;
      if MoneyInvariant.MoneyInv(Snapshot()) { MoneyPromises.AskTakesIn(Snapshot(), fan, partner, blocked, price); }
      if fan >= |wallets| { return Raised(NoSuchProfile); }
      if blocked { return Refused(ServiceRefused); }
      var found := Messages.FindConversation(conversations, fan, partner);
      if found.None? {
        conversations := conversations + [Conversation(fan, partner, [Messages.FreeWindow(FromFan)])];
        return Done;
      }
      var c := found.value;
      var conv := conversations[c];
      var open := Messages.NewestOpen(conv.windows);
      if open.Some? {
        var row := conv.windows[open.value];
        if Messages.FanMessages(row.messages) >= row.cap { return Refused(WindowLimit); }
        row := row.(messages := row.messages + [FromFan]);
        conversations := conversations[c := conv.(windows := conv.windows[open.value := row])];
        return Done;
      }
      if |conv.windows| == 0 {
        conversations := conversations[c := conv.(windows := conv.windows + [Messages.FreeWindow(FromFan)])];
        return Done;
      }
      if price.None? { return Refused(ServiceRefused); }
      var posted := PostTransaction(Question(c, |conv.windows|), price.value,
                                    [WalletLeg(fan, -price.value), Plain(Escrow, price.value)]);
      if posted.Failed? { return Raised(posted.error); }
      var row := Window(Paid, price.value, Messages.MESSAGE_CAP, Open, Some(now + settings.questionSla),
                        Some(now + settings.settlementWindow), [FromFan]);
      conversations := conversations[c := conv.(windows := conv.windows + [row])];
      reply := Done;
    }

    method PartnerAnswer(partner: nat, c: nat) returns (reply: Reply)
      modifies this
      ensures Out(Snapshot(), reply) == Messages.PartnerAnswer(old(Snapshot()), partner, c)
      ensures Promises.Answers(old(Snapshot()), Snapshot(), reply, partner, c)
    {
      Promises.PartnerAnswerAnswers(Snapshot(), partner, c);
      if c >= |conversations| { return Refused(NotFound); }
      if conversations[c].partner != partner { return Refused(PartnerMismatch); }
      var conv := conversations[c];
      var found := Messages.NewestReplyable(conv.windows);
      if found.None? { return Refused(NoWindow); }
      var k := found.value;
      var row := conv.windows[k].(messages := conv.windows[k].messages + [FromPartner]);
      if row.status == Open {
        row := row.(status := Answered, settleAt := Some(now + settings.settlementWindow));
      }
      conversations := conversations[c := conv.(windows := conv.windows[k := row])];
      reply := Done;
    }

    method PartnerFollowup(partner: nat, fan: nat, blocked: bool) returns (reply: Reply)
      modifies this
      ensures Out(Snapshot(), reply) == Messages.PartnerFollowup(old(Snapshot()), partner, fan, blocked)
      ensures Promises.FollowsUp(old(Snapshot()), Snapshot(), reply, partner, fan, blocked)
    {
      Promises.FollowupFollowsUp(Snapshot(), partner, fan, blocked);
      if blocked { return Refused(ServiceRefused); }
      var found := Messages.FindConversation(conversations, fan, partner);
      if found.None? { return Refused(NoConversation); }
      var conv := conversations[found.value];
      var open := Messages.NewestOpen(conv.windows);
      if open.Some? {
        var row := conv.windows[open.value];
        row := row.(messages := row.messages + [FromPartner]);
        conv := conv.(windows := conv.windows[open.value := row]);
      } else {
        conv := conv.(windows := conv.windows + [Messages.FreeWindow(FromPartner)]);
      }
      conversations := conversations[found.value := conv];
      reply := Done;
    }

    /** One item of the expiry job; the list it came from may be stale. */
    method ExpireWindow(c: nat, w: nat) returns (reply: Reply)
      modifies this
      ensures Out(Snapshot(), reply) == Messages.ExpireWindow(old(Snapshot()), c, w)
      ensures MoneyInvariant.MoneyInv(old(Snapshot())) && MoneyPromises.HoldsWindow(old(Snapshot()), c, w) ==>
                MoneyPromises.ExpiresWindow(old(Snapshot()), Snapshot(), reply, c, w)
    {
      hide Post, MoneyInvariant.MoneyInv, MoneyPromises.HoldsWindow, MoneyPromises.ExpiresWindow;
      if MoneyInvariant.MoneyInv(Snapshot()) && MoneyPromises.HoldsWindow(Snapshot(), c, w) {
        MoneyPromises.ExpiredWindowGivesBack(Snapshot(), c, w);
      }
      if c >= |conversations| || w >= |conversations[c].windows| { return Refused(NotFound); }
      var conv := conversations[c];
      var charge := conv.windows[w].charge;
      var posted := PostTransaction(QuestionExpire(c, w), charge, [Plain(Escrow, -charge), WalletLeg(conv.fan, charge)]);
      if posted.Failed? { return Raised(posted.error); }
      conversations := conversations[c := conv.(windows := conv.windows[w := conv.windows[w].(status := WindowExpired)])];
      reply := Done;
    }

    // ── Shout-outs ─────────────────────────────────────────────────────────

    method RequestShoutout(fan: nat, partner: nat, blocked: bool, price: Option<int>) returns (reply: Reply)
      modifies this
      ensures Out(Snapshot(), reply) == Shoutouts.RequestShoutout(old(Snapshot()), fan, partner, blocked, price)
      ensures MoneyInvariant.MoneyInv(old(Snapshot())) ==>
                MoneyPromises.RequestsVideo(old(Snapshot()), Snapshot(), reply, fan, partner, blocked, price)
    {
      hide MoneyInvariant.MoneyInv, MoneyPromises.RequestsVideo;
      if MoneyInvariant.MoneyInv(Snapshot()) { MoneyPromises.RequestTakesIn(Snapshot(), fan, partner, blocked, price); }
      hide Post;
      if fan >= |wallets| { return Raised(NoSuchProfile); }
      if blocked || price.None? { return Refused(ServiceRefused); }
      var posted := PostTransaction(Shout(|shoutouts|), price.value, [WalletLeg(fan, -price.value), Plain(Escrow, price.value)]);
      if posted.Failed? { return Raised(posted.error); }
      shoutouts := shoutouts + [Shoutout(fan, partner, price.value, AwaitingVideo, now + settings.settlementWindow,
                                         None, false, false, None, [])];
      reply := Done;
    }

    method UploadShoutout(s: nat, link: string) returns (reply: Reply)
      modifies this
      ensures Out(Snapshot(), reply) == Shoutouts.UploadShoutout(old(Snapshot()), s, link)
      ensures Promises.Delivers(old(Snapshot()), Snapshot(), reply, s, link)
    {
      Promises.UploadDelivers(Snapshot(), s, link);
      if s >= |shoutouts| { return Refused(NotFound); }
      if forall i :: 0 <= i < |link| ==> link[i] == ' ' { return Refused(LinkRequired); }
      var r := shoutouts[s];
      if r.status != AwaitingVideo { return Refused(InvalidState); }
      var rounds := Shoutouts.CloseRounds(r.corrections);
      shoutouts := shoutouts[s := r.(status := Delivered, confirmed := None,
                                     reviewDeadline := Some(now + settings.reviewWindow),
                                     settleAt := now + settings.settlementWindow, corrections := rounds)];
      reply := Done;
    }

    method ConfirmShoutout(fan: nat, s: nat) returns (reply: Reply)
      modifies this
      ensures Out(Snapshot(), reply) == Shoutouts.ConfirmShoutout(old(Snapshot()), fan, s)
      ensures Promises.Confirms(old(Snapshot()), Snapshot(), reply, s, ByFan)
    {
      Promises.ConfirmationsConfirm(Snapshot(), fan, s);
      if s >= |shoutouts| { return Refused(NotFound); }
      var r := shoutouts[s];
      if fan != r.fan { return Refused(FanMismatch); }
      if r.status != Delivered { return Refused(InvalidState); }
      if r.confirmed.Some? { return AlreadyDone; }
      shoutouts := shoutouts[s := r.(confirmed := Some(ByFan), settleAt := now)];
      reply := Done;
    }

    method AutoConfirmShoutout(s: nat) returns (reply: Reply)
      modifies this
      ensures Out(Snapshot(), reply) == Shoutouts.AutoConfirmShoutout(old(Snapshot()), s)
      ensures Promises.Confirms(old(Snapshot()), Snapshot(), reply, s, ByTimer)
    {
      Promises.ConfirmationsConfirm(Snapshot(), 0, s);
      if s >= |shoutouts| { return Refused(NotFound); }
      var r := shoutouts[s];
      if r.status != Delivered || r.confirmed.Some? || r.reviewDeadline.None? || r.reviewDeadline.value > now {
        return Refused(NotConfirmable);
      }
      shoutouts := shoutouts[s := r.(confirmed := Some(ByTimer), settleAt := now)];
      reply := Done;
    }

    method ReportShoutout(s: nat) returns (reply: Reply)
      modifies this
      ensures Out(Snapshot(), reply) == Shoutouts.ReportShoutout(old(Snapshot()), s)
      ensures Promises.Disputes(old(Snapshot()), Snapshot(), reply, s)
    {
      Promises.ReportDisputes(Snapshot(), s);
      if s >= |shoutouts| || shoutouts[s].status != Delivered || shoutouts[s].confirmed.Some? { return Refused(NotReportable); }
      reports := reports + [Report(ShoutoutTarget(s), true)];
      shoutouts := shoutouts[s := shoutouts[s].(status := IssueReported, disputed := true)];
      reply := Done;
    }

    method RequestCorrection(fan: nat, s: nat) returns (reply: Reply)
      modifies this
      ensures Out(Snapshot(), reply) == Shoutouts.RequestCorrection(old(Snapshot()), fan, s)
      ensures MoneyInvariant.MoneyInv(old(Snapshot())) ==>
                MoneyPromises.Corrects(old(Snapshot()), Snapshot(), reply, fan, s)
    {
      hide Post, Shoutouts.Fees, MoneyInvariant.MoneyInv, MoneyPromises.Corrects;
      if MoneyInvariant.MoneyInv(Snapshot()) { MoneyPromises.CorrectionTakesIn(Snapshot(), fan, s); }
      if s >= |shoutouts| { return Refused(NotFound); }
      var r := shoutouts[s];
      if fan != r.fan { return Refused(FanMismatch); }
      if r.status != Delivered || r.confirmed.Some? || r.disputed { return Refused(InvalidState); }
      if !r.freeUsed {
        shoutouts := shoutouts[s := r.(freeUsed := true, status := AwaitingVideo,
                                       corrections := r.corrections + [Correction(FreeRound, 0, false)])];
        return Done;
      }
      var fee := settings.correctionFee;
      if fee < 0 { return Refused(InsufficientBalance); }
      var posted := PostTransaction(ShoutCorrection(s, |r.corrections|), fee, [WalletLeg(r.fan, -fee), Plain(Escrow, fee)]);
      if posted.Failed? {
        if posted.error == CheckViolation { return Refused(InsufficientBalance); }
        return Raised(posted.error);
      }
      shoutouts := shoutouts[s := r.(status := AwaitingVideo, corrections := r.corrections + [Correction(PaidRound, fee, false)])];
      reply := Done;
    }

    method CancelShoutout(s: nat) returns (reply: Reply)
      modifies this
      ensures Out(Snapshot(), reply) == Shoutouts.CancelShoutout(old(Snapshot()), s)
      ensures MoneyInvariant.MoneyInv(old(Snapshot())) && reply == Done ==>
                MoneyPromises.GivesBack(old(Snapshot()), Snapshot(), ShoutoutItem(s), old(shoutouts)[s].fan, 0)
    {
      hide MoneyInvariant.MoneyInv, MoneyPromises.GivesBack, Shoutouts.ReturnShoutout, PaidFor;
      if MoneyInvariant.MoneyInv(Snapshot()) && s < |shoutouts| { MoneyPromises.CancelGivesBack(Snapshot(), s); }
      if s >= |shoutouts| { return Refused(NotFound); }
      if shoutouts[s].status !in {AwaitingVideo, Delivered, IssueReported} { return Refused(InvalidState); }
      if PaidFor(earnings, ShoutoutItem(s)).Some? { return Refused(AlreadySettled); }
      reply := ReturnShoutout(s);
    }

    /** Refund price and paid fees, set the final status and close the reports. */
    method ReturnShoutout(s: nat) returns (reply: Reply)
      requires s < |shoutouts|
      modifies this
      ensures Out(Snapshot(), reply) == Shoutouts.ReturnShoutout(old(Snapshot()), s)
    {
      hide Post, Shoutouts.Fees, Shoutouts.CloseReports;
      var r := shoutouts[s];
      var total := r.price + Shoutouts.Fees(r.corrections);
      var posted := PostTransaction(ShoutCancel(s), total, [Plain(Escrow, -total), WalletLeg(r.fan, total)]);
      if posted.Failed? { return Raised(posted.error); }
      shoutouts := shoutouts[s := r.(status := RefundedByAdmin)];
      reports := Shoutouts.CloseReports(reports, ShoutoutTarget(s));
      reply := Done;
    }

    method ResolveDispute(s: nat, verdict: Shoutouts.Verdict) returns (reply: Reply)
      modifies this
      ensures Out(Snapshot(), reply) == Shoutouts.ResolveDispute(old(Snapshot()), s, verdict)
      ensures Promises.Settles(old(Snapshot()), Snapshot(), reply, s, verdict)
    {
      Promises.ResolveSettles(Snapshot(), s, verdict);
      if s >= |shoutouts| || shoutouts[s].status != IssueReported { return Refused(NotFlagged); }
      var r := shoutouts[s];
      if verdict.RefundFan? {
        reply := CancelShoutout(s);
        return;
      }
      if verdict.Rework? {
        r := r.(status := AwaitingVideo);
      } else {
        r := r.(status := Delivered, reviewDeadline := Some(now + settings.reviewWindow),
                settleAt := now + settings.settlementWindow);
      }
      shoutouts := shoutouts[s := r];
      reports := Shoutouts.CloseReports(reports, ShoutoutTarget(s));
      reply := Done;
    }

    method AdminDeliver(s: nat, approve: bool) returns (reply: Reply)
      modifies this
      ensures Out(Snapshot(), reply) == Shoutouts.AdminDeliver(old(Snapshot()), s, approve)
      ensures Promises.Decides(old(Snapshot()), Snapshot(), reply, s, approve)
    {
      Promises.AdminDeliverDecides(Snapshot(), s, approve);
      if s >= |shoutouts| { return Refused(NotFound); }
      var r := shoutouts[s];
      if r.status !in {Delivered, IssueReported} || r.confirmed.Some? { return Refused(InvalidState); }
      if approve {
        shoutouts := shoutouts[s := r.(status := Delivered, confirmed := Some(ByAdmin))];
        reports := Shoutouts.CloseReports(reports, ShoutoutTarget(s));
      } else {
        shoutouts := shoutouts[s := r.(status := AwaitingVideo)];
      }
      reply := Done;
    }

    method ExpireShoutout(s: nat) returns (reply: Reply)
      modifies this
      ensures Out(Snapshot(), reply) == Shoutouts.ExpireShoutout(old(Snapshot()), s)
      ensures MoneyInvariant.MoneyInv(old(Snapshot())) && reply == Done ==>
                MoneyPromises.GivesBack(old(Snapshot()), Snapshot(), ShoutoutItem(s), old(shoutouts)[s].fan,
                                        Shoutouts.Fees(old(shoutouts)[s].corrections))
    {
      hide MoneyInvariant.MoneyInv, MoneyPromises.GivesBack, Shoutouts.Fees;
      if MoneyInvariant.MoneyInv(Snapshot()) && s < |shoutouts| { MoneyPromises.ExpiryGivesBack(Snapshot(), s); }
      hide Post;
      if s >= |shoutouts| { return Refused(NotFound); }
      var r := shoutouts[s];
      if r.status != AwaitingVideo || r.settleAt > now { return Refused(NotExpirable); }
      if FindKey(ledger, ShoutExpire(s)).Some? { return AlreadyDone; }
      var posted := PostTransaction(ShoutExpire(s), r.price, [Plain(Escrow, -r.price), WalletLeg(r.fan, r.price)]);
      if posted.Failed? { return Raised(posted.error); }
      shoutouts := shoutouts[s := r.(status := ExpiredNoDelivery)];
      reply := Done;
    }

    // ── Payouts and top-ups ────────────────────────────────────────────────

    /** Sum and update are one transaction. */
    method CreatePayout(partner: nat, methodVerified: bool) returns (reply: Reply)
      modifies this
      ensures Out(Snapshot(), reply) == Payouts.CreatePayout(old(Snapshot()), partner, methodVerified)
      ensures MoneyInvariant.MoneyInv(old(Snapshot())) ==>
                PayoutPromises.Requests(old(Snapshot()), Snapshot(), reply, partner, methodVerified)
    {
      hide MoneyInvariant.MoneyInv, PayoutPromises.Requests;
      if MoneyInvariant.MoneyInv(Snapshot()) { PayoutPromises.CreateTakesEverythingPending(Snapshot(), partner, methodVerified); }
      if !methodVerified { return Refused(UnverifiedMethod); }
      var sum := Payouts.PendingFor(earnings, partner);
      if sum == 0 { return Refused(NothingToPay); }
      if settings.minWithdrawal.Some? && sum < settings.minWithdrawal.value { return Refused(BelowMinWithdrawal); }
      if sum < 0 { return Raised(CheckViolation); }
      var p := |payouts|;
      payouts := payouts + [PayoutRow(partner, sum, Requested, None)];
      earnings := Payouts.Include(earnings, partner, p);
      reply := Done;
    }

    method ApprovePayout(p: nat, reference: string) returns (reply: Reply)
      modifies this
      ensures Out(Snapshot(), reply) == Payouts.ApprovePayout(old(Snapshot()), p, reference)
      ensures MoneyInvariant.MoneyInv(old(Snapshot())) ==>
                PayoutPromises.Approves(old(Snapshot()), Snapshot(), reply, p, reference)
    {
      hide Post, MoneyInvariant.MoneyInv, PayoutPromises.Approves;
      if MoneyInvariant.MoneyInv(Snapshot()) { PayoutPromises.ApprovePays(Snapshot(), p, reference); }
      if p >= |payouts| || payouts[p].status != Requested { return Refused(InvalidState); }
      var utr := Payouts.NormaliseUtr(reference);
      if utr == "" { return Refused(UtrRequired); }
      if !Payouts.UtrWellFormed(utr) { return Refused(UtrInvalidFormat); }
      if Payouts.UtrTaken(payouts, utr, p) { return Refused(UtrAlreadyUsed); }
      var amount := payouts[p].amount;
      var posted := PostTransaction(Payout(p), amount, [Plain(PartnerPayable, -amount), Plain(RazorpayClearing, amount)]);
      if posted.Failed? { return Raised(posted.error); }
      payouts := payouts[p := payouts[p].(status := PayoutPaid, utr := Some(utr))];
      earnings := Payouts.MarkPaid(earnings, p);
      reply := Done;
    }

    method RejectPayout(p: nat) returns (reply: Reply)
      modifies this
      ensures Out(Snapshot(), reply) == Payouts.RejectPayout(old(Snapshot()), p)
      ensures MoneyInvariant.MoneyInv(old(Snapshot())) ==> PayoutPromises.Releases(old(Snapshot()), Snapshot(), reply, p)
    {
      hide MoneyInvariant.MoneyInv, PayoutPromises.Releases;
      if MoneyInvariant.MoneyInv(Snapshot()) { PayoutPromises.RejectReleases(Snapshot(), p); }
      if p >= |payouts| || payouts[p].status != Requested { return Refused(InvalidState); }
      payouts := payouts[p := payouts[p].(status := Rejected)];
      earnings := Payouts.Restore(earnings, p);
      reply := Done;
    }

    /** createTopup's third phase, after the order was opened at the provider. */
    method CreateTopup(fan: nat, credit: int, gst: nat, cap: Option<int>) returns (reply: Reply)
      modifies this
      ensures Out(Snapshot(), reply) == Payouts.CreateTopup(old(Snapshot()), fan, credit, gst, cap)
      ensures PayoutPromises.Opens(old(Snapshot()), Snapshot(), reply, fan, credit, gst, cap)
    {
      hide PayoutPromises.Opens;
      PayoutPromises.OpenStaysUnderCap(Snapshot(), fan, credit, gst, cap);
      if fan >= |wallets| { return Raised(NoSuchProfile); }
      if credit <= 0 { return Refused(BadAmount); }
      if cap.Some? && cap.value != 0 {
        var reserved := Payouts.Reserved(topups, fan, now);
        if wallets[fan].balance + reserved + credit > cap.value { return Refused(CapExceeded); }
      }
      topups := topups + [TopupOrder(fan, credit, gst, credit + gst, TopupPending, now)];
      reply := Done;
    }

    method VerifyTopup(t: nat) returns (reply: Reply)
      modifies this
      ensures Out(Snapshot(), reply) == Payouts.VerifyTopup(old(Snapshot()), t)
      ensures MoneyInvariant.MoneyInv(old(Snapshot())) ==> PayoutPromises.Credits(old(Snapshot()), Snapshot(), reply, t)
    {
      hide Post, MoneyInvariant.MoneyInv, PayoutPromises.Credits;
      if MoneyInvariant.MoneyInv(Snapshot()) { PayoutPromises.VerifyCredits(Snapshot(), t); }
      if t >= |topups| { return Refused(OrderNotFound); }
      var o := topups[t];
      if o.status == TopupSuccessful { return AlreadyDone; }
      var posted := PostTransaction(Topup(t), o.amount,
        [WalletLeg(o.fan, o.credit), Plain(GstPayable, o.gst), Plain(RazorpayClearing, -o.amount)]);
      if posted.Failed? { return Raised(posted.error); }
      topups := topups[t := o.(status := TopupSuccessful)];
      reply := Done;
    }

    /** handleWebhook: log the event, cross-check, settle; a throw undoes the log row. */
    method HandleWebhook(event: nat, t: nat, crossChecked: bool) returns (reply: Reply)
      modifies this
      ensures Out(Snapshot(), reply) == Payouts.Webhook(old(Snapshot()), event, t, crossChecked)
      ensures MoneyInvariant.MoneyInv(old(Snapshot())) ==>
                PayoutPromises.Captures(old(Snapshot()), Snapshot(), reply, event, t, crossChecked)
    {
      hide MoneyInvariant.MoneyInv, PayoutPromises.Captures, PayoutPromises.Credits;
      if MoneyInvariant.MoneyInv(Snapshot()) { PayoutPromises.WebhookCaptures(Snapshot(), event, t, crossChecked); }
      if event in webhooks { return AlreadyDone; }
      var saved := webhooks;
      webhooks := webhooks + {event};
      if !crossChecked {
        webhooks := saved;
        return Raised(CrossCheckFailed);
      }
      var settled := VerifyTopup(t);
      if settled.Raised? {
        webhooks := saved;
        return settled;
      }
      reply := Done;
    }

    /** Pending orders older than a day are failed; a late capture still credits them. */
    method CleanupTopups() returns (reply: Reply)
      modifies this
      ensures Out(Snapshot(), reply) == Payouts.CleanupTopups(old(Snapshot()))
      ensures PayoutPromises.FailsOldOrders(old(Snapshot()), Snapshot())
    {
      hide PayoutPromises.FailsOldOrders;
      PayoutPromises.CleanupFailsOldOrders(Snapshot());
      var ts, at := topups, now;
      topups := seq(|ts|, i requires 0 <= i < |ts| =>
                  if ts[i].status == TopupPending && ts[i].createdAt < at - 86400 then ts[i].(status := TopupFailed) else ts[i]);
      assert topups == Payouts.CleanupTopups(old(Snapshot())).db.topups;
      reply := Done;
    }

    /** A positive goodwill credit is promotional, a deduction is not. */
    method GrantCredit(fan: nat, amount: int) returns (reply: Reply)
      modifies this
      ensures Out(Snapshot(), reply) == Payouts.GrantCredit(old(Snapshot()), fan, amount)
      ensures MoneyInvariant.MoneyInv(old(Snapshot())) ==> PayoutPromises.Grants(old(Snapshot()), Snapshot(), reply, fan, amount)
    {
      hide Post, MoneyInvariant.MoneyInv, PayoutPromises.Grants;
      if MoneyInvariant.MoneyInv(Snapshot()) { PayoutPromises.GrantMoves(Snapshot(), fan, amount); }
      if amount == 0 { return Refused(ZeroAmount); }
      if fan >= |wallets| { return Refused(WalletNotFound); }
      var size := if amount < 0 then -amount else amount;
      var promotional := if amount > 0 then amount else 0;
      assert Txn(AdminCredit(|ledger|), size, [Leg(Some(fan), WalletAccount, amount, promotional), Plain(PlatformAdjustment, -amount)])
          == Payouts.GrantTxn(|ledger|, fan, amount);
      var posted := PostTransaction(AdminCredit(|ledger|), size,
        [Leg(Some(fan), WalletAccount, amount, promotional), Plain(PlatformAdjustment, -amount)]);
      if posted.Failed? { return Raised(posted.error); }
      reply := Done;
    }

    // ── The scheduled jobs ─────────────────────────────────────────────────

    method RunOnBooking(k: Sweeps.Sweep, i: nat) returns (reply: Reply)
      modifies this
      ensures Out(Snapshot(), reply) == Platform.Step(old(Snapshot()), Sweeps.WorkOn(k, BookingItem(i)))
    {
      hide Bookings.SettleBooking, Bookings.ExpireRow, Bookings.Classify;
      if k != Sweeps.ExpireBookings { reply := SettleBooking(i); }
      else if !Bookings.DueForExpiry(Snapshot(), i) { reply := Refused(NotFound); }
      else { reply := ExpireRow(i, Bookings.Classify(bookings[i])); }
    }

    method RunOnShoutout(k: Sweeps.Sweep, s: nat) returns (reply: Reply)
      modifies this
      ensures Out(Snapshot(), reply) == Platform.Step(old(Snapshot()), Sweeps.WorkOn(k, ShoutoutItem(s)))
    {
      hide Shoutouts.AutoConfirmShoutout, Shoutouts.ExpireShoutout, Shoutouts.SettleShoutout;
      if k == Sweeps.ConfirmShoutouts { reply := AutoConfirmShoutout(s); }
      else if k == Sweeps.ExpireShoutouts { reply := ExpireShoutout(s); }
      else { reply := SettleShoutout(s); }
    }

    method RunOne(k: Sweeps.Sweep, item: Item) returns (reply: Reply)
      modifies this
      ensures Out(Snapshot(), reply) == Platform.Step(old(Snapshot()), Sweeps.WorkOn(k, item))
    {
      hide Messages.ExpireWindow, Messages.SettleQuestion, Platform.StepBooking, Platform.StepShoutout;
      match item {
        case BookingItem(i) => reply := RunOnBooking(k, i);
        case WindowItem(c, w) =>
          if k == Sweeps.ExpireWindows { reply := ExpireWindow(c, w); } else { reply := SettleWindow(c, w); }
        case ShoutoutItem(s) => reply := RunOnShoutout(k, s);
        case _ => reply := Done;
      }
    }

    /** forEachId: one transaction per id; a raised item is counted and skipped. The
        ids may be stale. */
    method ForEachId(k: Sweeps.Sweep, items: seq<Item>) returns (ok: nat, failed: nat)
      modifies this
      ensures Sweeps.Tally(Snapshot(), ok, failed) == Sweeps.ForEachId(old(Snapshot()), k, items)
    {
      hide Sweeps.ForEachId, Sweeps.WorkOn, Platform.Step;
      ok, failed := 0, 0;
      Sweeps.EmptyBatch(Snapshot(), k);
      for i := 0 to |items|
        invariant Sweeps.Tally(Snapshot(), ok, failed) == Sweeps.ForEachId(old(Snapshot()), k, items[..i])
      {
        Sweeps.BatchStep(old(Snapshot()), k, items, i);
        var reply := RunOne(k, items[i]);
        if reply.Raised? { failed := failed + 1; } else { ok := ok + 1; }
      }
      assert items[..|items|] == items;
    }

    /** The settle job: day-end expiry first, then every sweep on the ids its query
        lists when it starts. */
    method RunSettleJob(batches: seq<seq<Item>>)
      requires |batches| == |Sweeps.SETTLE_JOB| && Sweeps.BatchesListed(Snapshot(), Sweeps.SETTLE_JOB, batches)
      modifies this
      ensures Snapshot() == Sweeps.RunPhases(old(Snapshot()), Sweeps.SETTLE_JOB, batches)
    {
      hide Sweeps.ForEachId, Sweeps.IsBatch, Sweeps.DueSet;
      Sweeps.JobUnfolds(Snapshot(), batches);
      Sweeps.BatchIsDue(Snapshot(), Sweeps.ExpireBookings, batches[0]);
      var counts, failed := ProcessEndOfDay(batches[0]);
      var b, bFailed := ForEachId(Sweeps.SettleBookings, batches[1]);
      var w, wFailed := ForEachId(Sweeps.SettleWindows, batches[2]);
      var c, cFailed := ForEachId(Sweeps.ConfirmShoutouts, batches[3]);
      var e, eFailed := ForEachId(Sweeps.ExpireShoutouts, batches[4]);
      var s, sFailed := ForEachId(Sweeps.SettleShoutouts, batches[5]);
    }
  }

  /** How many of the listed bookings the query gives a status. */
  function Classified(rows: seq<Booking>, items: seq<Item>, status: BookingStatus): nat
  {
    if |items| == 0 then 0
    else
      var n := |items| - 1;
      Classified(rows, items[..n], status)
      + if items[n].BookingItem? && items[n].booking < |rows| && Bookings.Classify(rows[items[n].booking]) == status
        then 1 else 0
  }
}
