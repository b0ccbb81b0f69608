/** Booking RPCs keep the money invariant. */
module BookingMoney {
  import opened Schema
  import opened Ledger
  import opened Tables
  import opened Bookings
  import opened Calls
  import opened MoneyInvariant
  import opened MoneyFrames

  /** A change of a booking that leaves its money columns and its unwound/paid
      state alone. */
  lemma BookingRewritten(db: Db, next: Db, i: nat)
    requires MoneyInv(db) && i < |db.bookings|
    requires next == db.(bookings := next.bookings, slots := next.slots, audit := next.audit)
    requires |next.bookings| == |db.bookings|
    requires forall j :: 0 <= j < |db.bookings| && j != i ==> next.bookings[j] == db.bookings[j]
    requires var a, b := db.bookings[i], next.bookings[i];
      && b.fan == a.fan && b.price == a.price && b.original == a.original && b.discount == a.discount
      && b.minutes == a.minutes
      && (b.status == a.status
          || (!IsUnwound(a.status) && !IsUnwound(b.status) && PaidFor(db.earnings, BookingItem(i)).None?)
          || (IsExpired(a.status) && IsExpired(b.status))
          || (a.status == Completed && b.status == Completed))
    ensures MoneyInv(next)
  {
    hide HasKey, ItemFlow, LegSum, PaidFor, BankOk, EarningsOk, KeysOwned, TopupsOk, PayoutsOk, GrantsOk, WindowsOk, ShoutoutsOk;
    assert BookingOk(db, i);
    EarningsKept(db, next);
    BookingTouched(db, next, i);
  }

  lemma BookTxnSum(id: nat, fan: nat, q: Quote)
    ensures forall sel ::
      LegSum(BookTxn(id, fan, q).legs, sel) == Weight(WalletLeg(fan, -(q.base - q.discount)), sel) + Weight(Plain(Escrow, q.base), sel)
         + if q.discount > 0 then Weight(Plain(PromoIncentive, -q.discount), sel) else 0
  {
    var a, b := WalletLeg(fan, -(q.base - q.discount)), Plain(Escrow, q.base);
    PairSum(a, b);
    TripleSum(a, b, Plain(PromoIncentive, -q.discount));
  }

  lemma UnwindTxnSum(key: Key, b: Booking)
    ensures forall sel ::
      LegSum(UnwindTxn(key, b).legs, sel) == Weight(Plain(Escrow, -b.original), sel) + Weight(WalletLeg(b.fan, b.price), sel)
         + if b.discount > 0 then Weight(Plain(PromoIncentive, b.discount), sel) else 0
  {
    var x, y := Plain(Escrow, -b.original), WalletLeg(b.fan, b.price);
    PairSum(x, y);
    TripleSum(x, y, Plain(PromoIncentive, b.discount));
  }

  lemma BookedRowOk(db: Db, next: Db, fan: nat, q: Quote)
    requires var id := |db.bookings|; var t := BookTxn(id, fan, q);
      && Moved(db, next, t) && LegSum(t.legs, AllLegs) == 0
      && (forall sel :: ItemFlow(db.bank.ledger, BookingItem(id), sel) == 0)
      && (forall key :: HasKey(db.bank.ledger, key) ==> Owner(key) != BookingItem(id))
      && PaidFor(next.earnings, BookingItem(id)).None?
      && |next.bookings| == id + 1
      && var b := next.bookings[id];
         b.fan == fan < |next.bank.wallets| && b.price == q.base - q.discount > 0 && b.original == q.base
         && b.discount == q.discount && b.status == Booked && b.minutes > 0
    ensures BookingOk(next, |db.bookings|)
  {
    hide HasKey, ItemFlow, LegSum, PaidFor;
    BookTxnSum(|db.bookings|, fan, q);
  }

  lemma BookCallKeepsMoney(db: Db, fan: nat, partner: nat, date: int, minutes: Minutes, quote: Option<Quote>)
    requires MoneyInv(db)
    ensures MoneyInv(BookCall(db, fan, partner, date, minutes, quote).db)
  {
    hide HasKey, ItemFlow, LegSum, PaidFor, BankOk, EarningsOk, KeysOwned, TopupsOk, PayoutsOk, GrantsOk, WindowsOk, ShoutoutsOk;
    var out := BookCall(db, fan, partner, date, minutes, quote);
    if out.reply == Done {
      var t := BookTxn(|db.bookings|, fan, quote.value);
      FreshItem(db, BookingItem(|db.bookings|));
      BookTxnSum(|db.bookings|, fan, quote.value);
      FreshStep(db, t, out.db);
      BookedRowOk(db, out.db, fan, quote.value);
      BookingTouched(db, out.db, |db.bookings|);
    }
  }

  lemma UnwoundRowOk(db: Db, next: Db, id: nat, key: Key, status: BookingStatus)
    requires id < |db.bookings| && BookingOk(db, id)
    requires !IsUnwound(db.bookings[id].status) && PaidFor(db.earnings, BookingItem(id)).None?
    requires (key == Refund(id) && status == CancelledByFan)
          || (key in {Expire(id), AdminExpire(id)} && IsExpired(status))
    requires Moved(db, next, UnwindTxn(key, db.bookings[id]))
    requires PaidFor(next.earnings, BookingItem(id)).None? && |next.bank.wallets| == |db.bank.wallets|
    requires id < |next.bookings| && next.bookings[id] == db.bookings[id].(status := status)
    ensures BookingOk(next, id)
  {
    hide HasKey, ItemFlow, LegSum, PaidFor;
    var b := db.bookings[id];
    UnwindTxnSum(key, b);
    assert Owner(key) == BookingItem(id);
    forall sel
      ensures ItemFlow(next.bank.ledger, BookingItem(id), sel) == BookingFlow(next.bookings[id], None, sel)
    {
      assert ItemFlow(db.bank.ledger, BookingItem(id), sel) == BookingFlow(b, None, sel);
    }
  }

  lemma UnwindEffect(db: Db, id: nat, key: Key, status: BookingStatus)
    requires id < |db.bookings| && BookingOk(db, id) && BankOk(db.bank) && EarningsOk(db)
    requires !IsUnwound(db.bookings[id].status) && PaidFor(db.earnings, BookingItem(id)).None?
    requires (key == Refund(id) && status == CancelledByFan)
          || (key in {Expire(id), AdminExpire(id)} && IsExpired(status))
    ensures !HasKey(db.bank.ledger, key)
    ensures Unwind(db, id, key, status).reply == Done
    ensures BookingStep(db, Unwind(db, id, key, status).db, id)
    ensures Moved(db, Unwind(db, id, key, status).db, UnwindTxn(key, db.bookings[id]))
  {
    hide BankOk, EarningsOk, HasKey, ItemFlow, LegSum, PaidFor;
    var t := UnwindTxn(key, db.bookings[id]);
    UnwindSucceeds(db, id, key);
    UnwindTxnSum(key, db.bookings[id]);
    var next := Unwind(db, id, key, status).db;
    FreshStep(db, t, next);
    UnwoundRowOk(db, next, id, key, status);
  }

  /** Unwinding a booking that still holds its escrow, under an unused key. */
  lemma UnwindKeepsMoney(db: Db, id: nat, key: Key, status: BookingStatus)
    requires MoneyInv(db) && id < |db.bookings|
    requires !IsUnwound(db.bookings[id].status) && PaidFor(db.earnings, BookingItem(id)).None?
    requires (key == Refund(id) && status == CancelledByFan)
          || (key in {Expire(id), AdminExpire(id)} && IsExpired(status))
    ensures Unwind(db, id, key, status).reply == Done
    ensures MoneyInv(Unwind(db, id, key, status).db)
    ensures !HasKey(db.bank.ledger, key)
  {
    hide HasKey, ItemFlow, LegSum, PaidFor, BankOk, EarningsOk, KeysOwned, TopupsOk, PayoutsOk, GrantsOk, WindowsOk, ShoutoutsOk;
    assert BookingOk(db, id);
    UnwindEffect(db, id, key, status);
    BookingTouched(db, Unwind(db, id, key, status).db, id);
  }

  lemma UnwindSucceeds(db: Db, id: nat, key: Key)
    requires BankOk(db.bank) && id < |db.bookings| && BookingOk(db, id)
    requires !IsUnwound(db.bookings[id].status) && PaidFor(db.earnings, BookingItem(id)).None?
    requires key in {Refund(id), Expire(id), AdminExpire(id)}
    ensures Post(db.bank, UnwindTxn(key, db.bookings[id])).Posted? && !HasKey(db.bank.ledger, key)
  {
    var t := UnwindTxn(key, db.bookings[id]);
    UnwindTxnSum(key, db.bookings[id]);
    assert LegSum(t.legs, AllLegs) == 0;
    UnwindApplies(db, t, db.bookings[id]);
  }

  /** Crediting an existing wallet cannot fail. */
  lemma UnwindApplies(db: Db, t: Txn, b: Booking)
    requires BankOk(db.bank) && b.fan < |db.bank.wallets| && b.price > 0
    requires t == UnwindTxn(t.key, b)
    ensures WalletsExist(db.bank.wallets, t.legs) && ApplyLegs(db.bank.wallets, t.legs).Some?
  {
    var x, y, z := Plain(Escrow, -b.original), WalletLeg(b.fan, b.price), Plain(PromoIncentive, b.discount);
    var ws := db.bank.wallets;
    assert WalletOk(db.bank.ledger, ws, b.fan);
    assert [x, y][..1] == [x] && [x][..0] == [] && [x, y, z][..2] == [x, y];
    assert ApplyLegs(ws, [x]) == Some(ws);
    assert ApplyLegs(ws, [x, y]).Some?;
  }

  lemma RefundKeepsMoney(db: Db, id: nat)
    requires MoneyInv(db)
    ensures MoneyInv(RefundBooking(db, id).db)
  {
    hide HasKey, ItemFlow, LegSum, PaidFor, BankOk, EarningsOk, KeysOwned, TopupsOk, PayoutsOk, GrantsOk, WindowsOk, ShoutoutsOk;
    if id < |db.bookings| && db.bookings[id].status == Booked {
      assert BookingOk(db, id);
      UnwindKeepsMoney(db, id, Refund(id), CancelledByFan);
    }
  }

  lemma ExpireKeepsMoney(db: Db, id: nat)
    requires MoneyInv(db)
    ensures MoneyInv(ExpireBooking(db, id).db)
    ensures DueForExpiry(db, id) ==> ExpireBooking(db, id).reply == Done
  {
    hide HasKey, ItemFlow, LegSum, PaidFor, BankOk, EarningsOk, KeysOwned, TopupsOk, PayoutsOk, GrantsOk, WindowsOk, ShoutoutsOk;
    if DueForExpiry(db, id) {
      assert BookingOk(db, id);
      var status := Classify(db.bookings[id]);
      if IsExpired(status) {
        UnwindKeepsMoney(db, id, Expire(id), status);
      } else {
        BookingRewritten(db, ExpireBooking(db, id).db, id);
      }
    }
  }

  lemma SettledRowOk(db: Db, next: Db, id: nat)
    requires id < |db.bookings| && BookingOk(db, id) && db.bookings[id].status == Completed
    requires PaidFor(db.earnings, BookingItem(id)).None?
    requires PaidOut(db, next, BookingItem(id), Settle(id), db.bookings[id].original)
    ensures BookingOk(next, id)
  {
    var b := db.bookings[id];
    forall sel
      ensures ItemFlow(next.bank.ledger, BookingItem(id), sel) == BookingFlow(b, Some(b.original), sel)
    {
      assert ItemFlow(db.bank.ledger, BookingItem(id), sel) == BookingFlow(b, None, sel);
    }
  }

  lemma SettleBookingEffect(db: Db, id: nat)
    requires id < |db.bookings| && BookingOk(db, id) && BankOk(db.bank) && EarningsOk(db)
    requires db.bookings[id].status == Completed
    requires !OpenCallReport(db.reports, id) && !Earned(db, BookingItem(id))
    ensures SettleBooking(db, id).reply == Done && BookingStep(db, SettleBooking(db, id).db, id)
  {
    hide BankOk, EarningsOk, HasKey, ItemFlow, LegSum, PaidFor;
    var b := db.bookings[id];
    PayPartnerEffect(db, BookingItem(id), b.partner, Settle(id), b.original);
    SettledRowOk(db, SettleBooking(db, id).db, id);
  }

  lemma SettleBookingKeepsMoney(db: Db, id: nat)
    requires MoneyInv(db)
    ensures MoneyInv(SettleBooking(db, id).db)
    ensures !SettleBooking(db, id).reply.Raised?
  {
    hide HasKey, ItemFlow, LegSum, PaidFor, BankOk, EarningsOk, KeysOwned, TopupsOk, PayoutsOk, GrantsOk, WindowsOk, ShoutoutsOk;
    if id < |db.bookings| && db.bookings[id].status == Completed && !OpenCallReport(db.reports, id)
       && !Earned(db, BookingItem(id)) {
      assert BookingOk(db, id);
      SettleBookingEffect(db, id);
      BookingTouched(db, SettleBooking(db, id).db, id);
    }
  }

  /** After a split both shares have left escrow and no key is spent twice. */
  lemma SplitRowOk(db: Db, paid: Db, next: Db, id: nat, share: int, refund: int)
    requires id < |db.bookings| && BookingOk(db, id) && db.bookings[id].status == RequiresAdminReview
    requires PaidFor(db.earnings, BookingItem(id)).None?
    requires 1 <= share && 0 <= refund && share + refund == db.bookings[id].original
    requires PaidOut(db, paid, BookingItem(id), PartialSettle(id), share)
    requires if refund > 0 then Moved(paid, next, PartialRefundTxn(id, db.bookings[id].fan, refund))
             else next.bank == paid.bank
    requires next.earnings == paid.earnings && |next.bank.wallets| == |db.bank.wallets|
    requires id < |next.bookings| && next.bookings[id] == db.bookings[id].(status := Completed)
    ensures BookingOk(next, id)
  {
    hide HasKey, ItemFlow, LegSum, PaidFor;
    var b := db.bookings[id];
    PairSum(Plain(Escrow, -refund), WalletLeg(b.fan, refund));
    assert Owner(PartialRefundTxn(id, b.fan, refund).key) == BookingItem(id);
    forall sel
      ensures ItemFlow(next.bank.ledger, BookingItem(id), sel) == BookingFlow(next.bookings[id], Some(share), sel)
    {
      assert ItemFlow(db.bank.ledger, BookingItem(id), sel) == BookingFlow(b, None, sel);
    }
  }

  lemma RefundShareStep(db: Db, paid: Db, id: nat, share: int, refund: int)
    requires id < |db.bookings| && BookingOk(db, id) && PaidFor(db.earnings, BookingItem(id)).None?
    requires db.bookings[id].status == RequiresAdminReview
    requires share > 0 && refund >= 0 && share + refund == db.bookings[id].original
    requires paid == PayPartner(db, BookingItem(id), db.bookings[id].partner, PartialSettle(id), share).db
    requires PayPartner(db, BookingItem(id), db.bookings[id].partner, PartialSettle(id), share).reply == Done
    requires PaidOut(db, paid, BookingItem(id), PartialSettle(id), share)
    requires OneItem(db, paid, BookingItem(id))
    ensures var out := ResolvePartial(db, id, share, refund);
      && out.reply == Done
      && out.db == MarkResolved(paid.(bank := out.db.bank), id)
      && (if refund > 0 then Moved(paid, out.db, PartialRefundTxn(id, db.bookings[id].fan, refund))
          else out.db.bank == paid.bank)
      && OneItem(db, out.db, BookingItem(id)) && paid.bank.ledger <= out.db.bank.ledger
  {
    hide BankOk, EarningsOk, HasKey, ItemFlow, LegSum, PaidFor;
    var next := ResolvePartial(db, id, share, refund).db;
    if refund > 0 {
      var t := PartialRefundTxn(id, db.bookings[id].fan, refund);
      CreditPosts(paid, t, db.bookings[id].fan, refund);
      FreshStep(paid, t, next);
    } else {
      EarningsKept(paid, next);
    }
  }

  lemma ResolvedRow(db: Db, paid: Db, id: nat, share: int, refund: int)
    requires id < |db.bookings| && BookingOk(db, id) && PaidFor(db.earnings, BookingItem(id)).None?
    requires db.bookings[id].status == RequiresAdminReview
    requires share > 0 && refund >= 0 && share + refund == db.bookings[id].original
    requires paid == PayPartner(db, BookingItem(id), db.bookings[id].partner, PartialSettle(id), share).db
    requires PayPartner(db, BookingItem(id), db.bookings[id].partner, PartialSettle(id), share).reply == Done
    requires paid == db.(bank := paid.bank, earnings := paid.earnings)
    requires PaidOut(db, paid, BookingItem(id), PartialSettle(id), share)
    requires OneItem(db, paid, BookingItem(id))
    ensures var out := ResolvePartial(db, id, share, refund);
      && out.reply == Done
      && out.db == db.(bank := out.db.bank, earnings := paid.earnings, bookings := out.db.bookings, audit := out.db.audit)
      && out.db.bookings == db.bookings[id := db.bookings[id].(status := Completed)]
      && BookingOk(out.db, id)
      && OneItem(db, out.db, BookingItem(id)) && paid.bank.ledger <= out.db.bank.ledger
  {
    hide BankOk, EarningsOk, HasKey, ItemFlow, LegSum, PaidFor;
    RefundShareStep(db, paid, id, share, refund);
    SplitRowOk(db, paid, ResolvePartial(db, id, share, refund).db, id, share, refund);
  }

  lemma ResolvePartialKeepsMoney(db: Db, id: nat, share: int, refund: int)
    requires MoneyInv(db) && 1 <= share && 0 <= refund
    ensures MoneyInv(ResolvePartial(db, id, share, refund).db)
    ensures !ResolvePartial(db, id, share, refund).reply.Raised?
  {
    hide HasKey, ItemFlow, LegSum, PaidFor, BankOk, EarningsOk, KeysOwned, TopupsOk, PayoutsOk, GrantsOk, WindowsOk, ShoutoutsOk;
    if id < |db.bookings| && db.bookings[id].status == RequiresAdminReview
       && share + refund == db.bookings[id].original && !Earned(db, BookingItem(id)) {
      assert BookingOk(db, id);
      var b := db.bookings[id];
      PayPartnerEffect(db, BookingItem(id), b.partner, PartialSettle(id), share);
      var paid := PayPartner(db, BookingItem(id), b.partner, PartialSettle(id), share).db;
      ResolvedRow(db, paid, id, share, refund);
      BookingTouched(db, ResolvePartial(db, id, share, refund).db, id);
    }
  }

  /** The row still holds its escrow, or the call asks for the state it is in. */
  predicate AdminExpireIsSafe(db: Db, id: nat, status: BookingStatus) {
    id < |db.bookings| && (status == Completed || IsExpired(status)) ==>
      || (!IsUnwound(db.bookings[id].status) && !Earned(db, BookingItem(id)))
      || (status == Completed && db.bookings[id].status == Completed)
      || (IsExpired(status) && HasKey(db.bank.ledger, AdminExpire(id)))
  }

  lemma AdminExpireKeepsMoney(db: Db, id: nat, status: BookingStatus)
    requires MoneyInv(db) && AdminExpireIsSafe(db, id, status)
    ensures MoneyInv(AdminExpireBooking(db, id, status).db)
  {
    hide HasKey, ItemFlow, LegSum, PaidFor, BankOk, EarningsOk, KeysOwned, TopupsOk, PayoutsOk, GrantsOk, WindowsOk, ShoutoutsOk;
    if id < |db.bookings| && (status == Completed || IsExpired(status)) {
      assert BookingOk(db, id);
      var b := db.bookings[id];
      var next := AdminExpireBooking(db, id, status).db;
      if status == Completed {
        BookingRewritten(db, next, id);
      } else if HasKey(db.bank.ledger, AdminExpire(id)) {
        UnwindTxnSum(AdminExpire(id), b);
        BookingRewritten(db, next, id);
      } else {
        UnwindKeepsMoney(db, id, AdminExpire(id), status);
        var mid := Unwind(db, id, AdminExpire(id), status).db;
        BookingRewritten(mid, next, id);
      }
    }
  }

  /** Call steps rewrite one booking and move no money. */
  lemma CallStepKeepsMoney(db: Db, next: Db, id: nat)
    requires MoneyInv(db) && id < |db.bookings|
    requires next == db.(bookings := next.bookings)
    requires |next.bookings| == |db.bookings|
    requires forall j :: 0 <= j < |db.bookings| && j != id ==> next.bookings[j] == db.bookings[j]
    requires var a, b := db.bookings[id], next.bookings[id];
      b == a.(status := b.status, fanReady := b.fanReady, calls := b.calls)
      && (b.status == a.status || (a.status == Booked && b.status == Completed))
    ensures MoneyInv(next)
  {
    hide HasKey, ItemFlow, LegSum, PaidFor, BankOk, EarningsOk, KeysOwned, TopupsOk, PayoutsOk, GrantsOk, WindowsOk, ShoutoutsOk;
    assert BookingOk(db, id);
    BookingRewritten(db, next, id);
  }

  lemma SweepRingsKeepsMoney(db: Db)
    requires MoneyInv(db)
    ensures MoneyInv(SweepRings(db).db)
  {
    hide BankOk, EarningsOk, TopupsOk, PayoutsOk, WindowsOk, ShoutoutsOk;
    var next := SweepRings(db).db;
    forall i | 0 <= i < |next.bookings| ensures BookingOk(next, i) { assert BookingOk(db, i); }
    var none := GrantItem(0);
    assert Confined(db, next, none);
    WindowsKept(db, next, none);
    ShoutoutsKept(db, next, none);
    TopupsKept(db, next, none);
    PayoutsKept(db, next, none);
    EarningsKept(db, next);
    assert KeysOwned(next) by {
      forall key | HasKey(next.bank.ledger, key) ensures ItemExists(next, Owner(key)) {
        assert ItemExists(db, Owner(key));
      }
    }
  }
}
