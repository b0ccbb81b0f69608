/** Payouts, top-ups, goodwill credit and new wallets keep the money invariant. */
module PayoutMoney {
  import opened Schema
  import opened Ledger
  import opened Tables
  import opened Messages
  import opened Payouts
  import opened MoneyInvariant
  import opened MoneyFrames

  // ── Sums over earnings ───────────────────────────────────────────────────

  /** The same earnings, each perhaps at another point of its payout life. */
  predicate SameEarnings(es: seq<Earning>, fs: seq<Earning>) {
    && |fs| == |es|
    && forall i :: 0 <= i < |es| ==> fs[i] == es[i].(status := fs[i].status, payout := fs[i].payout)
  }

  lemma {:induction false} SameEarningsPay(es: seq<Earning>, fs: seq<Earning>, service: Item)
    requires SameEarnings(es, fs)
    ensures PaidFor(fs, service) == PaidFor(es, service)
  {
    if |es| > 0 { SameEarningsPay(es[..|es| - 1], fs[..|fs| - 1], service); }
  }

  lemma {:induction false} PayoutSumSame(es: seq<Earning>, fs: seq<Earning>, p: nat)
    requires SameEarnings(es, fs)
    requires forall i :: 0 <= i < |es| ==> (fs[i].payout == Some(p) <==> es[i].payout == Some(p))
    ensures PayoutSum(fs, p) == PayoutSum(es, p)
  {
    if |es| > 0 { PayoutSumSame(es[..|es| - 1], fs[..|fs| - 1], p); }
  }

  lemma {:induction false} OwedSame(es: seq<Earning>, fs: seq<Earning>)
    requires SameEarnings(es, fs)
    requires forall i :: 0 <= i < |es| ==> (fs[i].status == EarningPaid <==> es[i].status == EarningPaid)
    ensures Owed(fs) == Owed(es)
  {
    if |es| > 0 { OwedSame(es[..|es| - 1], fs[..|fs| - 1]); }
  }

  /** A payout's amount is the sum of exactly the earnings it takes in. */
  lemma {:induction false} IncludedSum(es: seq<Earning>, partner: nat, p: nat)
    requires forall i :: 0 <= i < |es| ==> es[i].payout != Some(p)
    ensures PayoutSum(Include(es, partner, p), p) == PendingFor(es, partner)
  {
    if |es| > 0 {
      var init := es[..|es| - 1];
      IncludedSum(init, partner, p);
      assert Include(es, partner, p)[..|es| - 1] == Include(init, partner, p);
    }
  }

  lemma {:induction false} PaidOutOwed(es: seq<Earning>, p: nat)
    requires forall i :: 0 <= i < |es| && es[i].payout == Some(p) ==> es[i].status == InPayout
    ensures Owed(MarkPaid(es, p)) == Owed(es) - PayoutSum(es, p)
  {
    if |es| > 0 {
      var init := es[..|es| - 1];
      PaidOutOwed(init, p);
      assert MarkPaid(es, p)[..|es| - 1] == MarkPaid(init, p);
    }
  }

  lemma {:induction false} NothingNamed(es: seq<Earning>, p: nat)
    requires forall i :: 0 <= i < |es| ==> es[i].payout != Some(p)
    ensures PayoutSum(es, p) == 0
  {
    if |es| > 0 { NothingNamed(es[..|es| - 1], p); }
  }

  // ── A step on one payout ─────────────────────────────────────────────────

  ghost predicate PayoutStep(db: Db, next: Db, p: nat) {
    && Confined(db, next, PayoutItem(p)) && BankOk(next.bank) && EarningsOk(next)
    && db.bank.ledger <= next.bank.ledger
    && next.bookings == db.bookings && next.conversations == db.conversations
    && next.shoutouts == db.shoutouts && next.topups == db.topups
    && |db.payouts| <= |next.payouts| && p < |next.payouts|
    && (forall q :: 0 <= q < |next.payouts| && q != p ==>
          && q < |db.payouts| && next.payouts[q] == db.payouts[q]
          && PayoutSum(next.earnings, q) == PayoutSum(db.earnings, q))
    && PayoutOk(next, p) && UtrsDistinct(next.payouts)
  }

  lemma PayoutTouched(db: Db, next: Db, p: nat)
    requires MoneyInv(db) && PayoutStep(db, next, p)
    ensures MoneyInv(next)
  {
    hide BankOk, EarningsOk;
    var item := PayoutItem(p);
    forall q | 0 <= q < |next.payouts| ensures PayoutOk(next, q) {
      if q != p {
        var row := next.payouts[q];
        assert q < |db.payouts| && row == db.payouts[q];
        assert PayoutOk(db, q);
      }
    }
    BookingsKept(db, next, item);
    WindowsKept(db, next, item);
    ShoutoutsKept(db, next, item);
    TopupsKept(db, next, item);
    GrantsKept(db, next, item);
    KeysStayOwned(db, next, item);
  }

  lemma PayoutConfined(db: Db, next: Db, p: nat)
    requires SameEarnings(db.earnings, next.earnings)
    requires next.bank == db.bank
    ensures Confined(db, next, PayoutItem(p))
  {
    forall x { SameEarningsPay(db.earnings, next.earnings, x); }
  }

  lemma CreatedEarnings(db: Db, next: Db, partner: nat, amount: int)
    requires EarningsOk(db) && next.bank == db.bank
    requires next.payouts == db.payouts + [PayoutRow(partner, amount, Requested, None)]
    requires next.earnings == Include(db.earnings, partner, |db.payouts|)
    ensures EarningsOk(next) && SameEarnings(db.earnings, next.earnings)
    ensures forall q: nat :: q != |db.payouts| ==> PayoutSum(next.earnings, q) == PayoutSum(db.earnings, q)
    ensures PayoutSum(next.earnings, |db.payouts|) == PendingFor(db.earnings, partner)
  {
    hide Flow, PayoutSum, Owed, PendingFor;
    var p := |db.payouts|;
    forall i | 0 <= i < |db.earnings|
      ensures EarningOk(next, i)
      ensures db.earnings[i].payout != Some(p)
      ensures next.earnings[i].status == EarningPaid <==> db.earnings[i].status == EarningPaid
    { assert EarningOk(db, i); }
    OwedSame(db.earnings, next.earnings);
    IncludedSum(db.earnings, partner, p);
    forall q: nat | q != p ensures PayoutSum(next.earnings, q) == PayoutSum(db.earnings, q) {
      forall i | 0 <= i < |db.earnings|
        ensures next.earnings[i].payout == Some(q) <==> db.earnings[i].payout == Some(q)
      { assert EarningOk(db, i); }
      PayoutSumSame(db.earnings, next.earnings, q);
    }
  }

  lemma CreatePayoutKeepsMoney(db: Db, partner: nat, verified: bool)
    requires MoneyInv(db)
    ensures MoneyInv(CreatePayout(db, partner, verified).db)
    ensures !CreatePayout(db, partner, verified).reply.Raised? || PendingFor(db.earnings, partner) < 0
  {
    hide HasKey, ItemFlow, LegSum, PaidFor, BankOk, EarningsOk, KeysOwned, TopupsOk, GrantsOk, BookingsOk, WindowsOk, ShoutoutsOk;
    var out := CreatePayout(db, partner, verified);
    if out.reply == Done {
      var p := |db.payouts|;
      FreshItem(db, PayoutItem(p));
      CreatedEarnings(db, out.db, partner, PendingFor(db.earnings, partner));
      PayoutConfined(db, out.db, p);
      CreatedRowOk(db, out.db);
      PayoutTouched(db, out.db, p);
    }
  }

  lemma CreatedRowOk(db: Db, next: Db)
    requires next.bank == db.bank && |next.payouts| == |db.payouts| + 1
    requires forall sel :: ItemFlow(db.bank.ledger, PayoutItem(|db.payouts|), sel) == 0
    requires forall key :: HasKey(db.bank.ledger, key) ==> Owner(key) != PayoutItem(|db.payouts|)
    requires var row := next.payouts[|db.payouts|];
      row.amount > 0 && row.status == Requested && row.utr.None? && row.amount == PayoutSum(next.earnings, |db.payouts|)
    ensures PayoutOk(next, |db.payouts|)
  {
  }

  lemma RejectedEarnings(db: Db, next: Db, p: nat)
    requires EarningsOk(db) && next.bank == db.bank && p < |db.payouts| && db.payouts[p].status == Requested
    requires next.payouts == db.payouts[p := db.payouts[p].(status := Rejected)]
    requires next.earnings == Restore(db.earnings, p)
    ensures EarningsOk(next) && SameEarnings(db.earnings, next.earnings)
    ensures forall q: nat :: q != p ==> PayoutSum(next.earnings, q) == PayoutSum(db.earnings, q)
  {
    hide Flow, PayoutSum, Owed;
    forall i | 0 <= i < |db.earnings|
      ensures EarningOk(next, i)
      ensures next.earnings[i].status == EarningPaid <==> db.earnings[i].status == EarningPaid
    { assert EarningOk(db, i); }
    OwedSame(db.earnings, next.earnings);
    forall q: nat | q != p ensures PayoutSum(next.earnings, q) == PayoutSum(db.earnings, q) {
      PayoutSumSame(db.earnings, next.earnings, q);
    }
  }

  lemma RejectPayoutKeepsMoney(db: Db, p: nat)
    requires MoneyInv(db)
    ensures MoneyInv(RejectPayout(db, p).db)
  {
    hide HasKey, ItemFlow, LegSum, PaidFor, BankOk, EarningsOk, KeysOwned, TopupsOk, GrantsOk, BookingsOk, WindowsOk, ShoutoutsOk;
    var out := RejectPayout(db, p);
    if out.reply == Done {
      assert PayoutOk(db, p);
      RejectedEarnings(db, out.db, p);
      PayoutConfined(db, out.db, p);
      PayoutTouched(db, out.db, p);
    }
  }

  lemma ApprovedEarnings(db: Db, next: Db, p: nat, row: PayoutRow)
    requires EarningsOk(db) && db.bank.ledger <= next.bank.ledger && p < |db.payouts|
    requires db.payouts[p].status == Requested && db.payouts[p].amount == PayoutSum(db.earnings, p)
    requires Flow(next.bank.ledger, OnAccount(PartnerPayable))
          == Flow(db.bank.ledger, OnAccount(PartnerPayable)) - db.payouts[p].amount
    requires next.payouts == db.payouts[p := row] && row.partner == db.payouts[p].partner && row.status == PayoutPaid
    requires next.earnings == MarkPaid(db.earnings, p)
    ensures EarningsOk(next) && SameEarnings(db.earnings, next.earnings)
    ensures forall q: nat :: PayoutSum(next.earnings, q) == PayoutSum(db.earnings, q)
  {
    hide Flow, PayoutSum, Owed;
    forall i | 0 <= i < |db.earnings|
      ensures EarningOk(next, i)
      ensures db.earnings[i].payout == Some(p) ==> db.earnings[i].status == InPayout
    { assert EarningOk(db, i); }
    PaidOutOwed(db.earnings, p);
    forall q: nat ensures PayoutSum(next.earnings, q) == PayoutSum(db.earnings, q) {
      PayoutSumSame(db.earnings, next.earnings, q);
    }
  }

  lemma ApprovedRowOk(db: Db, next: Db, p: nat, utr: string)
    requires p < |db.payouts| && PayoutOk(db, p) && db.payouts[p].status == Requested
    requires Moved(db, next, PayoutTxn(p, db.payouts[p].amount)) && UtrWellFormed(utr)
    requires p < |next.payouts| && next.payouts[p] == db.payouts[p].(status := PayoutPaid, utr := Some(utr))
    requires PayoutSum(next.earnings, p) == PayoutSum(db.earnings, p)
    ensures PayoutOk(next, p)
  {
    var amount := db.payouts[p].amount;
    PairSum(Plain(PartnerPayable, -amount), Plain(RazorpayClearing, amount));
    assert Owner(PayoutTxn(p, amount).key) == PayoutItem(p);
    forall sel
      ensures ItemFlow(next.bank.ledger, PayoutItem(p), sel) == PayoutFlow(next.payouts[p], sel)
    {
      assert ItemFlow(db.bank.ledger, PayoutItem(p), sel) == PayoutFlow(db.payouts[p], sel);
    }
  }

  /** The unused-reference test is what keeps references distinct. */
  lemma UtrsStayDistinct(ps: seq<PayoutRow>, p: nat, row: PayoutRow)
    requires UtrsDistinct(ps) && p < |ps| && row.utr.Some? && !UtrTaken(ps, row.utr.value, p)
    ensures UtrsDistinct(ps[p := row])
  {
    var qs := ps[p := row];
    forall i, j | 0 <= i < j < |qs| && qs[i].utr.Some? ensures qs[i].utr != qs[j].utr {
      assert i != p ==> ps[i].utr != row.utr;
      assert j != p ==> ps[j].utr != row.utr;
    }
  }

  lemma ApproveEffect(db: Db, p: nat, reference: string)
    requires p < |db.payouts| && PayoutOk(db, p) && UtrsDistinct(db.payouts) && BankOk(db.bank) && EarningsOk(db)
    requires ApprovePayout(db, p, reference).reply == Done
    ensures PayoutStep(db, ApprovePayout(db, p, reference).db, p)
  {
    hide BankOk, EarningsOk, HasKey, ItemFlow, LegSum, PaidFor, UtrTaken, UtrsDistinct;
    var next := ApprovePayout(db, p, reference).db;
    var amount := db.payouts[p].amount;
    var a, b := Plain(PartnerPayable, -amount), Plain(RazorpayClearing, amount);
    var t := PayoutTxn(p, amount);
    PlainPosts(db.bank, t, a, b);
    FreshPost(db.bank, t);
    ApprovedEarnings(db, next, p, next.payouts[p]);
    forall x { SameEarningsPay(db.earnings, next.earnings, x); }
    PostConfined(db, t, next);
    ApprovedRowOk(db, next, p, NormaliseUtr(reference));
    UtrsStayDistinct(db.payouts, p, next.payouts[p]);
  }

  lemma ApprovePayoutKeepsMoney(db: Db, p: nat, reference: string)
    requires MoneyInv(db)
    ensures MoneyInv(ApprovePayout(db, p, reference).db)
  {
    hide HasKey, ItemFlow, LegSum, PaidFor, BankOk, EarningsOk, KeysOwned, TopupsOk, GrantsOk, BookingsOk, WindowsOk, ShoutoutsOk;
    if ApprovePayout(db, p, reference).reply == Done {
      ApproveEffect(db, p, reference);
      PayoutTouched(db, ApprovePayout(db, p, reference).db, p);
    }
  }

  /** Creating a payout and then rejecting it puts every earning back. */
  lemma RejectUndoesCreate(db: Db, partner: nat)
    requires MoneyInv(db) && CreatePayout(db, partner, true).reply == Done
    ensures var made := CreatePayout(db, partner, true).db; var back := RejectPayout(made, |db.payouts|);
      && back.reply == Done && back.db.earnings == db.earnings && back.db.bank == db.bank
      && PendingFor(made.earnings, partner) == 0
      && CreatePayout(back.db, partner, true).reply == Done
  {
    var p := |db.payouts|;
    var made := CreatePayout(db, partner, true).db;
    forall i | 0 <= i < |db.earnings|
      ensures Restore(made.earnings, p)[i] == db.earnings[i]
    { assert EarningOk(db, i); }
    assert Restore(made.earnings, p) == db.earnings;
    NothingPending(db.earnings, partner, p);
  }

  lemma {:induction false} NothingPending(es: seq<Earning>, partner: nat, p: nat)
    ensures PendingFor(Include(es, partner, p), partner) == 0
  {
    if |es| > 0 {
      NothingPending(es[..|es| - 1], partner, p);
      assert Include(es, partner, p)[..|es| - 1] == Include(es[..|es| - 1], partner, p);
    }
  }

  // ── Top-ups ──────────────────────────────────────────────────────────────

  ghost predicate TopupStep(db: Db, next: Db, t: nat) {
    && Confined(db, next, TopupItem(t)) && BankOk(next.bank) && EarningsOk(next)
    && db.bank.ledger <= next.bank.ledger
    && next.bookings == db.bookings && next.conversations == db.conversations
    && next.shoutouts == db.shoutouts && next.payouts == db.payouts && next.earnings == db.earnings
    && |db.topups| <= |next.topups| && t < |next.topups|
    && (forall q :: 0 <= q < |next.topups| && q != t ==> q < |db.topups| && next.topups[q] == db.topups[q])
    && TopupOk(next, t)
  }

  lemma TopupTouched(db: Db, next: Db, t: nat)
    requires MoneyInv(db) && TopupStep(db, next, t)
    ensures MoneyInv(next)
  {
    hide BankOk, EarningsOk;
    var item := TopupItem(t);
    forall q | 0 <= q < |next.topups| ensures TopupOk(next, q) {
      if q != t {
        var row := next.topups[q];
        assert q < |db.topups| && row == db.topups[q];
        assert TopupOk(db, q);
      }
    }
    BookingsKept(db, next, item);
    WindowsKept(db, next, item);
    ShoutoutsKept(db, next, item);
    PayoutsKept(db, next, item);
    GrantsKept(db, next, item);
    KeysStayOwned(db, next, item);
  }

  lemma CreateTopupKeepsMoney(db: Db, fan: nat, credit: int, gst: nat, cap: Option<int>)
    requires MoneyInv(db)
    ensures MoneyInv(CreateTopup(db, fan, credit, gst, cap).db)
  {
    hide HasKey, ItemFlow, LegSum, PaidFor, BankOk, EarningsOk, KeysOwned, PayoutsOk, GrantsOk, BookingsOk, WindowsOk, ShoutoutsOk;
    var out := CreateTopup(db, fan, credit, gst, cap);
    if out.reply == Done {
      var t := |db.topups|;
      FreshItem(db, TopupItem(t));
      EarningsKept(db, out.db);
      assert TopupOk(out.db, t) by {
        assert Owner(Topup(t)) == TopupItem(t);
      }
      TopupTouched(db, out.db, t);
    }
  }

  lemma SuccessRowOk(db: Db, next: Db, t: nat)
    requires t < |db.topups| && TopupOk(db, t) && db.topups[t].status != TopupSuccessful
    requires Moved(db, next, TopupTxn(t, db.topups[t])) && |next.bank.wallets| == |db.bank.wallets|
    requires t < |next.topups| && next.topups[t] == db.topups[t].(status := TopupSuccessful)
    ensures TopupOk(next, t)
  {
    hide HasKey, ItemFlow, LegSum, PaidFor;
    var o := db.topups[t];
    TripleSum(WalletLeg(o.fan, o.credit), Plain(GstPayable, o.gst), Plain(RazorpayClearing, -o.amount));
    assert Owner(TopupTxn(t, o).key) == TopupItem(t);
    forall sel
      ensures ItemFlow(next.bank.ledger, TopupItem(t), sel) == TopupFlow(next.topups[t], sel)
    {
      assert ItemFlow(db.bank.ledger, TopupItem(t), sel) == TopupFlow(o, sel);
    }
  }

  lemma VerifyEffect(db: Db, t: nat)
    requires t < |db.topups| && TopupOk(db, t) && BankOk(db.bank) && EarningsOk(db)
    requires VerifyTopup(db, t).reply == Done
    ensures TopupStep(db, VerifyTopup(db, t).db, t)
  {
    hide BankOk, EarningsOk, HasKey, ItemFlow, LegSum, PaidFor;
    var o := db.topups[t];
    var txn := TopupTxn(t, o);
    var next := VerifyTopup(db, t).db;
    TripleSum(WalletLeg(o.fan, o.credit), Plain(GstPayable, o.gst), Plain(RazorpayClearing, -o.amount));
    FreshStep(db, txn, db.(bank := next.bank));
    EarningsKept(db, next);
    SuccessRowOk(db, next, t);
  }

  lemma VerifyTopupKeepsMoney(db: Db, t: nat)
    requires MoneyInv(db)
    ensures MoneyInv(VerifyTopup(db, t).db)
  {
    hide HasKey, ItemFlow, LegSum, PaidFor, BankOk, EarningsOk, KeysOwned, PayoutsOk, GrantsOk, BookingsOk, WindowsOk, ShoutoutsOk;
    if VerifyTopup(db, t).reply == Done {
      assert TopupOk(db, t);
      VerifyEffect(db, t);
      TopupTouched(db, VerifyTopup(db, t).db, t);
    }
  }

  lemma WebhookKeepsMoney(db: Db, event: nat, t: nat, crossChecked: bool)
    requires MoneyInv(db)
    ensures MoneyInv(Webhook(db, event, t, crossChecked).db)
  {
    hide HasKey, ItemFlow, LegSum, PaidFor, BankOk, EarningsOk;
    VerifyTopupKeepsMoney(db, t);
    var mid := VerifyTopup(db, t).db;
    var next := Webhook(db, event, t, crossChecked).db;
    if next != db { NothingMoved(mid, next); }
  }

  /** Steps that leave every money table as it was. */
  lemma NothingMoved(db: Db, next: Db)
    requires MoneyInv(db)
    requires next.bank == db.bank && next.earnings == db.earnings && next.payouts == db.payouts
    requires next.bookings == db.bookings && next.conversations == db.conversations
    requires next.shoutouts == db.shoutouts && next.topups == db.topups
    ensures MoneyInv(next)
  {
    hide BankOk;
    var none := GrantItem(0);
    BookingsKept(db, next, none);
    WindowsKept(db, next, none);
    ShoutoutsKept(db, next, none);
    TopupsKept(db, next, none);
    PayoutsKept(db, next, none);
    EarningsKept(db, next);
    KeysStayOwnedHere(db, next);
  }

  lemma KeysStayOwnedHere(db: Db, next: Db)
    requires KeysOwned(db) && next.bank.ledger == db.bank.ledger
    requires forall x :: ItemExists(db, x) ==> ItemExists(next, x)
    ensures KeysOwned(next)
  {
  }

  lemma CleanupKeepsMoney(db: Db)
    requires MoneyInv(db)
    ensures MoneyInv(CleanupTopups(db).db)
  {
    hide BankOk, EarningsOk;
    var next := CleanupTopups(db).db;
    var none := GrantItem(0);
    forall t | 0 <= t < |next.topups| ensures TopupOk(next, t) { assert TopupOk(db, t); }
    BookingsKept(db, next, none);
    WindowsKept(db, next, none);
    ShoutoutsKept(db, next, none);
    PayoutsKept(db, next, none);
    EarningsKept(db, next);
    KeysStayOwnedHere(db, next);
  }

  // ── Goodwill credit and new wallets ──────────────────────────────────────

  lemma GrantKeepsMoney(db: Db, fan: nat, amount: int)
    requires MoneyInv(db)
    ensures MoneyInv(GrantCredit(db, fan, amount).db)
  {
    hide HasKey, ItemFlow, LegSum, PaidFor, BankOk, EarningsOk, PayoutsOk, TopupsOk, BookingsOk, WindowsOk, ShoutoutsOk;
    var out := GrantCredit(db, fan, amount);
    if out.reply == Done {
      var g := |db.bank.ledger|;
      var t := GrantTxn(g, fan, amount);
      FreshItem(db, GrantItem(g));
      PairSum(t.legs[0], t.legs[1]);
      assert t.legs == [t.legs[0], t.legs[1]];
      FreshStep(db, t, out.db);
      BookingsKept(db, out.db, GrantItem(g));
      WindowsKept(db, out.db, GrantItem(g));
      ShoutoutsKept(db, out.db, GrantItem(g));
      TopupsKept(db, out.db, GrantItem(g));
      PayoutsKept(db, out.db, GrantItem(g));
      GrantKeepsGrants(db, out.db, t);
      FreshPost(db.bank, t);
      KeysStayOwned(db, out.db, GrantItem(g));
    }
  }

  lemma GrantKeepsGrants(db: Db, next: Db, t: Txn)
    requires GrantsOk(db) && Confined(db, next, Owner(t.key)) && Moved(db, next, t)
    requires forall a :: a in {Escrow, PartnerPayable, PromoIncentive} ==> LegSum(t.legs, OnAccount(a)) == 0
    ensures GrantsOk(next)
  {
    forall g: nat, a | a in {Escrow, PartnerPayable, PromoIncentive}
      ensures ItemFlow(next.bank.ledger, GrantItem(g), OnAccount(a)) == 0
    {
      if GrantItem(g) == Owner(t.key) {}
    }
  }

  lemma {:induction false} UnnamedWalletIsFlat(ledger: seq<Txn>, w: nat)
    requires forall i :: 0 <= i < |ledger| ==> TxnOk(ledger[i], w)
    ensures Flow(ledger, OnWallet(w)) == 0
  {
    if |ledger| > 0 {
      UnnamedWalletIsFlat(ledger[..|ledger| - 1], w);
      UnnamedLegsAreFlat(ledger[|ledger| - 1].legs, w);
    }
  }

  lemma {:induction false} UnnamedLegsAreFlat(legs: seq<Leg>, w: nat)
    requires forall i :: 0 <= i < |legs| && legs[i].wallet.Some? ==> legs[i].wallet.value < w
    ensures LegSum(legs, OnWallet(w)) == 0
  {
    if |legs| > 0 { UnnamedLegsAreFlat(legs[..|legs| - 1], w); }
  }

  lemma NewFanBank(bank: Bank)
    requires BankOk(bank)
    ensures BankOk(bank.(wallets := bank.wallets + [Wallet(0, 0)]))
  {
    var next := bank.(wallets := bank.wallets + [Wallet(0, 0)]);
    UnnamedWalletIsFlat(bank.ledger, |bank.wallets|);
    forall w | 0 <= w < |next.wallets| ensures WalletOk(next.ledger, next.wallets, w) {
      if w < |bank.wallets| { assert WalletOk(bank.ledger, bank.wallets, w); }
    }
    forall i | 0 <= i < |next.ledger| ensures TxnOk(next.ledger[i], |next.wallets|) {
      assert TxnOk(bank.ledger[i], |bank.wallets|);
    }
  }

  lemma NewFanKeepsMoney(db: Db)
    requires MoneyInv(db)
    ensures MoneyInv(NewFan(db).db)
  {
    hide BankOk, EarningsOk, HasKey, ItemFlow, Flow;
    var next := NewFan(db).db;
    var none := GrantItem(0);
    NewFanBank(db.bank);
    BookingsKept(db, next, none);
    WindowsKept(db, next, none);
    ShoutoutsKept(db, next, none);
    TopupsKept(db, next, none);
    PayoutsKept(db, next, none);
    EarningsKept(db, next);
    KeysStayOwnedHere(db, next);
  }
}
