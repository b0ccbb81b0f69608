/** The proof steps every money RPC shares: what one post does to a database, and
    how a step on one row re-establishes the invariant of all of them.
 */
module MoneyFrames {
  import opened Schema
  import opened Ledger
  import opened Tables
  import opened Bookings
  import opened Messages
  import opened MoneyInvariant

  /** Legs that touch no wallet cannot fail a CHECK. */
  lemma PlainLegsApply(wallets: seq<Wallet>, a: Leg, b: Leg)
    requires a.wallet.None? && b.wallet.None?
    ensures ApplyLegs(wallets, [a, b]) == Some(wallets)
  {
    assert [a, b][..1] == [a] && [a][..0] == [];
    assert ApplyLegs(wallets, [a]) == Some(wallets);
  }

  /** A post moves only the owner of its key. */
  lemma PostConfined(db: Db, t: Txn, next: Db)
    requires BankOk(db.bank) && Post(db.bank, t).Posted? && next.bank == Post(db.bank, t).bank
    requires forall x: Item :: x != Owner(t.key) ==> PaidFor(next.earnings, x) == PaidFor(db.earnings, x)
    ensures Confined(db, next, Owner(t.key))
    ensures BankOk(next.bank) && db.bank.ledger <= next.bank.ledger
  {
    PostKeepsBank(db.bank, t);
    if !HasKey(db.bank.ledger, t.key) { FreshPost(db.bank, t); }
  }

  /** A fresh post on `item` moved the item by the legs and spent the key. */
  ghost predicate Moved(db: Db, next: Db, t: Txn) {
    && (forall sel :: ItemFlow(next.bank.ledger, Owner(t.key), sel)
          == ItemFlow(db.bank.ledger, Owner(t.key), sel) + LegSum(t.legs, sel))
    && (forall sel :: Flow(next.bank.ledger, sel) == Flow(db.bank.ledger, sel) + LegSum(t.legs, sel))
    && (forall key :: HasKey(next.bank.ledger, key) <==> HasKey(db.bank.ledger, key) || key == t.key)
  }

  /** Only `item` moved money, and the tables no row belongs to are as they were. */
  ghost predicate OneItem(db: Db, next: Db, item: Item) {
    && Confined(db, next, item) && |next.bank.wallets| == |db.bank.wallets|
    && BankOk(next.bank) && db.bank.ledger <= next.bank.ledger
    && EarningsOk(next)
    && next.topups == db.topups && next.payouts == db.payouts
    && (forall p: nat :: p < |db.payouts| ==> PayoutSum(next.earnings, p) == PayoutSum(db.earnings, p))
  }

  lemma EarningsKept(db: Db, next: Db)
    requires EarningsOk(db) && next.earnings == db.earnings && next.payouts == db.payouts
    requires db.bank.ledger <= next.bank.ledger
    requires Flow(next.bank.ledger, OnAccount(PartnerPayable)) == Flow(db.bank.ledger, OnAccount(PartnerPayable))
    ensures EarningsOk(next)
  {
    forall j | 0 <= j < |next.earnings| ensures EarningOk(next, j) { assert EarningOk(db, j); }
  }

  /** What a successful post under an unused key, away from partner_payable, does
      to a database whose other money tables stay as they are. */
  lemma FreshStep(db: Db, t: Txn, next: Db)
    requires BankOk(db.bank) && EarningsOk(db)
    requires Post(db.bank, t).Posted? && next.bank == Post(db.bank, t).bank && !HasKey(db.bank.ledger, t.key)
    requires LegSum(t.legs, OnAccount(PartnerPayable)) == 0
    requires next.earnings == db.earnings && next.payouts == db.payouts && next.topups == db.topups
    ensures OneItem(db, next, Owner(t.key)) && Moved(db, next, t)
  {
    hide EarningsOk, HasKey, PaidFor, LegSum;
    PostKeepsBank(db.bank, t);
    FreshPost(db.bank, t);
    EarningsKept(db, next);
  }

  /** One earning more: the partner's, for this service and amount, from a transaction
      that settles the service, pending and in no payout. */
  predicate OwesPartner(was: Db, now: Db, service: Item, partner: nat, amount: int) {
    && |now.earnings| == |was.earnings| + 1 && was.earnings <= now.earnings
    && var e := now.earnings[|was.earnings|];
       && e.partner == partner && e.service == service && e.amount == amount
       && e.status == PendingPayout && e.payout.None?
       && e.txn < |now.bank.ledger| && Pays(now.bank.ledger[e.txn].key, service) && now.bank.ledger[e.txn].amount == amount
  }

  /** The facts PayPartnerEffect establishes about the paid item. */
  ghost predicate PaidOut(db: Db, next: Db, service: Item, key: Key, amount: int) {
    && PaidFor(next.earnings, service) == Some(amount)
    && (forall k :: HasKey(next.bank.ledger, k) <==> HasKey(db.bank.ledger, k) || k == key)
    && (forall sel :: ItemFlow(next.bank.ledger, service, sel) == ItemFlow(db.bank.ledger, service, sel)
          + Weight(Plain(Escrow, -amount), sel) + Weight(Plain(PartnerPayable, amount), sel))
    && next.bookings == db.bookings && |next.bank.wallets| == |db.bank.wallets|
  }

  lemma PlainPosts(bank: Bank, t: Txn, a: Leg, b: Leg)
    requires t.legs == [a, b] && a.wallet.None? && b.wallet.None? && a.delta + b.delta == 0
    requires t.amount > 0 && !HasKey(bank.ledger, t.key)
    ensures Post(bank, t) == Posted(Bank(bank.ledger + [t], bank.wallets), |bank.ledger|, false)
    ensures forall sel :: LegSum(t.legs, sel) == Weight(a, sel) + Weight(b, sel)
  {
    PairSum(a, b);
    PlainLegsApply(bank.wallets, a, b);
  }

  /** Escrow to payable under a fresh earning key: always succeeds and records the
      one earning of the service, with the transaction that created it. */
  lemma PayPartnerEffect(db: Db, service: Item, partner: nat, key: Key, amount: int)
    requires BankOk(db.bank) && EarningsOk(db)
    requires Pays(key, service) && Owner(key) == service && !HasKey(db.bank.ledger, key)
    requires PaidFor(db.earnings, service).None? && amount > 0
    ensures var out := PayPartner(db, service, partner, key, amount);
      && out.reply == Done
      && out.db == db.(bank := out.db.bank, earnings := out.db.earnings)
      && OneItem(db, out.db, service)
      && PaidOut(db, out.db, service, key, amount)
      && OwesPartner(db, out.db, service, partner, amount) && out.db.bank.wallets == db.bank.wallets
  {
    hide BankOk, HasKey, Post, LegSum, ItemFlow, PaidFor;
    var a, b := Plain(Escrow, -amount), Plain(PartnerPayable, amount);
    var t := Txn(key, amount, [a, b]);
    PlainPosts(db.bank, t, a, b);
    var out := PayPartner(db, service, partner, key, amount);
    var e := Earning(partner, |db.bank.ledger|, service, amount, PendingPayout, None);
    assert out.db.earnings == db.earnings + [e];
    forall x { PaidForAppend(db.earnings, e, x); }
    FreshPost(db.bank, t);
    PostConfined(db, t, out.db);
    assert out.db.earnings[..|db.earnings|] == db.earnings;
    forall j | 0 <= j < |out.db.earnings| ensures EarningOk(out.db, j) {
      if j < |db.earnings| { assert EarningOk(db, j); }
    }
    UnpaidMeansNoEarning(db.earnings, service);
  }

  /** Escrow to an existing wallet under an unused key cannot fail. */
  lemma CreditPosts(db: Db, t: Txn, fan: nat, amount: int)
    requires BankOk(db.bank) && fan < |db.bank.wallets| && amount > 0 && t.amount == amount
    requires t.legs == [Plain(Escrow, -amount), WalletLeg(fan, amount)] && !HasKey(db.bank.ledger, t.key)
    ensures Post(db.bank, t).Posted?
    ensures forall sel :: LegSum(t.legs, sel)
                       == Weight(Plain(Escrow, -amount), sel) + Weight(WalletLeg(fan, amount), sel)
  {
    var x := Plain(Escrow, -amount);
    var ws := db.bank.wallets;
    PairSum(x, WalletLeg(fan, amount));
    assert WalletOk(db.bank.ledger, ws, fan);
    assert t.legs[..1] == [x] && [x][..0] == [];
    assert ApplyLegs(ws, [x]) == Some(ws);
  }

  lemma {:induction false} UnpaidMeansNoEarning(es: seq<Earning>, service: Item)
    ensures PaidFor(es, service).None? <==> forall j :: 0 <= j < |es| ==> es[j].service != service
  {
    if |es| > 0 {
      var init := es[..|es| - 1];
      UnpaidMeansNoEarning(init, service);
      assert forall j :: 0 <= j < |es| - 1 ==> es[j] == init[j];
    }
  }

  /** Rows that exist still own their keys when tables only grow. */
  lemma KeysStayOwned(db: Db, next: Db, item: Item)
    requires KeysOwned(db) && Confined(db, next, item) && ItemExists(next, item)
    requires forall x :: ItemExists(db, x) ==> ItemExists(next, x)
    ensures KeysOwned(next)
  {
  }

  /** Every window but (c, w) is as it was. */
  ghost predicate OnlyWindow(db: Db, next: Db, c: nat, w: nat) {
    && (forall x: nat, y: nat :: HasWindow(db, x, y) ==> HasWindow(next, x, y))
    && (forall x: nat, y: nat :: HasWindow(next, x, y) && !(x == c && y == w) ==>
          && HasWindow(db, x, y) && WindowAt(next, x, y) == WindowAt(db, x, y)
          && next.conversations[x].fan == db.conversations[x].fan)
  }

  lemma SetTouchesOne(db: Db, mid: Db, c: nat, w: nat, row: Window)
    requires HasWindow(db, c, w) && mid.conversations == db.conversations
    ensures OnlyWindow(db, SetWindow(mid, c, w, row), c, w)
    ensures HasWindow(SetWindow(mid, c, w, row), c, w) && WindowAt(SetWindow(mid, c, w, row), c, w) == row
  {
  }

  lemma AddTouchesOne(db: Db, mid: Db, c: nat, row: Window)
    requires c < |db.conversations| && mid.conversations == db.conversations
    ensures var w := |db.conversations[c].windows|; var next := AddWindow(mid, c, row);
      && OnlyWindow(db, next, c, w) && HasWindow(next, c, w) && WindowAt(next, c, w) == row
      && next.conversations[c].fan == db.conversations[c].fan
  {
  }

  ghost predicate BookingStep(db: Db, next: Db, i: nat) {
    && OneItem(db, next, BookingItem(i))
    && next.conversations == db.conversations && next.shoutouts == db.shoutouts
    && |db.bookings| <= |next.bookings| && i < |next.bookings|
    && (forall j :: 0 <= j < |next.bookings| && j != i ==> j < |db.bookings| && next.bookings[j] == db.bookings[j])
    && BookingOk(next, i)
  }

  ghost predicate WindowStep(db: Db, next: Db, c: nat, w: nat) {
    && OneItem(db, next, WindowItem(c, w))
    && next.bookings == db.bookings && next.shoutouts == db.shoutouts
    && HasWindow(next, c, w) && OnlyWindow(db, next, c, w)
    && WindowOk(next, c, w)
  }

  ghost predicate ShoutoutStep(db: Db, next: Db, s: nat) {
    && OneItem(db, next, ShoutoutItem(s))
    && next.bookings == db.bookings && next.conversations == db.conversations
    && |db.shoutouts| <= |next.shoutouts| && s < |next.shoutouts|
    && (forall j :: 0 <= j < |next.shoutouts| && j != s ==> j < |db.shoutouts| && next.shoutouts[j] == db.shoutouts[j])
    && ShoutoutOk(next, s)
  }

  lemma BookingTouched(db: Db, next: Db, i: nat)
    requires MoneyInv(db) && BookingStep(db, next, i)
    ensures MoneyInv(next)
  {
    hide BankOk, EarningsOk;
    var item := BookingItem(i);
    forall j | 0 <= j < |next.bookings| ensures BookingOk(next, j) {
      if j != i {
        var row := next.bookings[j];
        assert j < |db.bookings| && row == db.bookings[j];
        assert BookingOk(db, j);
        BookingKept(db, next, item, j);
      }
    }
    WindowsKept(db, next, item);
    ShoutoutsKept(db, next, item);
    TopupsKept(db, next, item);
    PayoutsKept(db, next, item);
    GrantsKept(db, next, item);
    forall x | ItemExists(db, x) ensures ItemExists(next, x) {
      assert x.WindowItem? ==> HasWindow(next, x.conversation, x.window);
    }
    KeysStayOwned(db, next, item);
  }

  lemma WindowTouched(db: Db, next: Db, c: nat, w: nat)
    requires MoneyInv(db) && WindowStep(db, next, c, w)
    ensures MoneyInv(next)
  {
    hide BankOk, EarningsOk;
    var item := WindowItem(c, w);
    forall x: nat, y: nat | HasWindow(next, x, y) ensures WindowOk(next, x, y) {
      if !(x == c && y == w) {
        assert HasWindow(db, x, y);
        assert WindowOk(db, x, y);
        WindowKept(db, next, item, x, y);
      }
    }
    BookingsKept(db, next, item);
    ShoutoutsKept(db, next, item);
    TopupsKept(db, next, item);
    PayoutsKept(db, next, item);
    GrantsKept(db, next, item);
    KeysStayOwned(db, next, item);
  }

  lemma ShoutoutTouched(db: Db, next: Db, s: nat)
    requires MoneyInv(db) && ShoutoutStep(db, next, s)
    ensures MoneyInv(next)
  {
    hide BankOk, EarningsOk;
    var item := ShoutoutItem(s);
    forall j | 0 <= j < |next.shoutouts| ensures ShoutoutOk(next, j) {
      if j != s {
        var row := next.shoutouts[j];
        assert j < |db.shoutouts| && row == db.shoutouts[j];
        assert ShoutoutOk(db, j);
        ShoutoutKept(db, next, item, j);
      }
    }
    BookingsKept(db, next, item);
    WindowsKept(db, next, item);
    TopupsKept(db, next, item);
    PayoutsKept(db, next, item);
    GrantsKept(db, next, item);
    forall x | ItemExists(db, x) ensures ItemExists(next, x) {
      assert x.WindowItem? ==> HasWindow(next, x.conversation, x.window);
    }
    KeysStayOwned(db, next, item);
  }
}
