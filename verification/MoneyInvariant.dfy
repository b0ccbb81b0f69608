/** What the ledger must say about every row, in every reachable state.

    Each row fixes the flow of its own transactions on every account and wallet,
    and which of its idempotency keys are spent. The totals follow from that.
 */
module MoneyInvariant {
  import opened Schema
  import opened Ledger
  import opened Tables
  import opened Bookings
  import opened Messages
  import opened Shoutouts
  import opened Payouts

  function AmountOf(paid: Option<int>): int {
    if paid.Some? then paid.value else 0
  }

  // ── Bookings ─────────────────────────────────────────────────────────────

  /** What escrow holds for a booking. */
  function BookingHold(b: Booking, paid: Option<int>): int {
    if IsUnwound(b.status) || paid.Some? then 0 else b.original
  }

  /** What the booking has taken from its fan, net of anything given back. */
  function BookingSpend(b: Booking, paid: Option<int>): int {
    if IsUnwound(b.status) then 0
    else b.price - if paid.Some? then b.original - paid.value else 0
  }

  function BookingFlow(b: Booking, paid: Option<int>, sel: Selector): int {
    match sel
    case AllLegs => 0
    case OnWallet(w) => if w == b.fan then -BookingSpend(b, paid) else 0
    case OnAccount(a) =>
      match a
      case WalletAccount => -BookingSpend(b, paid)
      case Escrow => BookingHold(b, paid)
      case PartnerPayable => AmountOf(paid)
      case PromoIncentive => if IsUnwound(b.status) then 0 else -b.discount
      case GstPayable => 0
      case RazorpayClearing => 0
      case PlatformAdjustment => 0
  }

  predicate BookingRowOk(b: Booking, wallets: nat) {
    b.fan < wallets && b.price > 0 && b.discount >= 0 && b.original == b.price + b.discount && b.minutes > 0
  }

  predicate BookingKeysOk(ledger: seq<Txn>, b: Booking, i: nat, earned: bool) {
    && HasKey(ledger, Book(i))
    && (HasKey(ledger, Refund(i)) <==> b.status == CancelledByFan)
    && (HasKey(ledger, Expire(i)) || HasKey(ledger, AdminExpire(i)) <==> IsExpired(b.status))
    && !(HasKey(ledger, Expire(i)) && HasKey(ledger, AdminExpire(i)))
    && (HasKey(ledger, Settle(i)) || HasKey(ledger, PartialSettle(i)) <==> earned)
    && !(HasKey(ledger, Settle(i)) && HasKey(ledger, PartialSettle(i)))
    && (HasKey(ledger, PartialRefund(i)) ==> HasKey(ledger, PartialSettle(i)))
  }

  ghost predicate BookingOk(db: Db, i: nat)
    requires i < |db.bookings|
  {
    var b := db.bookings[i];
    var paid := PaidFor(db.earnings, BookingItem(i));
    && BookingRowOk(b, |db.bank.wallets|)
    && (paid.Some? ==> b.status == Completed && 0 < paid.value <= b.original)
    && BookingKeysOk(db.bank.ledger, b, i, paid.Some?)
    && (HasKey(db.bank.ledger, Settle(i)) ==> paid == Some(b.original))
    && (forall sel :: ItemFlow(db.bank.ledger, BookingItem(i), sel) == BookingFlow(b, paid, sel))
  }

  // ── Question windows ─────────────────────────────────────────────────────

  function WindowHold(w: Window, paid: Option<int>): int {
    if w.kind == Free || w.status == WindowExpired || paid.Some? then 0 else w.charge
  }

  function WindowSpend(w: Window): int {
    if w.kind == Free || w.status == WindowExpired then 0 else w.charge
  }

  function WindowFlow(fan: nat, w: Window, paid: Option<int>, sel: Selector): int {
    match sel
    case AllLegs => 0
    case OnWallet(f) => if f == fan then -WindowSpend(w) else 0
    case OnAccount(a) =>
      match a
      case WalletAccount => -WindowSpend(w)
      case Escrow => WindowHold(w, paid)
      case PartnerPayable => AmountOf(paid)
      case PromoIncentive => 0
      case GstPayable => 0
      case RazorpayClearing => 0
      case PlatformAdjustment => 0
  }

  ghost predicate WindowOk(db: Db, c: nat, w: nat)
    requires HasWindow(db, c, w)
  {
    var row := WindowAt(db, c, w);
    var ledger := db.bank.ledger;
    var paid := PaidFor(db.earnings, WindowItem(c, w));
    && db.conversations[c].fan < |db.bank.wallets|
    && (row.kind == Free ==> row.charge == 0 && row.status != WindowExpired)
    && (row.kind == Paid ==> row.charge > 0)
    && (paid.Some? ==> row.kind == Paid && row.status == Answered && paid.value == row.charge)
    && (HasKey(ledger, Question(c, w)) <==> row.kind == Paid)
    && (HasKey(ledger, QuestionExpire(c, w)) <==> row.status == WindowExpired)
    && (HasKey(ledger, SettleWindow(c, w)) <==> paid.Some?)
    && (forall sel :: ItemFlow(ledger, WindowItem(c, w), sel)
                   == WindowFlow(db.conversations[c].fan, row, paid, sel))
  }

  // ── Shout-outs ───────────────────────────────────────────────────────────

  function ShoutoutTotal(r: Shoutout): int { r.price + Fees(r.corrections) }

  /** Expiry leaves the paid correction fees behind; nothing else strands money. */
  function ShoutoutHold(r: Shoutout, paid: Option<int>): int {
    if r.status == RefundedByAdmin || paid.Some? then 0
    else if r.status == ExpiredNoDelivery then Fees(r.corrections)
    else ShoutoutTotal(r)
  }

  function ShoutoutSpend(r: Shoutout): int {
    if r.status == RefundedByAdmin then 0
    else if r.status == ExpiredNoDelivery then Fees(r.corrections)
    else ShoutoutTotal(r)
  }

  function ShoutoutFlow(r: Shoutout, paid: Option<int>, sel: Selector): int {
    match sel
    case AllLegs => 0
    case OnWallet(f) => if f == r.fan then -ShoutoutSpend(r) else 0
    case OnAccount(a) =>
      match a
      case WalletAccount => -ShoutoutSpend(r)
      case Escrow => ShoutoutHold(r, paid)
      case PartnerPayable => AmountOf(paid)
      case PromoIncentive => 0
      case GstPayable => 0
      case RazorpayClearing => 0
      case PlatformAdjustment => 0
  }

  ghost predicate ShoutoutOk(db: Db, s: nat)
    requires s < |db.shoutouts|
  {
    var r := db.shoutouts[s];
    var ledger := db.bank.ledger;
    var paid := PaidFor(db.earnings, ShoutoutItem(s));
    && r.fan < |db.bank.wallets| && r.price > 0
    && (forall k :: 0 <= k < |r.corrections| && r.corrections[k].kind == PaidRound ==> r.corrections[k].fee > 0)
    && (paid.Some? ==> r.status == Delivered && r.confirmed.Some? && paid.value == ShoutoutTotal(r))
    && HasKey(ledger, Shout(s))
    && (forall k: nat :: HasKey(ledger, ShoutCorrection(s, k)) ==> k < |r.corrections|)
    && (HasKey(ledger, ShoutCancel(s)) <==> r.status == RefundedByAdmin)
    && (HasKey(ledger, ShoutExpire(s)) <==> r.status == ExpiredNoDelivery)
    && (HasKey(ledger, SettleShout(s)) <==> paid.Some?)
    && (forall sel :: ItemFlow(ledger, ShoutoutItem(s), sel) == ShoutoutFlow(r, paid, sel))
  }

  // ── Top-ups, payouts, grants ─────────────────────────────────────────────

  function TopupFlow(o: TopupOrder, sel: Selector): int {
    if o.status != TopupSuccessful then 0
    else
      match sel
      case AllLegs => 0
      case OnWallet(f) => if f == o.fan then o.credit else 0
      case OnAccount(a) =>
        match a
        case WalletAccount => o.credit
        case GstPayable => o.gst
        case RazorpayClearing => -o.amount
        case Escrow => 0
        case PartnerPayable => 0
        case PromoIncentive => 0
        case PlatformAdjustment => 0
  }

  ghost predicate TopupOk(db: Db, t: nat)
    requires t < |db.topups|
  {
    var o := db.topups[t];
    && o.fan < |db.bank.wallets| && o.credit > 0 && o.gst >= 0 && o.amount == o.credit + o.gst
    && (HasKey(db.bank.ledger, Topup(t)) <==> o.status == TopupSuccessful)
    && (forall sel :: ItemFlow(db.bank.ledger, TopupItem(t), sel) == TopupFlow(o, sel))
  }

  function PayoutFlow(p: PayoutRow, sel: Selector): int {
    if p.status != PayoutPaid then 0
    else if sel == OnAccount(PartnerPayable) then -p.amount
    else if sel == OnAccount(RazorpayClearing) then p.amount
    else 0
  }

  /** Amounts of the earnings that name a payout. */
  function PayoutSum(es: seq<Earning>, payout: nat): int {
    if |es| == 0 then 0
    else PayoutSum(es[..|es| - 1], payout)
         + if es[|es| - 1].payout == Some(payout) then es[|es| - 1].amount else 0
  }

  ghost predicate PayoutOk(db: Db, p: nat)
    requires p < |db.payouts|
  {
    var row := db.payouts[p];
    && row.amount > 0
    && (row.status != Rejected ==> row.amount == PayoutSum(db.earnings, p))
    && (row.utr.Some? <==> row.status == PayoutPaid)
    && (row.utr.Some? ==> UtrWellFormed(row.utr.value))
    && (HasKey(db.bank.ledger, Payout(p)) <==> row.status == PayoutPaid)
    && (forall sel :: ItemFlow(db.bank.ledger, PayoutItem(p), sel) == PayoutFlow(row, sel))
  }

  predicate UtrsDistinct(ps: seq<PayoutRow>) {
    forall i, j :: 0 <= i < j < |ps| && ps[i].utr.Some? ==> ps[i].utr != ps[j].utr
  }

  ghost predicate GrantsOk(db: Db) {
    forall g: nat, a :: a in {Escrow, PartnerPayable, PromoIncentive} ==>
      ItemFlow(db.bank.ledger, GrantItem(g), OnAccount(a)) == 0
  }

  // ── Earnings ─────────────────────────────────────────────────────────────

  /** The keys that create a service's earning. */
  predicate Pays(key: Key, service: Item) {
    match key
    case Settle(i) => service == BookingItem(i)
    case PartialSettle(i) => service == BookingItem(i)
    case SettleWindow(c, w) => service == WindowItem(c, w)
    case SettleShout(s) => service == ShoutoutItem(s)
    case _ => false
  }

  predicate EarningOk(db: Db, j: nat)
    requires j < |db.earnings|
  {
    var e := db.earnings[j];
    && e.amount > 0
    && e.txn < |db.bank.ledger|
    && db.bank.ledger[e.txn].amount == e.amount
    && Pays(db.bank.ledger[e.txn].key, e.service)
    && (e.status == PendingPayout <==> e.payout.None?)
    && (e.payout.Some? ==>
          && e.payout.value < |db.payouts|
          && db.payouts[e.payout.value].partner == e.partner
          && db.payouts[e.payout.value].status == (if e.status == InPayout then Requested else PayoutPaid))
  }

  predicate ServicesDistinct(es: seq<Earning>) {
    forall i, j :: 0 <= i < j < |es| ==> es[i].service != es[j].service
  }

  /** Earnings still owed: everything not yet PAID. */
  function Owed(es: seq<Earning>): int {
    if |es| == 0 then 0
    else Owed(es[..|es| - 1]) + if es[|es| - 1].status == EarningPaid then 0 else es[|es| - 1].amount
  }

  ghost predicate EarningsOk(db: Db) {
    && (forall j :: 0 <= j < |db.earnings| ==> EarningOk(db, j))
    && ServicesDistinct(db.earnings)
    && Flow(db.bank.ledger, OnAccount(PartnerPayable)) == Owed(db.earnings)
  }

  // ── All of it ────────────────────────────────────────────────────────────

  predicate ItemExists(db: Db, item: Item) {
    match item
    case BookingItem(i) => i < |db.bookings|
    case WindowItem(c, w) => HasWindow(db, c, w)
    case ShoutoutItem(s) => s < |db.shoutouts|
    case TopupItem(t) => t < |db.topups|
    case PayoutItem(p) => p < |db.payouts|
    case GrantItem(g) => g < |db.bank.ledger|
  }

  ghost predicate KeysOwned(db: Db) {
    forall key :: HasKey(db.bank.ledger, key) ==> ItemExists(db, Owner(key))
  }

  ghost predicate BookingsOk(db: Db) { forall i :: 0 <= i < |db.bookings| ==> BookingOk(db, i) }
  ghost predicate WindowsOk(db: Db) { forall c: nat, w: nat :: HasWindow(db, c, w) ==> WindowOk(db, c, w) }
  ghost predicate ShoutoutsOk(db: Db) { forall s :: 0 <= s < |db.shoutouts| ==> ShoutoutOk(db, s) }
  ghost predicate TopupsOk(db: Db) { forall t :: 0 <= t < |db.topups| ==> TopupOk(db, t) }
  ghost predicate PayoutsOk(db: Db) {
    (forall p :: 0 <= p < |db.payouts| ==> PayoutOk(db, p)) && UtrsDistinct(db.payouts)
  }

  ghost predicate MoneyInv(db: Db) {
    && BankOk(db.bank)
    && KeysOwned(db)
    && BookingsOk(db)
    && WindowsOk(db)
    && ShoutoutsOk(db)
    && TopupsOk(db)
    && PayoutsOk(db)
    && GrantsOk(db)
    && EarningsOk(db)
  }

  // ── Framing ──────────────────────────────────────────────────────────────

  /** Between two states only `item` posted or earned anything. */
  ghost predicate Confined(db: Db, next: Db, item: Item) {
    && |next.bank.wallets| >= |db.bank.wallets|
    && (forall x: Item, sel :: x != item ==> ItemFlow(next.bank.ledger, x, sel) == ItemFlow(db.bank.ledger, x, sel))
    && (forall key :: Owner(key) != item ==> (HasKey(next.bank.ledger, key) <==> HasKey(db.bank.ledger, key)))
    && (forall x: Item :: x != item ==> PaidFor(next.earnings, x) == PaidFor(db.earnings, x))
  }

  /** An item none of whose keys is spent has moved nothing. */
  lemma {:induction false} UnusedItemIsFlat(ledger: seq<Txn>, item: Item, sel: Selector)
    requires forall key :: HasKey(ledger, key) ==> Owner(key) != item
    ensures ItemFlow(ledger, item, sel) == 0
  {
    if |ledger| > 0 {
      var init := ledger[..|ledger| - 1];
      assert HasKey(ledger, ledger[|ledger| - 1].key);
      forall key | HasKey(init, key) ensures HasKey(ledger, key) {
        var i :| 0 <= i < |init| && init[i].key == key;
        assert ledger[i].key == key;
      }
      UnusedItemIsFlat(init, item, sel);
    }
  }

  /** An item that earns must have an earning key; a fresh one has none. */
  lemma {:induction false} UnusedItemIsUnpaid(db: Db, es: seq<Earning>, item: Item)
    requires forall key :: HasKey(db.bank.ledger, key) ==> Owner(key) != item
    requires forall j :: 0 <= j < |es| ==>
               es[j].txn < |db.bank.ledger| && Pays(db.bank.ledger[es[j].txn].key, es[j].service)
    ensures PaidFor(es, item).None?
  {
    if |es| > 0 {
      UnusedItemIsUnpaid(db, es[..|es| - 1], item);
      var t := es[|es| - 1].txn;
      assert HasKey(db.bank.ledger, db.bank.ledger[t].key);
    }
  }

  /** An item with no row yet is blank. */
  lemma FreshItem(db: Db, item: Item)
    requires MoneyInv(db) && !ItemExists(db, item)
    ensures forall sel :: ItemFlow(db.bank.ledger, item, sel) == 0
    ensures PaidFor(db.earnings, item).None?
    ensures forall key :: HasKey(db.bank.ledger, key) ==> Owner(key) != item
  {
    forall sel { UnusedItemIsFlat(db.bank.ledger, item, sel); }
    forall j | 0 <= j < |db.earnings|
      ensures db.earnings[j].txn < |db.bank.ledger|
      ensures Pays(db.bank.ledger[db.earnings[j].txn].key, db.earnings[j].service)
    { assert EarningOk(db, j); }
    UnusedItemIsUnpaid(db, db.earnings, item);
  }

  // A step confined to one item keeps every other row, table by table.

  lemma BookingKept(db: Db, next: Db, item: Item, i: nat)
    requires i < |db.bookings| && i < |next.bookings| && next.bookings[i] == db.bookings[i]
    requires BookingOk(db, i) && Confined(db, next, item) && item != BookingItem(i)
    ensures BookingOk(next, i)
  {
  }

  lemma WindowKept(db: Db, next: Db, item: Item, c: nat, w: nat)
    requires HasWindow(db, c, w) && HasWindow(next, c, w) && WindowAt(next, c, w) == WindowAt(db, c, w)
    requires next.conversations[c].fan == db.conversations[c].fan
    requires WindowOk(db, c, w) && Confined(db, next, item) && item != WindowItem(c, w)
    ensures WindowOk(next, c, w)
  {
  }

  lemma ShoutoutKept(db: Db, next: Db, item: Item, s: nat)
    requires s < |db.shoutouts| && s < |next.shoutouts| && next.shoutouts[s] == db.shoutouts[s]
    requires ShoutoutOk(db, s) && Confined(db, next, item) && item != ShoutoutItem(s)
    ensures ShoutoutOk(next, s)
  {
  }

  lemma BookingsKept(db: Db, next: Db, item: Item)
    requires BookingsOk(db) && Confined(db, next, item) && next.bookings == db.bookings && !item.BookingItem?
    ensures BookingsOk(next)
  {
    forall i | 0 <= i < |next.bookings| ensures BookingOk(next, i) { BookingKept(db, next, item, i); }
  }

  lemma WindowsKept(db: Db, next: Db, item: Item)
    requires WindowsOk(db) && Confined(db, next, item) && next.conversations == db.conversations && !item.WindowItem?
    ensures WindowsOk(next)
  {
    forall c: nat, w: nat | HasWindow(next, c, w) ensures WindowOk(next, c, w) {
      assert HasWindow(db, c, w);
      WindowKept(db, next, item, c, w);
    }
  }

  lemma ShoutoutsKept(db: Db, next: Db, item: Item)
    requires ShoutoutsOk(db) && Confined(db, next, item) && next.shoutouts == db.shoutouts && !item.ShoutoutItem?
    ensures ShoutoutsOk(next)
  {
    forall s | 0 <= s < |next.shoutouts| ensures ShoutoutOk(next, s) { ShoutoutKept(db, next, item, s); }
  }

  lemma TopupsKept(db: Db, next: Db, item: Item)
    requires TopupsOk(db) && Confined(db, next, item) && next.topups == db.topups && !item.TopupItem?
    ensures TopupsOk(next)
  {
    forall t | 0 <= t < |next.topups| ensures TopupOk(next, t) { assert TopupOk(db, t); }
  }

  lemma PayoutsKept(db: Db, next: Db, item: Item)
    requires PayoutsOk(db) && Confined(db, next, item) && next.payouts == db.payouts && !item.PayoutItem?
    requires forall p: nat :: p < |db.payouts| ==> PayoutSum(next.earnings, p) == PayoutSum(db.earnings, p)
    ensures PayoutsOk(next)
  {
    forall p | 0 <= p < |next.payouts| ensures PayoutOk(next, p) { assert PayoutOk(db, p); }
  }

  lemma GrantsKept(db: Db, next: Db, item: Item)
    requires GrantsOk(db) && Confined(db, next, item) && !item.GrantItem?
    ensures GrantsOk(next)
  {
  }
}
