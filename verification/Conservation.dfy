/** What the row-by-row invariant says about the shared accounts as a whole. */
module Conservation {
  import opened Schema
  import opened Ledger
  import opened Tables
  import opened Bookings
  import opened Messages
  import opened Shoutouts
  import opened MoneyInvariant
  import opened Capacity
  import opened CallRules
  import opened MessageRules
  import opened ShoutoutRules
  import opened Runs

  // ── The ledger is partitioned by the rows its transactions belong to ─────

  datatype Table = BookingTable | WindowTable(conversation: nat) | ShoutoutTable | TopupTable | PayoutTable | GrantTable

  function RowItem(t: Table, i: nat): Item {
    match t
    case BookingTable => BookingItem(i)
    case WindowTable(c) => WindowItem(c, i)
    case ShoutoutTable => ShoutoutItem(i)
    case TopupTable => TopupItem(i)
    case PayoutTable => PayoutItem(i)
    case GrantTable => GrantItem(i)
  }

  function TableFlow(ledger: seq<Txn>, t: Table, rows: nat, sel: Selector): int {
    if rows == 0 then 0 else TableFlow(ledger, t, rows - 1, sel) + ItemFlow(ledger, RowItem(t, rows - 1), sel)
  }

  function WindowsFlow(ledger: seq<Txn>, cs: seq<Conversation>, sel: Selector): int {
    if |cs| == 0 then 0
    else
      var c := |cs| - 1;
      WindowsFlow(ledger, cs[..c], sel) + TableFlow(ledger, WindowTable(c), |cs[c].windows|, sel)
  }

  function TotalFlow(ledger: seq<Txn>, db: Db, sel: Selector): int {
    TableFlow(ledger, BookingTable, |db.bookings|, sel)
    + WindowsFlow(ledger, db.conversations, sel)
    + TableFlow(ledger, ShoutoutTable, |db.shoutouts|, sel)
    + TableFlow(ledger, TopupTable, |db.topups|, sel)
    + TableFlow(ledger, PayoutTable, |db.payouts|, sel)
    + TableFlow(ledger, GrantTable, |db.bank.ledger|, sel)
  }

  predicate InTable(item: Item, t: Table, rows: nat) {
    match t
    case BookingTable => item.BookingItem? && item.booking < rows
    case WindowTable(c) => item.WindowItem? && item.conversation == c && item.window < rows
    case ShoutoutTable => item.ShoutoutItem? && item.shoutout < rows
    case TopupTable => item.TopupItem? && item.order < rows
    case PayoutTable => item.PayoutItem? && item.payout < rows
    case GrantTable => item.GrantItem? && item.grant < rows
  }

  lemma {:induction false} TableAppend(ledger: seq<Txn>, x: Txn, t: Table, rows: nat, sel: Selector)
    ensures TableFlow(ledger + [x], t, rows, sel)
         == TableFlow(ledger, t, rows, sel) + if InTable(Owner(x.key), t, rows) then LegSum(x.legs, sel) else 0
  {
    if rows > 0 {
      TableAppend(ledger, x, t, rows - 1, sel);
      ItemFlowAppend(ledger, x, RowItem(t, rows - 1), sel);
    }
  }

  lemma {:induction false} WindowsAppend(ledger: seq<Txn>, x: Txn, cs: seq<Conversation>, sel: Selector)
    ensures WindowsFlow(ledger + [x], cs, sel)
         == WindowsFlow(ledger, cs, sel)
            + if Owner(x.key).WindowItem? && Owner(x.key).conversation < |cs|
                 && Owner(x.key).window < |cs[Owner(x.key).conversation].windows|
              then LegSum(x.legs, sel) else 0
  {
    if |cs| > 0 {
      var c := |cs| - 1;
      WindowsAppend(ledger, x, cs[..c], sel);
      TableAppend(ledger, x, WindowTable(c), |cs[c].windows|, sel);
    }
  }

  lemma {:induction false} TableEmpty(t: Table, rows: nat, sel: Selector)
    ensures TableFlow([], t, rows, sel) == 0
  {
    if rows > 0 { TableEmpty(t, rows - 1, sel); }
  }

  lemma {:induction false} WindowsEmpty(cs: seq<Conversation>, sel: Selector)
    ensures WindowsFlow([], cs, sel) == 0
  {
    if |cs| > 0 {
      WindowsEmpty(cs[..|cs| - 1], sel);
      TableEmpty(WindowTable(|cs| - 1), |cs[|cs| - 1].windows|, sel);
    }
  }

  /** Every transaction belongs to exactly one existing row, so the flow of the
      whole ledger is the sum of the rows' flows. */
  lemma {:induction false} FlowIsSumOfRows(ledger: seq<Txn>, db: Db, sel: Selector)
    requires forall i :: 0 <= i < |ledger| ==> ItemExists(db, Owner(ledger[i].key))
    ensures Flow(ledger, sel) == TotalFlow(ledger, db, sel)
  {
    if |ledger| == 0 {
      TableEmpty(BookingTable, |db.bookings|, sel);
      WindowsEmpty(db.conversations, sel);
      TableEmpty(ShoutoutTable, |db.shoutouts|, sel);
      TableEmpty(TopupTable, |db.topups|, sel);
      TableEmpty(PayoutTable, |db.payouts|, sel);
      TableEmpty(GrantTable, |db.bank.ledger|, sel);
    } else {
      var init, x := ledger[..|ledger| - 1], ledger[|ledger| - 1];
      assert ledger == init + [x];
      FlowIsSumOfRows(init, db, sel);
      FlowAppend(init, x, sel);
      TotalAppend(init, x, db, sel);
    }
  }

  lemma TotalAppend(ledger: seq<Txn>, x: Txn, db: Db, sel: Selector)
    requires ItemExists(db, Owner(x.key))
    ensures TotalFlow(ledger + [x], db, sel) == TotalFlow(ledger, db, sel) + LegSum(x.legs, sel)
  {
    hide TableFlow, WindowsFlow, LegSum;
    TableAppend(ledger, x, BookingTable, |db.bookings|, sel);
    WindowsAppend(ledger, x, db.conversations, sel);
    TableAppend(ledger, x, ShoutoutTable, |db.shoutouts|, sel);
    TableAppend(ledger, x, TopupTable, |db.topups|, sel);
    TableAppend(ledger, x, PayoutTable, |db.payouts|, sel);
    TableAppend(ledger, x, GrantTable, |db.bank.ledger|, sel);
  }

  // ── Escrow ───────────────────────────────────────────────────────────────

  /** List price of every booking neither unwound nor paid out. */
  function HeldForBookings(bs: seq<Booking>, es: seq<Earning>): int {
    if |bs| == 0 then 0
    else
      var i := |bs| - 1;
      HeldForBookings(bs[..i], es) + BookingHold(bs[i], PaidFor(es, BookingItem(i)))
  }

  /** Charge of every paid window of conversation `c` neither refunded nor paid out. */
  function HeldForWindows(ws: seq<Window>, c: nat, es: seq<Earning>): int {
    if |ws| == 0 then 0
    else
      var w := |ws| - 1;
      HeldForWindows(ws[..w], c, es) + WindowHold(ws[w], PaidFor(es, WindowItem(c, w)))
  }

  function HeldForConversations(cs: seq<Conversation>, es: seq<Earning>): int {
    if |cs| == 0 then 0
    else
      var c := |cs| - 1;
      HeldForConversations(cs[..c], es) + HeldForWindows(cs[c].windows, c, es)
  }

  /** Price and paid fees of every live shout-out, and the fees of expired ones. */
  function HeldForShoutouts(ss: seq<Shoutout>, es: seq<Earning>): int {
    if |ss| == 0 then 0
    else
      var s := |ss| - 1;
      HeldForShoutouts(ss[..s], es) + ShoutoutHold(ss[s], PaidFor(es, ShoutoutItem(s)))
  }

  const ESCROW: Selector := OnAccount(Escrow)

  lemma {:induction false} BookingsHold(db: Db, n: nat)
    requires BookingsOk(db) && n <= |db.bookings|
    ensures TableFlow(db.bank.ledger, BookingTable, n, ESCROW) == HeldForBookings(db.bookings[..n], db.earnings)
  {
    hide HasKey, ItemFlow;
    if n > 0 {
      BookingsHold(db, n - 1);
      assert BookingOk(db, n - 1);
      assert db.bookings[..n][..n - 1] == db.bookings[..n - 1];
    }
  }

  lemma {:induction false} WindowsHold(db: Db, c: nat, n: nat)
    requires WindowsOk(db) && c < |db.conversations| && n <= |db.conversations[c].windows|
    ensures TableFlow(db.bank.ledger, WindowTable(c), n, ESCROW)
         == HeldForWindows(db.conversations[c].windows[..n], c, db.earnings)
  {
    hide HasKey, ItemFlow;
    var ws := db.conversations[c].windows;
    if n > 0 {
      WindowsHold(db, c, n - 1);
      assert HasWindow(db, c, n - 1);
      assert WindowOk(db, c, n - 1);
      assert ws[..n][..n - 1] == ws[..n - 1];
    }
  }

  lemma {:induction false} ConversationsHold(db: Db, n: nat)
    requires WindowsOk(db) && n <= |db.conversations|
    ensures WindowsFlow(db.bank.ledger, db.conversations[..n], ESCROW)
         == HeldForConversations(db.conversations[..n], db.earnings)
  {
    if n > 0 {
      ConversationsHold(db, n - 1);
      var ws := db.conversations[n - 1].windows;
      WindowsHold(db, n - 1, |ws|);
      assert ws[..|ws|] == ws;
      assert db.conversations[..n][..n - 1] == db.conversations[..n - 1];
    }
  }

  lemma {:induction false} ShoutoutsHold(db: Db, n: nat)
    requires ShoutoutsOk(db) && n <= |db.shoutouts|
    ensures TableFlow(db.bank.ledger, ShoutoutTable, n, ESCROW) == HeldForShoutouts(db.shoutouts[..n], db.earnings)
  {
    hide HasKey, ItemFlow;
    if n > 0 {
      ShoutoutsHold(db, n - 1);
      assert ShoutoutOk(db, n - 1);
      assert db.shoutouts[..n][..n - 1] == db.shoutouts[..n - 1];
    }
  }

  /** Top-ups, payouts and grants never touch escrow. */
  lemma {:induction false} NothingElseHolds(db: Db, t: Table, n: nat)
    requires TopupsOk(db) && PayoutsOk(db) && GrantsOk(db)
    requires (t == TopupTable && n <= |db.topups|) || (t == PayoutTable && n <= |db.payouts|) || t == GrantTable
    ensures TableFlow(db.bank.ledger, t, n, ESCROW) == 0
  {
    hide HasKey, ItemFlow;
    if n > 0 {
      NothingElseHolds(db, t, n - 1);
      if t == TopupTable { assert TopupOk(db, n - 1); }
      if t == PayoutTable { assert PayoutOk(db, n - 1); }
    }
  }

  /** Escrow conservation: in every reachable state the shared escrow account holds
      exactly what live services are owed, plus the fees of expired shout-outs. */
  lemma EscrowIsWhatServicesHold(db: Db)
    requires Reachable(db)
    ensures Flow(db.bank.ledger, ESCROW)
         == HeldForBookings(db.bookings, db.earnings)
            + HeldForConversations(db.conversations, db.earnings)
            + HeldForShoutouts(db.shoutouts, db.earnings)
    ensures Flow(db.bank.ledger, AllLegs) == 0
  {
    hide Reachable, BankOk, BookingsOk, WindowsOk, ShoutoutsOk, TopupsOk, PayoutsOk, GrantsOk, EarningsOk, HasKey, TableFlow, WindowsFlow,
         CapacityOk, CallsOk, MessagesOk, ShoutoutRulesOk;
    ReachableIsOk(db);
    RowsExist(db);
    FlowIsSumOfRows(db.bank.ledger, db, ESCROW);
    BookingsHold(db, |db.bookings|);
    ConversationsHold(db, |db.conversations|);
    ShoutoutsHold(db, |db.shoutouts|);
    NothingElseHolds(db, TopupTable, |db.topups|);
    NothingElseHolds(db, PayoutTable, |db.payouts|);
    NothingElseHolds(db, GrantTable, |db.bank.ledger|);
    assert db.bookings[..|db.bookings|] == db.bookings;
    assert db.conversations[..|db.conversations|] == db.conversations;
    assert db.shoutouts[..|db.shoutouts|] == db.shoutouts;
    Balanced(db.bank);
  }

  lemma RowsExist(db: Db)
    requires KeysOwned(db)
    ensures forall i :: 0 <= i < |db.bank.ledger| ==> ItemExists(db, Owner(db.bank.ledger[i].key))
  {
    forall i | 0 <= i < |db.bank.ledger| ensures ItemExists(db, Owner(db.bank.ledger[i].key)) {
      assert HasKey(db.bank.ledger, db.bank.ledger[i].key);
    }
  }

  lemma Balanced(bank: Bank)
    requires BankOk(bank)
    ensures Flow(bank.ledger, AllLegs) == 0
  {
    assert forall i :: 0 <= i < |bank.ledger| ==> TxnOk(bank.ledger[i], |bank.wallets|);
    LedgerSumsToZero(bank.ledger);
  }

  // ── Promotions ───────────────────────────────────────────────────────────

  const PROMO: Selector := OnAccount(PromoIncentive)

  /** Discounts of every booking that was not unwound. */
  function Funded(bs: seq<Booking>): int {
    if |bs| == 0 then 0
    else Funded(bs[..|bs| - 1]) + if IsUnwound(bs[|bs| - 1].status) then 0 else bs[|bs| - 1].discount
  }

  lemma {:induction false} BookingsFund(db: Db, n: nat)
    requires BookingsOk(db) && n <= |db.bookings|
    ensures TableFlow(db.bank.ledger, BookingTable, n, PROMO) == -Funded(db.bookings[..n])
  {
    hide HasKey, ItemFlow;
    if n > 0 {
      BookingsFund(db, n - 1);
      assert BookingOk(db, n - 1);
      assert db.bookings[..n][..n - 1] == db.bookings[..n - 1];
    }
  }

  lemma {:induction false} NoPromo(db: Db, t: Table, n: nat)
    requires WindowsOk(db) && ShoutoutsOk(db) && TopupsOk(db) && PayoutsOk(db) && GrantsOk(db)
    requires match t
      case BookingTable => false
      case WindowTable(c) => c < |db.conversations| && n <= |db.conversations[c].windows|
      case ShoutoutTable => n <= |db.shoutouts|
      case TopupTable => n <= |db.topups|
      case PayoutTable => n <= |db.payouts|
      case GrantTable => true
    ensures TableFlow(db.bank.ledger, t, n, PROMO) == 0
  {
    hide HasKey, ItemFlow;
    if n > 0 {
      NoPromo(db, t, n - 1);
      match t {
        case WindowTable(c) => assert HasWindow(db, c, n - 1); assert WindowOk(db, c, n - 1);
        case ShoutoutTable => assert ShoutoutOk(db, n - 1);
        case TopupTable => assert TopupOk(db, n - 1);
        case PayoutTable => assert PayoutOk(db, n - 1);
        case GrantTable =>
      }
    }
  }

  lemma {:induction false} NoWindowPromo(db: Db, n: nat)
    requires WindowsOk(db) && ShoutoutsOk(db) && TopupsOk(db) && PayoutsOk(db) && GrantsOk(db)
    requires n <= |db.conversations|
    ensures WindowsFlow(db.bank.ledger, db.conversations[..n], PROMO) == 0
  {
    if n > 0 {
      NoWindowPromo(db, n - 1);
      NoPromo(db, WindowTable(n - 1), |db.conversations[n - 1].windows|);
      assert db.conversations[..n][..n - 1] == db.conversations[..n - 1];
    }
  }

  /** The platform has funded exactly the discounts of bookings that stand. */
  lemma PromotionsAreFunded(db: Db)
    requires Reachable(db)
    ensures Flow(db.bank.ledger, PROMO) == -Funded(db.bookings)
  {
    hide Reachable, BankOk, BookingsOk, WindowsOk, ShoutoutsOk, TopupsOk, PayoutsOk, GrantsOk, EarningsOk, HasKey, TableFlow, WindowsFlow,
         CapacityOk, CallsOk, MessagesOk, ShoutoutRulesOk;
    ReachableIsOk(db);
    RowsExist(db);
    FlowIsSumOfRows(db.bank.ledger, db, PROMO);
    BookingsFund(db, |db.bookings|);
    NoWindowPromo(db, |db.conversations|);
    NoPromo(db, ShoutoutTable, |db.shoutouts|);
    NoPromo(db, TopupTable, |db.topups|);
    NoPromo(db, PayoutTable, |db.payouts|);
    NoPromo(db, GrantTable, |db.bank.ledger|);
    assert db.bookings[..|db.bookings|] == db.bookings;
    assert db.conversations[..|db.conversations|] == db.conversations;
  }
}
