/** The scheduled jobs: what is due, one run over a batch of ids, and how repeated
    runs drain everything that is due.
 */
module Sweeps {
  import opened Schema
  import opened Ledger
  import opened Tables
  import opened Bookings
  import opened Messages
  import opened Shoutouts
  import opened Platform
  import opened MoneyInvariant
  import opened MoneyFrames
  import opened BookingMoney
  import opened WindowMoney
  import opened ShoutoutMoney
  import opened CallRules
  import opened MessageRules
  import opened ShoutoutRules
  import opened Capacity
  import opened Runs

  const BATCH: nat := 200

  datatype Sweep =
    | ExpireBookings
    | SettleBookings
    | SettleWindows
    | ConfirmShoutouts
    | ExpireShoutouts
    | SettleShoutouts
    | ExpireWindows

  /** The WHERE clause of each job query. */
  predicate Due(db: Db, k: Sweep, item: Item) {
    match k
    case ExpireBookings => item.BookingItem? && DueForExpiry(db, item.booking)
    case SettleBookings =>
      && item.BookingItem? && item.booking < |db.bookings|
      && var b := db.bookings[item.booking];
         b.status == Completed && b.settleAt <= db.now && !Earned(db, item) && !OpenCallReport(db.reports, item.booking)
    case SettleWindows =>
      && item.WindowItem? && HasWindow(db, item.conversation, item.window)
      && var w := WindowAt(db, item.conversation, item.window);
         && w.kind == Paid && w.status == Answered && w.settleAt.Some? && w.settleAt.value <= db.now
         && !Earned(db, item) && !OpenReportOn(db.reports, WindowTarget(item.conversation, item.window))
    case ConfirmShoutouts => item.ShoutoutItem? && DueForAutoConfirm(db, item.shoutout)
    case ExpireShoutouts => item.ShoutoutItem? && ShoutoutOverdue(db, item.shoutout)
    case SettleShoutouts =>
      && item.ShoutoutItem? && item.shoutout < |db.shoutouts|
      && var r := db.shoutouts[item.shoutout];
         r.status == Delivered && r.settleAt <= db.now && r.confirmed.Some? && !Earned(db, item)
    case ExpireWindows => item.WindowItem? && WindowOverdue(db, item.conversation, item.window)
  }

  /** The transaction a job runs for one listed id. */
  function WorkOn(k: Sweep, item: Item): Action {
    match item
    case BookingItem(i) => if k == ExpireBookings then OnBooking(DoExpire(i)) else OnBooking(DoSettle(i))
    case WindowItem(c, w) =>
      if k == ExpireWindows then OnMessage(DoExpireWindow(c, w)) else OnMessage(DoSettleWindow(c, w))
    case ShoutoutItem(s) =>
      if k == ConfirmShoutouts then OnShoutout(DoAutoConfirm(s))
      else if k == ExpireShoutouts then OnShoutout(DoExpireShoutout(s))
      else OnShoutout(DoSettleShoutout(s))
    case _ => OnWorld(Tick(0))
  }

  /** forEachId: one transaction per id; a raised item is counted and skipped. */
  datatype Tally = Tally(db: Db, ok: nat, failed: nat)

  function ForEachId(db: Db, k: Sweep, items: seq<Item>): (t: Tally)
    ensures t.ok + t.failed == |items|
    decreases |items|
  {
    if |items| == 0 then Tally(db, 0, 0)
    else
      var out := Step(db, WorkOn(k, items[0]));
      var rest := ForEachId(out.db, k, items[1..]);
      if out.reply.Raised? then rest.(failed := rest.failed + 1) else rest.(ok := rest.ok + 1)
  }

  // ── A failing item leaves the rest of the batch alone ────────────────────

  lemma {:induction false} BatchSplits(db: Db, k: Sweep, xs: seq<Item>, ys: seq<Item>)
    ensures var first := ForEachId(db, k, xs); var second := ForEachId(first.db, k, ys);
      ForEachId(db, k, xs + ys) == Tally(second.db, first.ok + second.ok, first.failed + second.failed)
    decreases |xs|
  {
    hide Step, WorkOn;
    if |xs| == 0 {
      assert xs + ys == ys;
    } else {
      assert (xs + ys)[1..] == xs[1..] + ys;
      BatchSplits(Step(db, WorkOn(k, xs[0])).db, k, xs[1..], ys);
    }
  }

  lemma EmptyBatch(db: Db, k: Sweep)
    ensures ForEachId(db, k, []) == Tally(db, 0, 0)
  {
  }

  /** One item more. */
  lemma BatchStep(db: Db, k: Sweep, items: seq<Item>, i: nat)
    requires i < |items|
    ensures var done := ForEachId(db, k, items[..i]); var out := Step(done.db, WorkOn(k, items[i]));
      ForEachId(db, k, items[..i + 1])
        == if out.reply.Raised? then Tally(out.db, done.ok, done.failed + 1) else Tally(out.db, done.ok + 1, done.failed)
  {
    hide Step, WorkOn;
    BatchSplits(db, k, items[..i], [items[i]]);
    assert items[..i + 1] == items[..i] + [items[i]] && [items[i]][1..] == [];
    var mid := ForEachId(db, k, items[..i]).db;
    EmptyBatch(Step(mid, WorkOn(k, items[i])).db, k);
  }

  /** An item that raises in the middle of a batch changes nothing but its own count:
      every other item ends as it would have without it. */
  lemma FailuresAreIsolated(db: Db, k: Sweep, before: seq<Item>, bad: Item, after: seq<Item>)
    requires Step(ForEachId(db, k, before).db, WorkOn(k, bad)).reply.Raised?
    ensures var with := ForEachId(db, k, before + [bad] + after); var without := ForEachId(db, k, before + after);
      with.db == without.db && with.ok == without.ok && with.failed == without.failed + 1
  {
    hide Step, WorkOn;
    var mid := ForEachId(db, k, before).db;
    OnlyDoneChanges(mid, WorkOn(k, bad));
    BatchSplits(db, k, before, after);
    BatchSplits(db, k, before + [bad], after);
    BatchSplits(db, k, before, [bad]);
    assert [bad][1..] == [];
    assert ForEachId(mid, k, [bad]) == Tally(mid, 0, 1);
  }

  // ── Stale lists ──────────────────────────────────────────────────────────

  function Actions(k: Sweep, items: seq<Item>): seq<Action> {
    seq(|items|, i requires 0 <= i < |items| => WorkOn(k, items[i]))
  }

  /** A sweep over any list of ids, however stale or repeated, is a run of allowed
      steps. So runs in which several workers' sweeps interleave with each other and
      with everything else are runs of the platform. */
  lemma {:induction false} SweepIsARun(db: Db, k: Sweep, items: seq<Item>)
    requires k != ExpireWindows
    ensures AllowedRun(db, Actions(k, items)) && ForEachId(db, k, items).db == Run(db, Actions(k, items))
    decreases |items|
  {
    hide Step;
    if |items| > 0 {
      assert Actions(k, items)[1..] == Actions(k, items[1..]);
      SweepIsARun(Step(db, WorkOn(k, items[0])).db, k, items[1..]);
    }
  }

  // ── One due item ─────────────────────────────────────────────────────────

  lemma PayRecords(db: Db, service: Item, partner: nat, key: Key, amount: int)
    requires PayPartner(db, service, partner, key, amount).reply == Done
    ensures var next := PayPartner(db, service, partner, key, amount).db;
      && next == db.(bank := next.bank, earnings := next.earnings)
      && forall x :: Earned(next, x) <==> Earned(db, x) || x == service
  {
    hide Post, PaidFor;
    var next := PayPartner(db, service, partner, key, amount).db;
    forall x { PaidForAppend(db.earnings, next.earnings[|db.earnings|], x); }
  }

  /** Working a due item succeeds and changes nothing else that is due. Confirming a
      delivery may make it due for settlement, and so may completing a booking. */
  ghost predicate Worked(db: Db, next: Db, k: Sweep, item: Item) {
    && next.now == db.now
    && (forall j, x :: x != item ==> (Due(next, j, x) <==> Due(db, j, x)))
    && !Due(next, k, item)
    && (forall j :: Due(next, j, item) && !Due(db, j, item) ==> Follows(j, k))
  }

  predicate Follows(j: Sweep, k: Sweep) {
    (k == ExpireBookings && j == SettleBookings) || (k == ConfirmShoutouts && j == SettleShoutouts)
  }

  lemma BookingSettleWorks(db: Db, i: nat)
    requires MoneyInv(db) && Due(db, SettleBookings, BookingItem(i))
    ensures var out := SettleBooking(db, i); out.reply == Done && Worked(db, out.db, SettleBookings, BookingItem(i))
  {
    hide BankOk, EarningsOk, HasKey, ItemFlow, PayPartner, BookingStep, PaidFor;
    assert BookingOk(db, i);
    SettleBookingEffect(db, i);
    PayRecords(db, BookingItem(i), db.bookings[i].partner, Settle(i), db.bookings[i].original);
    SameRowsWorked(db, SettleBooking(db, i).db, SettleBookings, BookingItem(i));
  }

  lemma WindowSettleWorks(db: Db, c: nat, w: nat)
    requires MoneyInv(db) && Due(db, SettleWindows, WindowItem(c, w))
    ensures var out := SettleQuestion(db, c, w); out.reply == Done && Worked(db, out.db, SettleWindows, WindowItem(c, w))
  {
    hide BankOk, EarningsOk, HasKey, ItemFlow, PayPartner, WindowStep, PaidFor;
    assert WindowOk(db, c, w);
    SettleQuestionEffect(db, c, w);
    PayRecords(db, WindowItem(c, w), db.conversations[c].partner, SettleWindow(c, w), WindowAt(db, c, w).charge);
    SameRowsWorked(db, SettleQuestion(db, c, w).db, SettleWindows, WindowItem(c, w));
  }

  lemma ShoutoutSettleWorks(db: Db, s: nat)
    requires MoneyInv(db) && Due(db, SettleShoutouts, ShoutoutItem(s))
    ensures var out := SettleShoutout(db, s); out.reply == Done && Worked(db, out.db, SettleShoutouts, ShoutoutItem(s))
  {
    hide BankOk, EarningsOk, HasKey, ItemFlow, PayPartner, ShoutoutStep, PaidFor;
    assert ShoutoutOk(db, s);
    SettleEffect(db, s);
    PayRecords(db, ShoutoutItem(s), db.shoutouts[s].partner, SettleShout(s),
               db.shoutouts[s].price + Fees(db.shoutouts[s].corrections));
    SameRowsWorked(db, SettleShoutout(db, s).db, SettleShoutouts, ShoutoutItem(s));
  }

  /** A settlement changes no row, only that its service is now earned. */
  lemma SameRowsWorked(db: Db, next: Db, k: Sweep, item: Item)
    requires next == db.(bank := next.bank, earnings := next.earnings)
    requires forall x :: Earned(next, x) <==> Earned(db, x) || x == item
    requires k in {SettleBookings, SettleWindows, SettleShoutouts}
    ensures Worked(db, next, k, item)
  {
    hide PaidFor;
  }

  lemma BookingExpiryWorks(db: Db, i: nat)
    requires MoneyInv(db) && Due(db, ExpireBookings, BookingItem(i))
    ensures var out := ExpireBooking(db, i); out.reply == Done && Worked(db, out.db, ExpireBookings, BookingItem(i))
  {
    hide MoneyInv, Post, PaidFor, LongestCall, AnyCall, AnyTerminal;
    ExpireKeepsMoney(db, i);
    var next := ExpireBooking(db, i).db;
    assert next == db.(bank := next.bank, bookings := next.bookings, slots := next.slots);
    assert next.bookings == db.bookings[i := next.bookings[i]] && next.bookings[i].status != Booked;
  }

  lemma WindowExpiryWorks(db: Db, c: nat, w: nat)
    requires MoneyInv(db) && Due(db, ExpireWindows, WindowItem(c, w))
    ensures var out := ExpireWindow(db, c, w); out.reply == Done && Worked(db, out.db, ExpireWindows, WindowItem(c, w))
    ensures !Earned(db, WindowItem(c, w))
  {
    hide BankOk, EarningsOk, HasKey, ItemFlow, Post, PaidFor;
    assert WindowOk(db, c, w);
    ExpireWindowKeepsMoney(db, c, w);
    var next := ExpireWindow(db, c, w).db;
    assert next == db.(bank := next.bank, conversations := next.conversations);
    SetTouchesOne(db, db.(bank := next.bank), c, w, WindowAt(db, c, w).(status := WindowExpired));
  }

  lemma ConfirmWorks(db: Db, s: nat)
    requires MoneyInv(db) && Due(db, ConfirmShoutouts, ShoutoutItem(s))
    ensures var out := AutoConfirmShoutout(db, s);
      out.reply == Done && Worked(db, out.db, ConfirmShoutouts, ShoutoutItem(s))
  {
    hide MoneyInv, Post, PaidFor;
  }

  lemma ShoutoutExpiryWorks(db: Db, s: nat)
    requires MoneyInv(db) && Due(db, ExpireShoutouts, ShoutoutItem(s))
    ensures var out := ExpireShoutout(db, s);
      out.reply == Done && Worked(db, out.db, ExpireShoutouts, ShoutoutItem(s))
  {
    hide MoneyInv, Post, PaidFor, HasKey;
    ExpireShoutoutKeepsMoney(db, s);
    var next := ExpireShoutout(db, s).db;
    assert next == db.(bank := next.bank, shoutouts := next.shoutouts);
    assert next.shoutouts == db.shoutouts[s := next.shoutouts[s]];
  }

  /** Every due item is worked: refunds to existing wallets never fail. */
  lemma DueItemsAreWorked(db: Db, k: Sweep, item: Item)
    requires Inv(db) && Due(db, k, item)
    ensures var out := Step(db, WorkOn(k, item));
      out.reply == Done && Inv(out.db) && Worked(db, out.db, k, item)
  {
    hide CapacityOk, CallsOk, MessagesOk, ShoutoutRulesOk, MoneyInv, Step, Worked;
    var a := WorkOn(k, item);
    assert Step(db, a).reply == Done && Worked(db, Step(db, a).db, k, item) && Allowed(db, a) by {
      ItemWorks(db, k, item);
    }
    StepKeepsInv(db, a);
  }

  lemma ItemWorks(db: Db, k: Sweep, item: Item)
    requires MoneyInv(db) && Due(db, k, item)
    ensures Step(db, WorkOn(k, item)).reply == Done && Worked(db, Step(db, WorkOn(k, item)).db, k, item)
    ensures Allowed(db, WorkOn(k, item))
  {
    hide MoneyInv, Worked, ExpireBooking, ExpireWindow, SettleBooking, SettleQuestion, SettleShoutout,
         AutoConfirmShoutout, ExpireShoutout;
    match k {
      case ExpireBookings => BookingExpiryWorks(db, item.booking);
      case SettleBookings => BookingSettleWorks(db, item.booking);
      case SettleWindows => WindowSettleWorks(db, item.conversation, item.window);
      case ConfirmShoutouts => ConfirmWorks(db, item.shoutout);
      case ExpireShoutouts => ShoutoutExpiryWorks(db, item.shoutout);
      case SettleShoutouts => ShoutoutSettleWorks(db, item.shoutout);
      case ExpireWindows => WindowExpiryWorks(db, item.conversation, item.window);
    }
  }

  // ── Batches drain what is due ────────────────────────────────────────────

  ghost function DueSet(db: Db, k: Sweep): (due: set<Item>)
    ensures forall x :: x in due <==> Due(db, k, x)
  {
    var bookings := set i | 0 <= i < |db.bookings| && Due(db, k, BookingItem(i)) :: BookingItem(i);
    var shoutouts := set s | 0 <= s < |db.shoutouts| && Due(db, k, ShoutoutItem(s)) :: ShoutoutItem(s);
    var windows := set c, w | 0 <= c < |db.conversations| && 0 <= w < |db.conversations[c].windows|
                              && Due(db, k, WindowItem(c, w)) :: WindowItem(c, w);
    bookings + shoutouts + windows
  }

  ghost predicate Distinct(items: seq<Item>) {
    forall i, j :: 0 <= i < j < |items| ==> items[i] != items[j]
  }

  ghost function Elements(items: seq<Item>): set<Item> { set x | x in items }

  /** What a job query with LIMIT 200 returns. */
  ghost predicate IsBatch(db: Db, k: Sweep, items: seq<Item>) {
    Distinct(items) && Elements(items) <= DueSet(db, k) && |items| == Min(BATCH, |DueSet(db, k)|)
  }

  /** How much work is left: an item that will become due for settlement counts twice. */
  ghost function Backlog(db: Db): nat {
    2 * |DueSet(db, ExpireBookings)| + |DueSet(db, SettleBookings)| + |DueSet(db, SettleWindows)|
    + 2 * |DueSet(db, ConfirmShoutouts)| + |DueSet(db, ExpireShoutouts)| + |DueSet(db, SettleShoutouts)|
    + |DueSet(db, ExpireWindows)|
  }

  lemma DueChange(db: Db, next: Db, k: Sweep, item: Item, j: Sweep)
    requires Due(db, k, item) && Worked(db, next, k, item)
    ensures j == k ==> DueSet(next, j) == DueSet(db, j) - {item} && |DueSet(next, j)| == |DueSet(db, j)| - 1
    ensures j != k && !Follows(j, k) ==> |DueSet(next, j)| <= |DueSet(db, j)|
    ensures Follows(j, k) ==> |DueSet(next, j)| <= |DueSet(db, j)| + 1
  {
    hide Due, Follows, DueSet;
    var was, now := DueSet(db, j), DueSet(next, j);
    if j == k {
      assert now == was - {item};
    } else if Follows(j, k) {
      assert now <= was + {item};
      Smaller(now, was + {item});
    } else {
      assert now <= was;
      Smaller(now, was);
    }
  }

  lemma WorkingLowersBacklog(db: Db, next: Db, k: Sweep, item: Item)
    requires Due(db, k, item) && Worked(db, next, k, item)
    ensures DueSet(next, k) == DueSet(db, k) - {item}
    ensures Backlog(next) < Backlog(db)
  {
    hide Due, Worked, DueSet;
    DueChange(db, next, k, item, ExpireBookings);
    DueChange(db, next, k, item, SettleBookings);
    DueChange(db, next, k, item, SettleWindows);
    DueChange(db, next, k, item, ConfirmShoutouts);
    DueChange(db, next, k, item, ExpireShoutouts);
    DueChange(db, next, k, item, SettleShoutouts);
    DueChange(db, next, k, item, ExpireWindows);
  }

  lemma Smaller(a: set<Item>, b: set<Item>)
    requires a <= b
    ensures |a| <= |b|
  {
    assert b == a + (b - a);
  }

  /** One run over a batch of due items: all succeed, exactly those are no longer due,
      and the backlog falls by at least their number. */
  lemma {:induction false} BatchIsWorkedOff(db: Db, k: Sweep, items: seq<Item>)
    requires Inv(db) && Distinct(items) && Elements(items) <= DueSet(db, k)
    ensures var t := ForEachId(db, k, items);
      && t.ok == |items| && t.failed == 0 && Inv(t.db)
      && DueSet(t.db, k) == DueSet(db, k) - Elements(items)
      && Backlog(t.db) + |items| <= Backlog(db)
    decreases |items|
  {
    hide Inv, Step, WorkOn, Due, Backlog, Worked, DueSet;
    if |items| == 0 {
      assert DueSet(db, k) - Elements(items) == DueSet(db, k);
    } else {
      var x := items[0];
      assert x in Elements(items);
      DueItemsAreWorked(db, k, x);
      var next := Step(db, WorkOn(k, x)).db;
      WorkingLowersBacklog(db, next, k, x);
      var rest := items[1..];
      assert Elements(items) == Elements(rest) + {x};
      assert forall j :: 0 <= j < |rest| ==> rest[j] == items[j + 1];
      BatchIsWorkedOff(next, k, rest);
      assert DueSet(db, k) - {x} - Elements(rest) == DueSet(db, k) - Elements(items);
    }
  }

  lemma ElementCount(items: seq<Item>)
    requires Distinct(items)
    ensures |Elements(items)| == |items|
  {
    if |items| > 0 {
      var rest := items[1..];
      ElementCount(rest);
      assert Elements(items) == Elements(rest) + {items[0]};
      assert forall j :: 0 <= j < |rest| ==> rest[j] == items[j + 1];
    }
  }

  /** A run leaves what was due less 200. */
  lemma RunTakesTwoHundred(db: Db, k: Sweep, items: seq<Item>)
    requires Inv(db) && IsBatch(db, k, items)
    ensures |DueSet(ForEachId(db, k, items).db, k)| == |DueSet(db, k)| - Min(200, |DueSet(db, k)|)
  {
    hide Inv, Due, Backlog, DueSet;
    BatchIsWorkedOff(db, k, items);
    ElementCount(items);
    assert DueSet(db, k) == (DueSet(db, k) - Elements(items)) + Elements(items);
  }

  // ── One sweep again and again ────────────────────────────────────────────

  function RunSweeps(db: Db, k: Sweep, rounds: seq<seq<Item>>): Db
    decreases |rounds|
  {
    if |rounds| == 0 then db else RunSweeps(ForEachId(db, k, rounds[0]).db, k, rounds[1..])
  }

  ghost predicate SweepsListed(db: Db, k: Sweep, rounds: seq<seq<Item>>)
    decreases |rounds|
  {
    |rounds| == 0 || (IsBatch(db, k, rounds[0]) && SweepsListed(ForEachId(db, k, rounds[0]).db, k, rounds[1..]))
  }

  /** At a fixed clock each round takes 200 until none is left, and nothing new becomes
      due for the sweep. */
  lemma {:induction false} RepeatedSweepsDrain(db: Db, k: Sweep, rounds: seq<seq<Item>>)
    requires Inv(db) && SweepsListed(db, k, rounds)
    ensures var later := RunSweeps(db, k, rounds);
      && Inv(later) && DueSet(later, k) <= DueSet(db, k)
      && |DueSet(later, k)| == Max(0, |DueSet(db, k)| - 200 * |rounds|)
    decreases |rounds|
  {
    hide Inv, Due, Backlog, DueSet, Step, WorkOn;
    if |rounds| > 0 {
      BatchIsWorkedOff(db, k, rounds[0]);
      RunTakesTwoHundred(db, k, rounds[0]);
      RepeatedSweepsDrain(ForEachId(db, k, rounds[0]).db, k, rounds[1..]);
    }
  }

  /** Enough expiry jobs at a fixed clock leave no overdue window open. */
  lemma RepeatedExpiriesLeaveNoneOverdue(db: Db, rounds: seq<seq<Item>>)
    requires Inv(db) && SweepsListed(db, ExpireWindows, rounds) && |DueSet(db, ExpireWindows)| <= 200 * |rounds|
    ensures var later := RunSweeps(db, ExpireWindows, rounds);
      forall c: nat, w: nat :: HasWindow(later, c, w) ==>
        var row := WindowAt(later, c, w);
        row.kind == Paid && row.status == Open && row.responseDeadline.Some? ==> later.now < row.responseDeadline.value
  {
    hide Inv, Due, DueSet, RunSweeps, SweepsListed, WindowOverdue;
    RepeatedSweepsDrain(db, ExpireWindows, rounds);
    var later := RunSweeps(db, ExpireWindows, rounds);
    assert |DueSet(later, ExpireWindows)| == 0;
    forall c: nat, w: nat | HasWindow(later, c, w)
      ensures var row := WindowAt(later, c, w);
        row.kind == Paid && row.status == Open && row.responseDeadline.Some? ==> later.now < row.responseDeadline.value
    {
      assert WindowItem(c, w) !in DueSet(later, ExpireWindows);
      NotDueMeansInTime(later, c, w);
    }
  }

  lemma NotDueMeansInTime(db: Db, c: nat, w: nat)
    requires HasWindow(db, c, w)
    ensures Due(db, ExpireWindows, WindowItem(c, w)) <==>
      var row := WindowAt(db, c, w);
      row.kind == Paid && row.status == Open && row.responseDeadline.Some? && db.now >= row.responseDeadline.value
  {
  }

  // ── The settle job: six sweeps in a fixed order ──────────────────────────

  const SETTLE_JOB: seq<Sweep> :=
    [ExpireBookings, SettleBookings, SettleWindows, ConfirmShoutouts, ExpireShoutouts, SettleShoutouts]

  function RunPhases(db: Db, phases: seq<Sweep>, batches: seq<seq<Item>>): Db
    requires |batches| == |phases|
    decreases |phases|
  {
    if |phases| == 0 then db
    else RunPhases(ForEachId(db, phases[0], batches[0]).db, phases[1..], batches[1..])
  }

  /** Each sweep lists its ids when it starts, after the sweeps before it. */
  ghost predicate BatchesListed(db: Db, phases: seq<Sweep>, batches: seq<seq<Item>>)
    requires |batches| == |phases|
    decreases |phases|
  {
    |phases| == 0 ||
    (&& IsBatch(db, phases[0], batches[0])
     && BatchesListed(ForEachId(db, phases[0], batches[0]).db, phases[1..], batches[1..]))
  }

  /** While anything one of its sweeps looks for is due, a run at a fixed clock
      strictly lowers the backlog, so repeated runs leave nothing due. */
  lemma {:induction false} JobLowersBacklog(db: Db, phases: seq<Sweep>, batches: seq<seq<Item>>)
    requires Inv(db) && |batches| == |phases| && BatchesListed(db, phases, batches)
    ensures Inv(RunPhases(db, phases, batches))
    ensures Backlog(RunPhases(db, phases, batches)) <= Backlog(db)
    ensures (exists k :: k in phases && DueSet(db, k) != {}) ==> Backlog(RunPhases(db, phases, batches)) < Backlog(db)
    decreases |phases|
  {
    hide Inv, Due, Backlog, DueSet, Step, WorkOn;
    if |phases| > 0 {
      BatchIsWorkedOff(db, phases[0], batches[0]);
      var mid := ForEachId(db, phases[0], batches[0]).db;
      JobLowersBacklog(mid, phases[1..], batches[1..]);
      if k :| k in phases && DueSet(db, k) != {} {
        if DueSet(db, phases[0]) == {} {
          assert batches[0] == [] && mid == db;
          assert k in phases[1..];
        } else {
          assert |DueSet(db, phases[0])| > 0;
        }
      }
    }
  }

  /** The settle job itself, as the scheduler runs it. */
  lemma SettleJobDrains(db: Db, batches: seq<seq<Item>>)
    requires Inv(db) && |batches| == |SETTLE_JOB| && BatchesListed(db, SETTLE_JOB, batches)
    ensures Inv(RunPhases(db, SETTLE_JOB, batches))
    ensures (exists k :: k != ExpireWindows && DueSet(db, k) != {}) ==>
              Backlog(RunPhases(db, SETTLE_JOB, batches)) < Backlog(db)
    ensures Backlog(db) == 0 ==> forall k, x :: !Due(db, k, x)
  {
    hide Inv, Due, RunPhases, BatchesListed, DueSet;
    JobLowersBacklog(db, SETTLE_JOB, batches);
    EverySettlementIsInTheJob();
    if Backlog(db) == 0 {
      forall k, x ensures !Due(db, k, x) {
        assert |DueSet(db, k)| == 0;
        assert x !in DueSet(db, k);
      }
    }
  }

  // ── Repeated settle jobs ─────────────────────────────────────────────────

  /** Nothing is due that the settle job looks for. */
  ghost predicate Settled(db: Db) {
    forall k :: k != ExpireWindows ==> DueSet(db, k) == {}
  }

  /** The booking is not past its time undecided, nor complete, past it and unpaid. */
  predicate BookingIsSettled(db: Db, i: nat)
    requires i < |db.bookings|
  {
    var b := db.bookings[i];
    db.now >= b.settleAt ==>
      b.status != Booked && (b.status == Completed && !OpenCallReport(db.reports, i) ==> Earned(db, BookingItem(i)))
  }

  predicate WindowIsSettled(db: Db, c: nat, w: nat)
    requires HasWindow(db, c, w)
  {
    var row := WindowAt(db, c, w);
    row.kind == Paid && row.status == Answered && row.settleAt.Some? && db.now >= row.settleAt.value ==>
      OpenReportOn(db.reports, WindowTarget(c, w)) || Earned(db, WindowItem(c, w))
  }

  predicate ShoutoutIsSettled(db: Db, s: nat)
    requires s < |db.shoutouts|
  {
    var r := db.shoutouts[s];
    && (r.status == AwaitingVideo ==> db.now < r.settleAt)
    && (r.status == Delivered && r.confirmed.None? && r.reviewDeadline.Some? ==> db.now < r.reviewDeadline.value)
    && (r.status == Delivered && r.confirmed.Some? && db.now >= r.settleAt ==> Earned(db, ShoutoutItem(s)))
  }

  /** Nothing due means that every service past its time is decided, and paid if it is
      complete and not reported. */
  lemma SettledMeansPaid(db: Db)
    requires Settled(db)
    ensures forall i :: 0 <= i < |db.bookings| ==> BookingIsSettled(db, i)
    ensures forall c: nat, w: nat :: HasWindow(db, c, w) ==> WindowIsSettled(db, c, w)
    ensures forall s :: 0 <= s < |db.shoutouts| ==> ShoutoutIsSettled(db, s)
  {
    hide PaidFor, OpenCallReport, OpenReportOn, DueSet;
    forall k, x | k != ExpireWindows ensures !Due(db, k, x) { assert x !in DueSet(db, k); }
    forall i | 0 <= i < |db.bookings| ensures BookingIsSettled(db, i) {
      assert !Due(db, ExpireBookings, BookingItem(i)) && !Due(db, SettleBookings, BookingItem(i));
    }
    forall c: nat, w: nat | HasWindow(db, c, w) ensures WindowIsSettled(db, c, w) {
      assert !Due(db, SettleWindows, WindowItem(c, w));
    }
    forall s | 0 <= s < |db.shoutouts| ensures ShoutoutIsSettled(db, s) {
      assert !Due(db, ExpireShoutouts, ShoutoutItem(s)) && !Due(db, ConfirmShoutouts, ShoutoutItem(s));
      assert !Due(db, SettleShoutouts, ShoutoutItem(s));
    }
  }

  function RunJobs(db: Db, rounds: seq<seq<seq<Item>>>): Db
    requires forall r :: 0 <= r < |rounds| ==> |rounds[r]| == |SETTLE_JOB|
    decreases |rounds|
  {
    if |rounds| == 0 then db else RunJobs(RunPhases(db, SETTLE_JOB, rounds[0]), rounds[1..])
  }

  ghost predicate JobsListed(db: Db, rounds: seq<seq<seq<Item>>>)
    requires forall r :: 0 <= r < |rounds| ==> |rounds[r]| == |SETTLE_JOB|
    decreases |rounds|
  {
    |rounds| == 0 ||
    (&& BatchesListed(db, SETTLE_JOB, rounds[0])
     && JobsListed(RunPhases(db, SETTLE_JOB, rounds[0]), rounds[1..]))
  }

  /** With nothing due every list is empty and the job changes nothing. */
  lemma {:induction false} IdleJob(db: Db, phases: seq<Sweep>, batches: seq<seq<Item>>)
    requires |batches| == |phases| && BatchesListed(db, phases, batches)
    requires forall k :: k in phases ==> DueSet(db, k) == {}
    ensures RunPhases(db, phases, batches) == db
    decreases |phases|
  {
    hide Due, DueSet, Step, WorkOn;
    if |phases| > 0 {
      assert phases[0] in phases && batches[0] == [];
      IdleJob(db, phases[1..], batches[1..]);
    }
  }

  lemma EverySettlementIsInTheJob()
    ensures forall k :: k != ExpireWindows <==> k in SETTLE_JOB
  {
    assert SETTLE_JOB[0] == ExpireBookings && SETTLE_JOB[1] == SettleBookings && SETTLE_JOB[2] == SettleWindows;
    assert SETTLE_JOB[3] == ConfirmShoutouts && SETTLE_JOB[4] == ExpireShoutouts && SETTLE_JOB[5] == SettleShoutouts;
  }

  /** Repeated settle jobs at a fixed clock come to an end with nothing due: at the
      latest after as many as the backlog counts, and from then on for good. */
  lemma {:induction false} RepeatedJobsSettleEverything(db: Db, rounds: seq<seq<seq<Item>>>)
    requires Inv(db) && (forall r :: 0 <= r < |rounds| ==> |rounds[r]| == |SETTLE_JOB|) && JobsListed(db, rounds)
    requires |rounds| >= Backlog(db) || Settled(db)
    ensures var later := RunJobs(db, rounds);
      Settled(later) && forall k, x :: k != ExpireWindows ==> !Due(later, k, x)
    decreases |rounds|
  {
    hide Inv, Due, DueSet, RunPhases, BatchesListed;
    if |rounds| == 0 {
      if Backlog(db) == 0 { NoBacklogMeansSettled(db); }
      forall k, x | k != ExpireWindows ensures !Due(db, k, x) { assert x !in DueSet(db, k); }
    } else {
      EverySettlementIsInTheJob();
      JobLowersBacklog(db, SETTLE_JOB, rounds[0]);
      if Settled(db) { IdleJob(db, SETTLE_JOB, rounds[0]); }
      RepeatedJobsSettleEverything(RunPhases(db, SETTLE_JOB, rounds[0]), rounds[1..]);
    }
  }

  lemma NoBacklogMeansSettled(db: Db)
    requires Backlog(db) == 0
    ensures Settled(db)
  {
    hide Due, DueSet;
    forall k | k != ExpireWindows ensures DueSet(db, k) == {} { assert |DueSet(db, k)| == 0; }
  }

  // ── A booking completed by a job is not paid by it ───────────────────────

  /** Not paid, and if completed then only now, with the whole review time ahead. */
  predicate UnderReview(db: Db, i: nat) {
    && i < |db.bookings| && !Earned(db, BookingItem(i)) && db.settings.settlementWindow > 0
    && (db.bookings[i].status == Completed ==> db.bookings[i].settleAt == db.now + db.settings.settlementWindow)
  }

  lemma ExpiryStartsReview(db: Db, x: nat, i: nat)
    requires UnderReview(db, i) && DueForExpiry(db, x)
    ensures UnderReview(ExpireBooking(db, x).db, i)
  {
    hide Post, PaidFor, Classify;
  }

  lemma PaymentKeepsReview(db: Db, next: Db, item: Item, i: nat)
    requires UnderReview(db, i) && item != BookingItem(i)
    requires next == db.(bank := next.bank, earnings := next.earnings)
    requires forall x :: Earned(next, x) <==> Earned(db, x) || x == item
    ensures UnderReview(next, i)
  {
    hide PaidFor;
  }

  lemma RowsKeepReview(db: Db, next: Db, i: nat)
    requires UnderReview(db, i) && next.bookings == db.bookings && next.earnings == db.earnings
    requires next.now == db.now && next.settings == db.settings
    ensures UnderReview(next, i)
  {
  }

  lemma WorkKeepsReview(db: Db, k: Sweep, item: Item, i: nat)
    requires Inv(db) && Due(db, k, item) && UnderReview(db, i)
    ensures UnderReview(Step(db, WorkOn(k, item)).db, i)
  {
    DueItemsAreWorked(db, k, item);
    hide Inv, PaidFor, UnderReview, Post, PayPartner, Worked, Step;
    match k {
      case ExpireBookings => ExpiryStartsReview(db, item.booking, i); ExpiryStep(db, item.booking);
      case SettleBookings => SettlingBookingKeepsReview(db, item.booking, i);
      case SettleWindows => SettlingWindowKeepsReview(db, item.conversation, item.window, i);
      case SettleShoutouts => SettlingShoutoutKeepsReview(db, item.shoutout, i);
      case _ => OtherWorkKeepsReview(db, k, item, i);
    }
  }

  lemma ExpiryStep(db: Db, x: nat)
    ensures Step(db, WorkOn(ExpireBookings, BookingItem(x))) == ExpireBooking(db, x)
  {
  }

  lemma SettlingBookingKeepsReview(db: Db, x: nat, i: nat)
    requires Due(db, SettleBookings, BookingItem(x)) && UnderReview(db, i)
    requires Step(db, WorkOn(SettleBookings, BookingItem(x))).reply == Done
    ensures UnderReview(Step(db, WorkOn(SettleBookings, BookingItem(x))).db, i)
  {
    hide PaidFor, PayPartner, OpenCallReport;
    var b := db.bookings[x];
    assert x != i;
    PayRecords(db, BookingItem(x), b.partner, Settle(x), b.original);
    PaymentKeepsReview(db, SettleBooking(db, x).db, BookingItem(x), i);
  }

  lemma SettlingWindowKeepsReview(db: Db, c: nat, w: nat, i: nat)
    requires Due(db, SettleWindows, WindowItem(c, w)) && UnderReview(db, i)
    requires Step(db, WorkOn(SettleWindows, WindowItem(c, w))).reply == Done
    ensures UnderReview(Step(db, WorkOn(SettleWindows, WindowItem(c, w))).db, i)
  {
    hide PaidFor, PayPartner, OpenReportOn, UnderReview;
    PayRecords(db, WindowItem(c, w), db.conversations[c].partner, SettleWindow(c, w), WindowAt(db, c, w).charge);
    PaymentKeepsReview(db, SettleQuestion(db, c, w).db, WindowItem(c, w), i);
  }

  lemma SettlingShoutoutKeepsReview(db: Db, s: nat, i: nat)
    requires Due(db, SettleShoutouts, ShoutoutItem(s)) && UnderReview(db, i)
    requires Step(db, WorkOn(SettleShoutouts, ShoutoutItem(s))).reply == Done
    ensures UnderReview(Step(db, WorkOn(SettleShoutouts, ShoutoutItem(s))).db, i)
  {
    hide PaidFor, PayPartner, Fees, UnderReview;
    var r := db.shoutouts[s];
    PayRecords(db, ShoutoutItem(s), r.partner, SettleShout(s), r.price + Fees(r.corrections));
    PaymentKeepsReview(db, SettleShoutout(db, s).db, ShoutoutItem(s), i);
  }

  lemma OtherWorkKeepsReview(db: Db, k: Sweep, item: Item, i: nat)
    requires k in {ConfirmShoutouts, ExpireShoutouts, ExpireWindows} && Due(db, k, item) && UnderReview(db, i)
    ensures UnderReview(Step(db, WorkOn(k, item)).db, i)
  {
    hide PaidFor, Post, UnderReview, HasKey;
    RowsKeepReview(db, Step(db, WorkOn(k, item)).db, i);
  }

  lemma {:induction false} BatchKeepsReview(db: Db, k: Sweep, items: seq<Item>, i: nat)
    requires Inv(db) && Distinct(items) && Elements(items) <= DueSet(db, k) && UnderReview(db, i)
    ensures UnderReview(ForEachId(db, k, items).db, i)
    decreases |items|
  {
    hide Inv, Step, WorkOn, Due, Backlog, Worked, DueSet, UnderReview;
    if |items| > 0 {
      var x := items[0];
      assert x in Elements(items);
      WorkKeepsReview(db, k, x, i);
      DueItemsAreWorked(db, k, x);
      var next := Step(db, WorkOn(k, x)).db;
      WorkingLowersBacklog(db, next, k, x);
      var rest := items[1..];
      assert forall j :: 0 <= j < |rest| ==> rest[j] == items[j + 1];
      assert forall y :: y in Elements(rest) ==> y in Elements(items) && y != x;
      BatchKeepsReview(next, k, rest, i);
    }
  }

  lemma {:induction false} PhasesKeepReview(db: Db, phases: seq<Sweep>, batches: seq<seq<Item>>, i: nat)
    requires Inv(db) && |batches| == |phases| && BatchesListed(db, phases, batches) && UnderReview(db, i)
    ensures UnderReview(RunPhases(db, phases, batches), i)
    decreases |phases|
  {
    hide Inv, Due, Backlog, DueSet, Step, WorkOn, UnderReview;
    if |phases| > 0 {
      BatchKeepsReview(db, phases[0], batches[0], i);
      BatchIsWorkedOff(db, phases[0], batches[0]);
      PhasesKeepReview(ForEachId(db, phases[0], batches[0]).db, phases[1..], batches[1..], i);
    }
  }

  lemma {:induction false} JobsKeepReview(db: Db, rounds: seq<seq<seq<Item>>>, i: nat)
    requires Inv(db) && (forall r :: 0 <= r < |rounds| ==> |rounds[r]| == |SETTLE_JOB|) && JobsListed(db, rounds)
    requires UnderReview(db, i)
    ensures UnderReview(RunJobs(db, rounds), i)
    decreases |rounds|
  {
    hide Inv, DueSet, RunPhases, BatchesListed, Backlog, UnderReview;
    if |rounds| > 0 {
      PhasesKeepReview(db, SETTLE_JOB, rounds[0], i);
      JobLowersBacklog(db, SETTLE_JOB, rounds[0]);
      JobsKeepReview(RunPhases(db, SETTLE_JOB, rounds[0]), rounds[1..], i);
    }
  }

  /** However many settle jobs run at one moment, a booking that was BOOKED before them is
      not paid by them: if they completed it, its fan has the whole review time. */
  lemma CompletedIsNotPaidAtOnce(db: Db, rounds: seq<seq<seq<Item>>>, i: nat)
    requires Inv(db) && (forall r :: 0 <= r < |rounds| ==> |rounds[r]| == |SETTLE_JOB|) && JobsListed(db, rounds)
    requires i < |db.bookings| && db.bookings[i].status == Booked && db.settings.settlementWindow > 0
    ensures var later := RunJobs(db, rounds);
      && i < |later.bookings| && !Earned(later, BookingItem(i)) && !Due(later, SettleBookings, BookingItem(i))
      && (later.bookings[i].status == Completed ==> later.bookings[i].settleAt == later.now + later.settings.settlementWindow)
  {
    BookedIsUnpaid(db, i);
    hide Inv, JobsListed, RunJobs, Earned;
    JobsKeepReview(db, rounds, i);
  }

  lemma BookedIsUnpaid(db: Db, i: nat)
    requires Inv(db) && i < |db.bookings| && db.bookings[i].status == Booked
    ensures !Earned(db, BookingItem(i))
  {
    hide BankOk, EarningsOk, HasKey, ItemFlow, PaidFor, CapacityOk, CallsOk, MessagesOk, ShoutoutRulesOk;
    assert BookingOk(db, i);
  }

  /** Some distinct elements of a set. */
  lemma SomeOf(all: set<Item>, n: nat) returns (items: seq<Item>)
    requires n <= |all|
    ensures Distinct(items) && |items| == n && Elements(items) <= all
    decreases n
  {
    items := [];
    if n > 0 {
      var x :| x in all;
      var rest := SomeOf(all - {x}, n - 1);
      items := [x] + rest;
      assert forall j :: 0 <= j < |rest| ==> rest[j] in Elements(rest) && rest[j] != x;
    }
  }

  /** A query always has a batch to return, so such sequences of jobs exist. */
  lemma PhasesCanBeListed(db: Db, phases: seq<Sweep>) returns (batches: seq<seq<Item>>)
    ensures |batches| == |phases| && BatchesListed(db, phases, batches)
    decreases |phases|
  {
    hide Due, DueSet, Step, WorkOn;
    batches := [];
    if |phases| > 0 {
      var first := SomeOf(DueSet(db, phases[0]), Min(BATCH, |DueSet(db, phases[0])|));
      var rest := PhasesCanBeListed(ForEachId(db, phases[0], first).db, phases[1..]);
      batches := [first] + rest;
      assert batches[1..] == rest;
    }
  }

  lemma SweepsCanBeListed(db: Db, k: Sweep, n: nat) returns (rounds: seq<seq<Item>>)
    ensures |rounds| == n && SweepsListed(db, k, rounds)
    decreases n
  {
    hide Due, DueSet, Step, WorkOn;
    rounds := [];
    if n > 0 {
      var first := SomeOf(DueSet(db, k), Min(BATCH, |DueSet(db, k)|));
      var rest := SweepsCanBeListed(ForEachId(db, k, first).db, k, n - 1);
      rounds := [first] + rest;
      assert rounds[1..] == rest;
    }
  }

  lemma JobsCanBeListed(db: Db, n: nat) returns (rounds: seq<seq<seq<Item>>>)
    ensures |rounds| == n && forall r :: 0 <= r < |rounds| ==> |rounds[r]| == |SETTLE_JOB|
    ensures JobsListed(db, rounds)
    decreases n
  {
    hide BatchesListed, RunPhases;
    rounds := [];
    if n > 0 {
      var first := PhasesCanBeListed(db, SETTLE_JOB);
      var rest := JobsCanBeListed(RunPhases(db, SETTLE_JOB, first), n - 1);
      rounds := [first] + rest;
      assert rounds[1..] == rest;
    }
  }

  lemma BatchIsDue(db: Db, k: Sweep, items: seq<Item>)
    requires IsBatch(db, k, items)
    ensures Distinct(items) && forall i :: 0 <= i < |items| ==> Due(db, k, items[i])
  {
    hide Due, DueSet;
    forall i | 0 <= i < |items| ensures Due(db, k, items[i]) {
      assert items[i] in Elements(items);
    }
  }

  /** The settle job, phase by phase. */
  lemma JobUnfolds(db: Db, batches: seq<seq<Item>>)
    requires |batches| == |SETTLE_JOB|
    ensures var d1 := ForEachId(db, ExpireBookings, batches[0]).db;
      var d2 := ForEachId(d1, SettleBookings, batches[1]).db;
      var d3 := ForEachId(d2, SettleWindows, batches[2]).db;
      var d4 := ForEachId(d3, ConfirmShoutouts, batches[3]).db;
      var d5 := ForEachId(d4, ExpireShoutouts, batches[4]).db;
      RunPhases(db, SETTLE_JOB, batches) == ForEachId(d5, SettleShoutouts, batches[5]).db
    ensures BatchesListed(db, SETTLE_JOB, batches) ==> IsBatch(db, ExpireBookings, batches[0])
  {
    hide ForEachId, IsBatch;
    var d1 := ForEachId(db, ExpireBookings, batches[0]).db;
    var d2 := ForEachId(d1, SettleBookings, batches[1]).db;
    var d3 := ForEachId(d2, SettleWindows, batches[2]).db;
    var d4 := ForEachId(d3, ConfirmShoutouts, batches[3]).db;
    var d5 := ForEachId(d4, ExpireShoutouts, batches[4]).db;
    var d6 := ForEachId(d5, SettleShoutouts, batches[5]).db;
    assert SETTLE_JOB[0] == ExpireBookings && SETTLE_JOB[5..] == [SettleShoutouts];
    assert RunPhases(d6, SETTLE_JOB[6..], batches[6..]) == d6;
    assert RunPhases(d5, SETTLE_JOB[5..], batches[5..]) == d6;
    assert RunPhases(d4, SETTLE_JOB[4..], batches[4..]) == d6;
    assert RunPhases(d3, SETTLE_JOB[3..], batches[3..]) == d6;
    assert RunPhases(d2, SETTLE_JOB[2..], batches[2..]) == d6;
    assert RunPhases(d1, SETTLE_JOB[1..], batches[1..]) == d6;
  }
}
