/** What payouts, top-ups and goodwill credits promise: when they go through, every row
    and wallet they change, and that nothing else does.
 */
module PayoutPromises {
  import opened Schema
  import opened Ledger
  import opened Tables
  import opened Bookings
  import opened Payouts
  import opened Platform
  import opened MoneyInvariant
  import opened MoneyFrames
  import opened BookingMoney
  import opened PayoutMoney
  import opened Guarantees
  import opened Topups
  import opened MoneyPromises

  // ── Payouts ──────────────────────────────────────────────────────────────

  /** A payout is made exactly for a verified method and pending earnings that reach the
      minimum. It is worth exactly the earnings that name it from then on: all the
      partner had pending, and nobody else's. */
  ghost predicate Requests(was: Db, now: Db, reply: Reply, partner: nat, methodVerified: bool) {
    var p := |was.payouts|;
    && (reply == Done <==>
          && methodVerified && PendingFor(was.earnings, partner) > 0
          && (was.settings.minWithdrawal.Some? ==> PendingFor(was.earnings, partner) >= was.settings.minWithdrawal.value))
    && (reply != Done ==> now == was)
    && (reply == Done ==>
          && now == was.(payouts := now.payouts, earnings := now.earnings)
          && |now.payouts| == p + 1 && was.payouts <= now.payouts
          && now.payouts[p].partner == partner && now.payouts[p].status == Requested && now.payouts[p].utr.None?
          && now.payouts[p].amount == PayoutSum(now.earnings, p) == PendingFor(was.earnings, partner)
          && PendingFor(now.earnings, partner) == 0
          && |now.earnings| == |was.earnings|
          && forall j :: 0 <= j < |was.earnings| ==>
               var e := was.earnings[j];
               if e.partner == partner && e.status == PendingPayout
               then now.earnings[j] == e.(status := InPayout, payout := Some(p)) else now.earnings[j] == e)
  }

  lemma CreateTakesEverythingPending(db: Db, partner: nat, methodVerified: bool)
    requires MoneyInv(db)
    ensures var out := CreatePayout(db, partner, methodVerified); Requests(db, out.db, out.reply, partner, methodVerified)
  {
    hide BankOk, KeysOwned, BookingsOk, WindowsOk, ShoutoutsOk, TopupsOk, GrantsOk, PayoutsOk, HasKey, ItemFlow;
    var out := CreatePayout(db, partner, methodVerified);
    PendingIsNonnegative(db.earnings, partner) by {
      forall j | 0 <= j < |db.earnings| ensures db.earnings[j].amount > 0 { assert EarningOk(db, j); }
    }
    if out.reply == Done {
      CreatedEarnings(db, out.db, partner, PendingFor(db.earnings, partner));
      NothingPending(db.earnings, partner, |db.payouts|);
    }
  }

  /** Something is pending exactly when some earning is. */
  lemma {:induction false} PendingIsNonnegative(es: seq<Earning>, partner: nat)
    requires forall j :: 0 <= j < |es| ==> es[j].amount > 0
    ensures PendingFor(es, partner) >= 0
    ensures PendingFor(es, partner) > 0 <==> exists j :: 0 <= j < |es| && es[j].partner == partner && es[j].status == PendingPayout
  {
    if |es| > 0 {
      var init := es[..|es| - 1];
      PendingIsNonnegative(init, partner);
      assert forall j :: 0 <= j < |init| ==> init[j] == es[j];
    }
  }

  lemma {:induction false} ReleasedSum(es: seq<Earning>, p: nat, partner: nat)
    requires forall i :: 0 <= i < |es| && es[i].payout == Some(p) ==> es[i].partner == partner && es[i].status != PendingPayout
    ensures PendingFor(Restore(es, p), partner) == PendingFor(es, partner) + PayoutSum(es, p)
  {
    if |es| > 0 {
      var init := es[..|es| - 1];
      ReleasedSum(init, p, partner);
      assert Restore(es, p)[..|es| - 1] == Restore(init, p);
    }
  }

  /** Exactly a requested payout is rejected: its whole amount is pending again, no
      earning names it any more, every other earning is as it was and no money moves. */
  ghost predicate Releases(was: Db, now: Db, reply: Reply, p: nat) {
    && (reply == Done <==> p < |was.payouts| && was.payouts[p].status == Requested)
    && (reply != Done ==> now == was)
    && (reply == Done ==>
          var row := was.payouts[p];
          && now == was.(payouts := was.payouts[p := row.(status := Rejected)], earnings := now.earnings)
          && PendingFor(now.earnings, row.partner) == PendingFor(was.earnings, row.partner) + row.amount
          && |now.earnings| == |was.earnings|
          && forall j :: 0 <= j < |was.earnings| ==>
               now.earnings[j] == if was.earnings[j].payout == Some(p) then was.earnings[j].(status := PendingPayout, payout := None)
                                  else was.earnings[j])
  }

  lemma RejectReleases(db: Db, p: nat)
    requires MoneyInv(db)
    ensures var out := RejectPayout(db, p); Releases(db, out.db, out.reply, p)
  {
    hide PayoutSum, PendingFor, BankOk, HasKey, ItemFlow;
    if p < |db.payouts| && db.payouts[p].status == Requested {
      var row := db.payouts[p];
      assert PayoutOk(db, p);
      forall i | 0 <= i < |db.earnings| && db.earnings[i].payout == Some(p)
        ensures db.earnings[i].partner == row.partner && db.earnings[i].status != PendingPayout
      { assert EarningOk(db, i); }
      ReleasedSum(db.earnings, p, row.partner);
    }
  }

  /** The reference without the spaces around it and in capitals. */
  ghost predicate IsNormalised(reference: string, utr: string) {
    exists i, j :: IsCapitalOf(reference, utr, i, j)
  }

  predicate IsCapitalOf(reference: string, utr: string, i: nat, j: nat) {
    && i <= j <= |reference| && |utr| == j - i
    && (forall k :: 0 <= k < i ==> reference[k] == ' ') && (forall k :: j <= k < |reference| ==> reference[k] == ' ')
    && (i < j ==> reference[i] != ' ' && reference[j - 1] != ' ')
    && forall k :: 0 <= k < |utr| ==> Capital(reference[i + k], utr[k])
  }

  predicate Capital(c: char, d: char) {
    if 'a' <= c <= 'z' then d as int == c as int - 32 else d == c
  }

  lemma {:induction false} TrimmedLeft(s: string) returns (i: nat)
    ensures i <= |s| && TrimLeft(s) == s[i..] && (forall k :: 0 <= k < i ==> s[k] == ' ') && (i < |s| ==> s[i] != ' ')
    decreases |s|
  {
    i := 0;
    if |s| > 0 && s[0] == ' ' {
      var j := TrimmedLeft(s[1..]);
      i := j + 1;
      assert forall k :: 1 <= k < i ==> s[k] == s[1..][k - 1];
    }
  }

  lemma {:induction false} TrimmedRight(s: string) returns (j: nat)
    ensures j <= |s| && TrimRight(s) == s[..j] && (forall k :: j <= k < |s| ==> s[k] == ' ') && (j > 0 ==> s[j - 1] != ' ')
    decreases |s|
  {
    j := |s|;
    if |s| > 0 && s[|s| - 1] == ' ' { j := TrimmedRight(s[..|s| - 1]); }
    else { assert s[..|s|] == s; }
  }

  lemma NormalisingTrimsAndCapitalises(s: string)
    ensures IsNormalised(s, NormaliseUtr(s))
  {
    var i := TrimmedLeft(s);
    var j := TrimmedRight(s[i..]);
    var utr := NormaliseUtr(s);
    forall k | i + j <= k < |s| ensures s[k] == ' ' { assert s[i..][k - i] == s[k]; }
    assert IsCapitalOf(s, utr, i, i + j);
  }

  /** A payout is paid exactly once, under a well-formed reference no other payout has;
      the partner is owed its amount less, its earnings are closed and no wallet moves. */
  ghost predicate Approves(was: Db, now: Db, reply: Reply, p: nat, reference: string) {
    var utr := NormaliseUtr(reference);
    && (reply == Done <==>
          && p < |was.payouts| && was.payouts[p].status == Requested
          && 6 <= |utr| <= 30 && (forall i :: 0 <= i < |utr| ==> IsUtrChar(utr[i]))
          && forall q :: 0 <= q < |was.payouts| && q != p ==> was.payouts[q].utr != Some(utr))
    && (reply != Done ==> now == was)
    && (reply == Done ==>
          && now == was.(bank := now.bank, payouts := now.payouts, earnings := now.earnings)
          && now.payouts == was.payouts[p := was.payouts[p].(status := PayoutPaid, utr := Some(utr))]
          && now.bank.wallets == was.bank.wallets
          && Flow(now.bank.ledger, OnAccount(PartnerPayable)) == Flow(was.bank.ledger, OnAccount(PartnerPayable)) - was.payouts[p].amount
          && ItemFlow(now.bank.ledger, PayoutItem(p), OnAccount(RazorpayClearing)) == was.payouts[p].amount
          && |now.earnings| == |was.earnings|
          && forall j :: 0 <= j < |was.earnings| ==>
               now.earnings[j] == if was.earnings[j].payout == Some(p) then was.earnings[j].(status := EarningPaid) else was.earnings[j])
  }

  predicate IsUtrChar(c: char) { 'A' <= c <= 'Z' || '0' <= c <= '9' }

  lemma ApprovePays(db: Db, p: nat, reference: string)
    requires MoneyInv(db)
    ensures var out := ApprovePayout(db, p, reference); Approves(db, out.db, out.reply, p, reference)
  {
    hide BankOk, HasKey, ItemFlow, LegSum, Flow, NormaliseUtr, Post;
    var utr := NormaliseUtr(reference);
    if p < |db.payouts| && db.payouts[p].status == Requested && UtrWellFormed(utr) && !UtrTaken(db.payouts, utr, p) {
      assert PayoutOk(db, p);
      var amount := db.payouts[p].amount;
      var t := PayoutTxn(p, amount);
      PlainPosts(db.bank, t, Plain(PartnerPayable, -amount), Plain(RazorpayClearing, amount));
      FreshPost(db.bank, t);
    }
  }

  // ── Top-ups ──────────────────────────────────────────────────────────────

  /** An order credits its fan once: exactly when it was not credited before, with
      exactly its credit, none of it promotional, and no other wallet moves. */
  ghost predicate Credits(was: Db, now: Db, reply: Reply, t: nat) {
    && (reply != Done ==> now == was)
    && (reply == Done <==> t < |was.topups| && was.topups[t].status != TopupSuccessful)
    && (reply == Done ==>
          var o := was.topups[t];
          && now == was.(bank := now.bank, topups := was.topups[t := o.(status := TopupSuccessful)])
          && Confined(was, now, TopupItem(t)) && WalletFollows(was, now, TopupItem(t), o.fan)
          && ItemFlow(now.bank.ledger, TopupItem(t), OnWallet(o.fan)) == o.credit
          && ItemFlow(now.bank.ledger, TopupItem(t), OnAccount(GstPayable)) == o.gst
          && ItemFlow(now.bank.ledger, TopupItem(t), OnAccount(RazorpayClearing)) == -(o.credit + o.gst))
  }

  lemma VerifyCredits(db: Db, t: nat)
    requires MoneyInv(db)
    ensures var out := VerifyTopup(db, t); Credits(db, out.db, out.reply, t)
  {
    hide BankOk, EarningsOk, HasKey, ItemFlow, LegSum, PaidFor, Post;
    if t < |db.topups| && db.topups[t].status != TopupSuccessful {
      assert TopupOk(db, t);
      TopupPosts(db, t);
      VerifyEffect(db, t);
      assert TopupOk(VerifyTopup(db, t).db, t);
      PostFollows(db, TopupTxn(t, db.topups[t]), VerifyTopup(db, t).db, 0, db.topups[t].fan, db.topups[t].credit);
    }
  }

  /** A capture event is logged exactly when it is new and passes its cross-check, and
      credits its order if that was not credited before; otherwise it changes nothing. */
  ghost predicate Captures(was: Db, now: Db, reply: Reply, event: nat, t: nat, crossChecked: bool) {
    && (reply == Done <==> event !in was.webhooks && crossChecked)
    && (reply != Done ==> now == was)
    && (reply == Done ==>
          && event in now.webhooks
          && (var logged := was.(webhooks := was.webhooks + {event});
              if t < |was.topups| && was.topups[t].status != TopupSuccessful then Credits(logged, now, Done, t) else now == logged))
  }

  lemma WebhookCaptures(db: Db, event: nat, t: nat, crossChecked: bool)
    requires MoneyInv(db)
    ensures var out := Webhook(db, event, t, crossChecked); Captures(db, out.db, out.reply, event, t, crossChecked)
  {
    hide MoneyInv, PaidFor, ItemFlow, HasKey, VerifyTopup;
    VerifyCredits(db, t);
    VerifyNeverRaises(db, t);
  }

  lemma VerifyNeverRaises(db: Db, t: nat)
    requires MoneyInv(db)
    ensures !VerifyTopup(db, t).reply.Raised?
  {
    hide BankOk, EarningsOk, HasKey, ItemFlow, LegSum, PaidFor, Post;
    if t < |db.topups| && db.topups[t].status != TopupSuccessful {
      assert TopupOk(db, t);
      TopupPosts(db, t);
    }
  }

  /** An order is opened exactly for a positive credit with room under the cap, if there
      is one. It records credit and tax as asked, moves no money, and leaves the fan
      within the cap. */
  predicate Opens(was: Db, now: Db, reply: Reply, fan: nat, credit: int, gst: nat, cap: Option<int>) {
    var t := |was.topups|;
    && (reply == Done <==>
          && fan < |was.bank.wallets| && credit > 0
          && (cap.Some? && cap.value != 0 ==> Exposure(was, fan) + credit <= cap.value))
    && (reply != Done ==> now == was)
    && (reply == Done ==>
          && now == was.(topups := now.topups) && |now.topups| == t + 1 && was.topups <= now.topups
          && (var o := now.topups[t];
              && o.fan == fan && o.credit == credit && o.gst == gst && o.amount == credit + gst
              && o.status == TopupPending && o.createdAt == was.now)
          && Exposure(now, fan) == Exposure(was, fan) + credit)
  }

  lemma OpenStaysUnderCap(db: Db, fan: nat, credit: int, gst: nat, cap: Option<int>)
    ensures var out := CreateTopup(db, fan, credit, gst, cap); Opens(db, out.db, out.reply, fan, credit, gst, cap)
  {
    hide Reserved;
    ReservedAppend(db.topups, TopupOrder(fan, credit, gst, credit + gst, TopupPending, db.now), fan, db.now);
  }

  /** Cleanup fails exactly the orders pending for more than a day. */
  predicate FailsOldOrders(was: Db, now: Db) {
    && now == was.(topups := now.topups) && |now.topups| == |was.topups|
    && forall t :: 0 <= t < |was.topups| ==>
         var o := was.topups[t];
         now.topups[t] == if o.status == TopupPending && was.now - o.createdAt > 86400 then o.(status := TopupFailed) else o
  }

  lemma CleanupFailsOldOrders(db: Db)
    ensures FailsOldOrders(db, CleanupTopups(db).db) && CleanupTopups(db).reply == Done
    ensures Step(db, OnMoney(DoCleanup)) == CleanupTopups(db)
  {
  }

  // ── Goodwill credit ──────────────────────────────────────────────────────

  /** A positive credit is promotional: it is added to balance and bonus alike. A
      deduction takes what is there and leaves at most the balance promotional. Nobody
      else's wallet moves and the platform's account takes the other side. */
  ghost predicate Grants(was: Db, now: Db, reply: Reply, fan: nat, amount: int) {
    && (reply == Done <==> amount != 0 && fan < |was.bank.wallets| && was.bank.wallets[fan].balance + amount >= 0)
    && (reply != Done ==> now == was)
    && (reply == Done ==>
          && now == was.(bank := now.bank) && |now.bank.wallets| == |was.bank.wallets|
          && (var x, y := was.bank.wallets[fan], now.bank.wallets[fan];
              && y.balance == x.balance + amount
              && (amount > 0 ==> y.bonus == x.bonus + amount)
              && (amount < 0 ==> y.bonus == Min(x.bonus, y.balance)))
          && (forall w :: 0 <= w < |was.bank.wallets| && w != fan ==> now.bank.wallets[w] == was.bank.wallets[w])
          && Flow(now.bank.ledger, OnAccount(PlatformAdjustment)) == Flow(was.bank.ledger, OnAccount(PlatformAdjustment)) - amount
          && |now.bank.ledger| == |was.bank.ledger| + 1)
  }

  lemma GrantMoves(db: Db, fan: nat, amount: int)
    requires MoneyInv(db)
    ensures var out := GrantCredit(db, fan, amount); Grants(db, out.db, out.reply, fan, amount)
  {
    hide BookingsOk, WindowsOk, ShoutoutsOk, TopupsOk, PayoutsOk, GrantsOk, EarningsOk, ItemFlow, PaidFor;
    if amount != 0 && fan < |db.bank.wallets| {
      var g := |db.bank.ledger|;
      var t := GrantTxn(g, fan, amount);
      FreshItem(db, GrantItem(g));
      assert Owner(t.key) == GrantItem(g);
      GrantPost(db.bank, t, fan, amount);
    }
  }

  lemma GrantPost(bank: Bank, t: Txn, fan: nat, amount: int)
    requires BankOk(bank) && amount != 0 && fan < |bank.wallets| && !HasKey(bank.ledger, t.key)
    requires t.amount == (if amount < 0 then -amount else amount)
    requires t.legs == [Leg(Some(fan), WalletAccount, amount, Max(0, amount)), Plain(PlatformAdjustment, -amount)]
    ensures var r := Post(bank, t);
      && (r.Posted? <==> bank.wallets[fan].balance + amount >= 0)
      && (r.Posted? ==>
            && |r.bank.wallets| == |bank.wallets| && |r.bank.ledger| == |bank.ledger| + 1
            && MovedBy(bank.wallets[fan], r.bank.wallets[fan], amount, Max(0, amount))
            && InBounds(bank.wallets[fan])
            && (forall w :: 0 <= w < |bank.wallets| && w != fan ==> r.bank.wallets[w] == bank.wallets[w])
            && Flow(r.bank.ledger, OnAccount(PlatformAdjustment)) == Flow(bank.ledger, OnAccount(PlatformAdjustment)) - amount)
  {
    var x, y := t.legs[0], t.legs[1];
    assert t.legs == [x, y];
    PairSum(x, y);
    FirstLegMoves(bank.wallets, x, y, y);
    assert WalletOk(bank.ledger, bank.wallets, fan);
    if Post(bank, t).Posted? {
      var after := Post(bank, t).bank.wallets;
      FreshPost(bank, t);
      PostMovesWallets(bank, t);
      assert OnlyLegOf(t.legs, 0, fan);
      forall w | 0 <= w < |bank.wallets| && w != fan ensures after[w] == bank.wallets[w] {
        assert forall k :: 0 <= k < |t.legs| ==> !NamesWallet(t.legs[k], w);
      }
    }
  }
}
