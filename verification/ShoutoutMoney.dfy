/** Shout-out RPCs keep the money invariant. */
module ShoutoutMoney {
  import opened Schema
  import opened Ledger
  import opened Tables
  import opened Shoutouts
  import opened MoneyInvariant
  import opened MoneyFrames

  // ── Fees ─────────────────────────────────────────────────────────────────

  lemma FeesAppend(cs: seq<Correction>, c: Correction)
    ensures Fees(cs + [c]) == Fees(cs) + if c.kind == PaidRound then c.fee else 0
  {
    assert (cs + [c])[..|cs|] == cs;
  }

  lemma {:induction false} FeesClosed(cs: seq<Correction>)
    ensures Fees(CloseRounds(cs)) == Fees(cs)
  {
    if |cs| > 0 {
      assert CloseRounds(cs)[..|cs| - 1] == CloseRounds(cs[..|cs| - 1]);
      FeesClosed(cs[..|cs| - 1]);
    }
  }

  lemma {:induction false} FeesNonnegative(cs: seq<Correction>)
    requires forall k :: 0 <= k < |cs| && cs[k].kind == PaidRound ==> cs[k].fee > 0
    ensures Fees(cs) >= 0
  {
    if |cs| > 0 { FeesNonnegative(cs[..|cs| - 1]); }
  }

  // ── Steps that move no money ─────────────────────────────────────────────

  predicate IsLive(s: ShoutoutStatus) { s in {AwaitingVideo, Delivered, IssueReported} }

  predicate SameTables(db: Db, next: Db) {
    next == db.(shoutouts := next.shoutouts, reports := next.reports)
  }

  /** Row `s` stays live and unpaid, owes the same total and keeps its rounds. */
  lemma ShoutoutRewritten(db: Db, next: Db, s: nat, row: Shoutout)
    requires MoneyInv(db) && s < |db.shoutouts|
    requires SameTables(db, next) && next.shoutouts == db.shoutouts[s := row]
    requires var r := db.shoutouts[s];
      && row.fan == r.fan && row.price == r.price && Fees(row.corrections) == Fees(r.corrections)
      && |row.corrections| >= |r.corrections| && IsLive(r.status) && IsLive(row.status)
    requires forall k :: 0 <= k < |row.corrections| && row.corrections[k].kind == PaidRound ==> row.corrections[k].fee > 0
    requires PaidFor(db.earnings, ShoutoutItem(s)).None?
    ensures MoneyInv(next)
  {
    hide HasKey, ItemFlow, LegSum, PaidFor, BankOk, EarningsOk, KeysOwned, TopupsOk, PayoutsOk, GrantsOk, BookingsOk, WindowsOk;
    assert ShoutoutOk(db, s);
    assert ShoutoutOk(next, s);
    EarningsKept(db, next);
    ShoutoutTouched(db, next, s);
  }

  lemma LiveUnpaid(db: Db, s: nat)
    requires MoneyInv(db) && s < |db.shoutouts|
    requires db.shoutouts[s].status != Delivered || db.shoutouts[s].confirmed.None?
    ensures PaidFor(db.earnings, ShoutoutItem(s)).None?
    ensures forall k :: 0 <= k < |db.shoutouts[s].corrections| && db.shoutouts[s].corrections[k].kind == PaidRound ==>
              db.shoutouts[s].corrections[k].fee > 0
  {
    hide HasKey, ItemFlow, LegSum, PaidFor, BankOk, EarningsOk, KeysOwned, TopupsOk, PayoutsOk, GrantsOk, BookingsOk, WindowsOk;
    assert ShoutoutOk(db, s);
  }

  lemma UploadKeepsMoney(db: Db, s: nat, link: string)
    requires MoneyInv(db)
    ensures MoneyInv(UploadShoutout(db, s, link).db)
  {
    var out := UploadShoutout(db, s, link);
    if out.reply == Done {
      LiveUnpaid(db, s);
      FeesClosed(db.shoutouts[s].corrections);
      ShoutoutRewritten(db, out.db, s, out.db.shoutouts[s]);
    }
  }

  lemma ConfirmKeepsMoney(db: Db, fan: nat, s: nat)
    requires MoneyInv(db)
    ensures MoneyInv(ConfirmShoutout(db, fan, s).db)
  {
    var out := ConfirmShoutout(db, fan, s);
    if out.reply == Done {
      LiveUnpaid(db, s);
      ShoutoutRewritten(db, out.db, s, out.db.shoutouts[s]);
    }
  }

  lemma AutoConfirmKeepsMoney(db: Db, s: nat)
    requires MoneyInv(db)
    ensures MoneyInv(AutoConfirmShoutout(db, s).db)
  {
    var out := AutoConfirmShoutout(db, s);
    if out.reply == Done {
      LiveUnpaid(db, s);
      ShoutoutRewritten(db, out.db, s, out.db.shoutouts[s]);
    }
  }

  lemma ReportKeepsMoney(db: Db, s: nat)
    requires MoneyInv(db)
    ensures MoneyInv(ReportShoutout(db, s).db)
  {
    var out := ReportShoutout(db, s);
    if out.reply == Done {
      LiveUnpaid(db, s);
      ShoutoutRewritten(db, out.db, s, out.db.shoutouts[s]);
    }
  }

  lemma AdminDeliverKeepsMoney(db: Db, s: nat, approve: bool)
    requires MoneyInv(db)
    ensures MoneyInv(AdminDeliver(db, s, approve).db)
  {
    var out := AdminDeliver(db, s, approve);
    if out.reply == Done {
      LiveUnpaid(db, s);
      ShoutoutRewritten(db, out.db, s, out.db.shoutouts[s]);
    }
  }

  // ── Steps that post ──────────────────────────────────────────────────────

  lemma RequestedRowOk(db: Db, next: Db, fan: nat, price: int)
    requires var s := |db.shoutouts|;
      && Moved(db, next, RequestTxn(s, fan, price))
      && (forall sel :: ItemFlow(db.bank.ledger, ShoutoutItem(s), sel) == 0)
      && (forall key :: HasKey(db.bank.ledger, key) ==> Owner(key) != ShoutoutItem(s))
      && PaidFor(next.earnings, ShoutoutItem(s)).None?
      && |next.shoutouts| == s + 1 && fan < |next.bank.wallets| && price > 0
      && var r := next.shoutouts[s];
         r.fan == fan && r.price == price && r.status == AwaitingVideo && r.corrections == []
    ensures ShoutoutOk(next, |db.shoutouts|)
  {
    PairSum(WalletLeg(fan, -price), Plain(Escrow, price));
    assert Owner(RequestTxn(|db.shoutouts|, fan, price).key) == ShoutoutItem(|db.shoutouts|);
  }

  lemma RequestKeepsMoney(db: Db, fan: nat, partner: nat, blocked: bool, price: Option<int>)
    requires MoneyInv(db)
    ensures MoneyInv(RequestShoutout(db, fan, partner, blocked, price).db)
  {
    hide HasKey, ItemFlow, LegSum, PaidFor, BankOk, EarningsOk, KeysOwned, TopupsOk, PayoutsOk, GrantsOk, BookingsOk, WindowsOk;
    var out := RequestShoutout(db, fan, partner, blocked, price);
    if out.reply == Done {
      var s := |db.shoutouts|;
      FreshItem(db, ShoutoutItem(s));
      PairSum(WalletLeg(fan, -price.value), Plain(Escrow, price.value));
      FreshStep(db, RequestTxn(s, fan, price.value), out.db);
      RequestedRowOk(db, out.db, fan, price.value);
      ShoutoutTouched(db, out.db, s);
    }
  }

  lemma CorrectedRowOk(db: Db, next: Db, s: nat, fee: int)
    requires s < |db.shoutouts| && ShoutoutOk(db, s) && fee > 0
    requires PaidFor(db.earnings, ShoutoutItem(s)).None? && PaidFor(next.earnings, ShoutoutItem(s)).None?
    requires IsLive(db.shoutouts[s].status)
    requires Moved(db, next, CorrectionTxn(s, |db.shoutouts[s].corrections|, db.shoutouts[s].fan, fee))
    requires s < |next.shoutouts| && |next.bank.wallets| == |db.bank.wallets|
    requires next.shoutouts[s] == db.shoutouts[s].(status := AwaitingVideo,
               corrections := db.shoutouts[s].corrections + [Correction(PaidRound, fee, false)])
    ensures ShoutoutOk(next, s)
  {
    hide HasKey, ItemFlow, LegSum, PaidFor;
    var r := db.shoutouts[s];
    PairSum(WalletLeg(r.fan, -fee), Plain(Escrow, fee));
    FeesAppend(r.corrections, Correction(PaidRound, fee, false));
    assert Owner(CorrectionTxn(s, |r.corrections|, r.fan, fee).key) == ShoutoutItem(s);
    forall sel
      ensures ItemFlow(next.bank.ledger, ShoutoutItem(s), sel) == ShoutoutFlow(next.shoutouts[s], None, sel)
    {
      assert ItemFlow(db.bank.ledger, ShoutoutItem(s), sel) == ShoutoutFlow(r, None, sel);
    }
  }

  lemma PaidCorrectionEffect(db: Db, s: nat)
    requires s < |db.shoutouts| && ShoutoutOk(db, s) && BankOk(db.bank) && EarningsOk(db)
    requires PaidFor(db.earnings, ShoutoutItem(s)).None?
    requires db.shoutouts[s].status == Delivered && db.shoutouts[s].confirmed.None?
    requires !db.shoutouts[s].disputed && db.shoutouts[s].freeUsed
    requires RequestCorrection(db, db.shoutouts[s].fan, s).reply == Done
    ensures ShoutoutStep(db, RequestCorrection(db, db.shoutouts[s].fan, s).db, s)
  {
    hide BankOk, EarningsOk, HasKey, ItemFlow, LegSum, PaidFor;
    var r, fee := db.shoutouts[s], db.settings.correctionFee;
    var t := CorrectionTxn(s, |r.corrections|, r.fan, fee);
    assert !HasKey(db.bank.ledger, t.key);
    var next := RequestCorrection(db, r.fan, s).db;
    PairSum(WalletLeg(r.fan, -fee), Plain(Escrow, fee));
    FreshStep(db, t, next);
    CorrectedRowOk(db, next, s, fee);
  }

  lemma CorrectionKeepsMoney(db: Db, fan: nat, s: nat)
    requires MoneyInv(db)
    ensures MoneyInv(RequestCorrection(db, fan, s).db)
  {
    hide HasKey, ItemFlow, LegSum, PaidFor, BankOk, EarningsOk, KeysOwned, TopupsOk, PayoutsOk, GrantsOk, BookingsOk, WindowsOk;
    var out := RequestCorrection(db, fan, s);
    if out.reply == Done {
      var r := db.shoutouts[s];
      LiveUnpaid(db, s);
      if !r.freeUsed {
        FeesAppend(r.corrections, Correction(FreeRound, 0, false));
        ShoutoutRewritten(db, out.db, s, out.db.shoutouts[s]);
      } else {
        assert ShoutoutOk(db, s);
        PaidCorrectionEffect(db, s);
        ShoutoutTouched(db, out.db, s);
      }
    }
  }

  /** Both refund paths: `left` is what stays in escrow afterwards. */
  lemma RefundedRowOk(db: Db, next: Db, s: nat, t: Txn, amount: int, status: ShoutoutStatus)
    requires s < |db.shoutouts| && ShoutoutOk(db, s) && IsLive(db.shoutouts[s].status)
    requires PaidFor(db.earnings, ShoutoutItem(s)).None? && PaidFor(next.earnings, ShoutoutItem(s)).None?
    requires (t.key == ShoutCancel(s) && status == RefundedByAdmin && amount == ShoutoutTotal(db.shoutouts[s]))
          || (t.key == ShoutExpire(s) && status == ExpiredNoDelivery && amount == db.shoutouts[s].price)
    requires t.legs == [Plain(Escrow, -amount), WalletLeg(db.shoutouts[s].fan, amount)]
    requires Moved(db, next, t) && s < |next.shoutouts| && |next.bank.wallets| == |db.bank.wallets|
    requires next.shoutouts[s] == db.shoutouts[s].(status := status)
    ensures ShoutoutOk(next, s)
  {
    hide HasKey, ItemFlow, LegSum, PaidFor;
    var r := db.shoutouts[s];
    PairSum(Plain(Escrow, -amount), WalletLeg(r.fan, amount));
    assert Owner(t.key) == ShoutoutItem(s);
    forall sel
      ensures ItemFlow(next.bank.ledger, ShoutoutItem(s), sel) == ShoutoutFlow(next.shoutouts[s], None, sel)
    {
      assert ItemFlow(db.bank.ledger, ShoutoutItem(s), sel) == ShoutoutFlow(r, None, sel);
    }
  }

  lemma CancelPosts(db: Db, s: nat)
    requires s < |db.shoutouts| && ShoutoutOk(db, s) && BankOk(db.bank)
    requires IsLive(db.shoutouts[s].status) && !Earned(db, ShoutoutItem(s))
    ensures CancelShoutout(db, s).reply == Done
    ensures LegSum(CancelTxn(s, db.shoutouts[s]).legs, OnAccount(PartnerPayable)) == 0
    ensures !HasKey(db.bank.ledger, ShoutCancel(s))
  {
    hide BankOk, HasKey, ItemFlow, LegSum, PaidFor;
    var r := db.shoutouts[s];
    FeesNonnegative(r.corrections);
    CreditPosts(db, CancelTxn(s, r), r.fan, ShoutoutTotal(r));
  }

  lemma CancelEffect(db: Db, s: nat)
    requires s < |db.shoutouts| && ShoutoutOk(db, s) && BankOk(db.bank) && EarningsOk(db)
    requires IsLive(db.shoutouts[s].status) && !Earned(db, ShoutoutItem(s))
    ensures CancelShoutout(db, s).reply == Done && ShoutoutStep(db, CancelShoutout(db, s).db, s)
  {
    hide BankOk, EarningsOk, HasKey, ItemFlow, LegSum, PaidFor, ShoutoutOk, Post;
    var r := db.shoutouts[s];
    CancelPosts(db, s);
    var next := CancelShoutout(db, s).db;
    FreshStep(db, CancelTxn(s, r), next);
    RefundedRowOk(db, next, s, CancelTxn(s, r), ShoutoutTotal(r), RefundedByAdmin);
  }

  lemma CancelKeepsMoney(db: Db, s: nat)
    requires MoneyInv(db)
    ensures MoneyInv(CancelShoutout(db, s).db)
    ensures !CancelShoutout(db, s).reply.Raised?
  {
    hide HasKey, ItemFlow, LegSum, PaidFor, BankOk, EarningsOk, KeysOwned, TopupsOk, PayoutsOk, GrantsOk, BookingsOk, WindowsOk;
    if s < |db.shoutouts| && IsLive(db.shoutouts[s].status) && !Earned(db, ShoutoutItem(s)) {
      assert ShoutoutOk(db, s);
      CancelEffect(db, s);
      ShoutoutTouched(db, CancelShoutout(db, s).db, s);
    }
  }

  lemma ResolveDisputeKeepsMoney(db: Db, s: nat, verdict: Verdict)
    requires MoneyInv(db)
    ensures MoneyInv(ResolveDispute(db, s, verdict).db)
  {
    hide HasKey, ItemFlow, LegSum, PaidFor, BankOk, EarningsOk, KeysOwned, TopupsOk, PayoutsOk, GrantsOk, BookingsOk, WindowsOk;
    if s < |db.shoutouts| && db.shoutouts[s].status == IssueReported {
      LiveUnpaid(db, s);
      var next := ResolveDispute(db, s, verdict).db;
      match verdict {
        case RefundFan => CancelKeepsMoney(db, s);
        case Rework => ShoutoutRewritten(db, next, s, next.shoutouts[s]);
        case Dismiss => ShoutoutRewritten(db, next, s, next.shoutouts[s]);
      }
    }
  }

  lemma ExpirePosts(db: Db, s: nat)
    requires s < |db.shoutouts| && ShoutoutOk(db, s) && BankOk(db.bank) && ShoutoutOverdue(db, s)
    ensures ExpireShoutout(db, s).reply == Done
    ensures LegSum(ExpireTxn(s, db.shoutouts[s]).legs, OnAccount(PartnerPayable)) == 0
    ensures !HasKey(db.bank.ledger, ShoutExpire(s)) && PaidFor(db.earnings, ShoutoutItem(s)).None?
  {
    hide BankOk, HasKey, ItemFlow, LegSum, PaidFor;
    var r := db.shoutouts[s];
    CreditPosts(db, ExpireTxn(s, r), r.fan, r.price);
  }

  lemma ExpireEffect(db: Db, s: nat)
    requires s < |db.shoutouts| && ShoutoutOk(db, s) && BankOk(db.bank) && EarningsOk(db)
    requires ShoutoutOverdue(db, s)
    ensures ExpireShoutout(db, s).reply == Done && ShoutoutStep(db, ExpireShoutout(db, s).db, s)
  {
    hide BankOk, EarningsOk, HasKey, ItemFlow, LegSum, PaidFor, ShoutoutOk, Post;
    var r := db.shoutouts[s];
    var t := ExpireTxn(s, r);
    ExpirePosts(db, s);
    var next := ExpireShoutout(db, s).db;
    FreshStep(db, t, next);
    RefundedRowOk(db, next, s, t, r.price, ExpiredNoDelivery);
  }

  lemma ExpireShoutoutKeepsMoney(db: Db, s: nat)
    requires MoneyInv(db)
    ensures MoneyInv(ExpireShoutout(db, s).db)
    ensures ShoutoutOverdue(db, s) ==> ExpireShoutout(db, s).reply == Done
  {
    hide HasKey, ItemFlow, LegSum, PaidFor, BankOk, EarningsOk, KeysOwned, TopupsOk, PayoutsOk, GrantsOk, BookingsOk, WindowsOk;
    if ShoutoutOverdue(db, s) {
      assert ShoutoutOk(db, s);
      ExpireEffect(db, s);
      ShoutoutTouched(db, ExpireShoutout(db, s).db, s);
    }
  }

  lemma SettledRowOk(db: Db, next: Db, s: nat)
    requires s < |db.shoutouts| && ShoutoutOk(db, s) && PaidFor(db.earnings, ShoutoutItem(s)).None?
    requires db.shoutouts[s].status == Delivered && db.shoutouts[s].confirmed.Some?
    requires PaidOut(db, next, ShoutoutItem(s), SettleShout(s), ShoutoutTotal(db.shoutouts[s]))
    requires next.shoutouts == db.shoutouts
    ensures ShoutoutOk(next, s)
  {
    var r := db.shoutouts[s];
    forall sel
      ensures ItemFlow(next.bank.ledger, ShoutoutItem(s), sel) == ShoutoutFlow(r, Some(ShoutoutTotal(r)), sel)
    {
      assert ItemFlow(db.bank.ledger, ShoutoutItem(s), sel) == ShoutoutFlow(r, None, sel);
    }
  }

  lemma SettleReady(db: Db, s: nat)
    requires s < |db.shoutouts| && ShoutoutOk(db, s) && !Earned(db, ShoutoutItem(s))
    ensures !HasKey(db.bank.ledger, SettleShout(s)) && ShoutoutTotal(db.shoutouts[s]) > 0
  {
    FeesNonnegative(db.shoutouts[s].corrections);
  }

  lemma SettleEffect(db: Db, s: nat)
    requires s < |db.shoutouts| && ShoutoutOk(db, s) && BankOk(db.bank) && EarningsOk(db)
    requires db.shoutouts[s].status == Delivered && db.shoutouts[s].confirmed.Some?
    requires !Earned(db, ShoutoutItem(s))
    ensures SettleShoutout(db, s).reply == Done && ShoutoutStep(db, SettleShoutout(db, s).db, s)
  {
    hide BankOk, EarningsOk, HasKey, ItemFlow, LegSum, PaidFor;
    var r := db.shoutouts[s];
    SettleReady(db, s);
    PayPartnerEffect(db, ShoutoutItem(s), r.partner, SettleShout(s), ShoutoutTotal(r));
    SettledRowOk(db, SettleShoutout(db, s).db, s);
  }

  lemma SettleShoutoutKeepsMoney(db: Db, s: nat)
    requires MoneyInv(db)
    ensures MoneyInv(SettleShoutout(db, s).db)
    ensures !SettleShoutout(db, s).reply.Raised?
  {
    hide HasKey, ItemFlow, LegSum, PaidFor, BankOk, EarningsOk, KeysOwned, TopupsOk, PayoutsOk, GrantsOk, BookingsOk, WindowsOk;
    if s < |db.shoutouts| && db.shoutouts[s].status == Delivered && db.shoutouts[s].confirmed.Some?
       && !Earned(db, ShoutoutItem(s)) {
      assert ShoutoutOk(db, s);
      SettleEffect(db, s);
      ShoutoutTouched(db, SettleShoutout(db, s).db, s);
    }
  }
}
