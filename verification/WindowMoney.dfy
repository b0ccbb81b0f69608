/** Question-window RPCs keep the money invariant. */
module WindowMoney {
  import opened Schema
  import opened Ledger
  import opened Tables
  import opened Messages
  import opened MoneyInvariant
  import opened MoneyFrames

  /** Only window (c, w) differs, and its money columns do not. */
  lemma WindowRewritten(db: Db, row: Window, c: nat, w: nat)
    requires MoneyInv(db) && HasWindow(db, c, w)
    requires var old_ := WindowAt(db, c, w);
      && row.kind == old_.kind && row.charge == old_.charge
      && (row.status == old_.status || (old_.status == Open && row.status == Answered))
    ensures MoneyInv(SetWindow(db, c, w, row))
  {
    hide HasKey, ItemFlow, LegSum, PaidFor, BankOk, EarningsOk, KeysOwned, TopupsOk, PayoutsOk, GrantsOk, BookingsOk, ShoutoutsOk;
    assert WindowOk(db, c, w);
    var next := SetWindow(db, c, w, row);
    SetTouchesOne(db, db, c, w, row);
    assert WindowOk(next, c, w);
    EarningsKept(db, next);
    WindowTouched(db, next, c, w);
  }

  /** A free window in a conversation that has none of that index yet. */
  lemma FreeWindowAdded(db: Db, next: Db, c: nat, w: nat)
    requires MoneyInv(db) && !HasWindow(db, c, w) && HasWindow(next, c, w)
    requires next == db.(conversations := next.conversations)
    requires WindowAt(next, c, w).kind == Free && WindowAt(next, c, w).charge == 0
    requires WindowAt(next, c, w).status == Open && next.conversations[c].fan < |db.bank.wallets|
    requires OnlyWindow(db, next, c, w)
    ensures MoneyInv(next)
  {
    hide HasKey, ItemFlow, LegSum, PaidFor, BankOk, EarningsOk, KeysOwned, TopupsOk, PayoutsOk, GrantsOk, BookingsOk, ShoutoutsOk;
    FreshItem(db, WindowItem(c, w));
    FreeRowOk(next, c, w);
    EarningsKept(db, next);
    WindowTouched(db, next, c, w);
  }

  lemma FreeRowOk(next: Db, c: nat, w: nat)
    requires HasWindow(next, c, w) && next.conversations[c].fan < |next.bank.wallets|
    requires WindowAt(next, c, w).kind == Free && WindowAt(next, c, w).charge == 0
    requires WindowAt(next, c, w).status == Open && PaidFor(next.earnings, WindowItem(c, w)).None?
    requires forall sel :: ItemFlow(next.bank.ledger, WindowItem(c, w), sel) == 0
    requires forall key :: HasKey(next.bank.ledger, key) ==> Owner(key) != WindowItem(c, w)
    ensures WindowOk(next, c, w)
  {
  }

  lemma PaidRowOk(db: Db, next: Db, c: nat, w: nat, fan: nat, price: int)
    requires Moved(db, next, QuestionTxn(c, w, fan, price)) && price > 0
    requires HasWindow(next, c, w) && next.conversations[c].fan == fan < |next.bank.wallets|
    requires WindowAt(next, c, w).kind == Paid && WindowAt(next, c, w).charge == price
    requires WindowAt(next, c, w).status == Open && PaidFor(next.earnings, WindowItem(c, w)).None?
    requires forall sel :: ItemFlow(db.bank.ledger, WindowItem(c, w), sel) == 0
    requires forall key :: HasKey(db.bank.ledger, key) ==> Owner(key) != WindowItem(c, w)
    ensures WindowOk(next, c, w)
  {
    PairSum(WalletLeg(fan, -price), Plain(Escrow, price));
    assert Owner(QuestionTxn(c, w, fan, price).key) == WindowItem(c, w);
  }

  lemma PaidWindowKeepsMoney(db: Db, c: nat, w: nat, fan: nat, price: int)
    requires MoneyInv(db) && c < |db.conversations| && w == |db.conversations[c].windows|
    requires fan == db.conversations[c].fan < |db.bank.wallets|
    requires Post(db.bank, QuestionTxn(c, w, fan, price)).Posted?
    ensures MoneyInv(AddWindow(db.(bank := Post(db.bank, QuestionTxn(c, w, fan, price)).bank), c, PaidWindow(db, price)))
  {
    hide HasKey, ItemFlow, LegSum, PaidFor, BankOk, EarningsOk, KeysOwned, TopupsOk, PayoutsOk, GrantsOk, BookingsOk, ShoutoutsOk;
    var t := QuestionTxn(c, w, fan, price);
    var next := AddWindow(db.(bank := Post(db.bank, t).bank), c, PaidWindow(db, price));
    FreshItem(db, WindowItem(c, w));
    PairSum(WalletLeg(fan, -price), Plain(Escrow, price));
    FreshStep(db, t, next);
    AddTouchesOne(db, db.(bank := Post(db.bank, t).bank), c, PaidWindow(db, price));
    PaidRowOk(db, next, c, w, fan, price);
    WindowTouched(db, next, c, w);
  }

  lemma AskKeepsMoney(db: Db, fan: nat, partner: nat, blocked: bool, price: Option<int>)
    requires MoneyInv(db)
    ensures MoneyInv(AskQuestion(db, fan, partner, blocked, price).db)
  {
    hide HasKey, ItemFlow, LegSum, PaidFor, BankOk, EarningsOk, KeysOwned, TopupsOk, PayoutsOk, GrantsOk, BookingsOk, ShoutoutsOk;
    var next := AskQuestion(db, fan, partner, blocked, price).db;
    if fan < |db.bank.wallets| && !blocked {
      match FindConversation(db.conversations, fan, partner) {
        case None => FreeWindowAdded(db, next, |db.conversations|, 0);
        case Some(c) =>
          var ws := db.conversations[c].windows;
          match NewestOpen(ws) {
            case Some(k) =>
              if FanMessages(ws[k].messages) < ws[k].cap {
                WindowRewritten(db, ws[k].(messages := ws[k].messages + [FromFan]), c, k);
              }
            case None =>
              if |ws| == 0 {
                AddTouchesOne(db, db, c, FreeWindow(FromFan));
                FreeWindowAdded(db, next, c, 0);
              } else if price.Some? && Post(db.bank, QuestionTxn(c, |ws|, fan, price.value)).Posted? {
                PaidWindowKeepsMoney(db, c, |ws|, fan, price.value);
              }
          }
      }
    }
  }

  lemma AnswerKeepsMoney(db: Db, partner: nat, c: nat)
    requires MoneyInv(db)
    ensures MoneyInv(PartnerAnswer(db, partner, c).db)
  {
    hide HasKey, ItemFlow, LegSum, PaidFor, BankOk, EarningsOk, KeysOwned, TopupsOk, PayoutsOk, GrantsOk, BookingsOk, ShoutoutsOk;
    if c < |db.conversations| && db.conversations[c].partner == partner {
      var ws := db.conversations[c].windows;
      match NewestReplyable(ws) {
        case None =>
        case Some(k) =>
          var said := ws[k].(messages := ws[k].messages + [FromPartner]);
          WindowRewritten(db, said, c, k);
          WindowRewritten(db, said.(status := Answered, settleAt := Some(db.now + db.settings.settlementWindow)), c, k)
            by { if ws[k].status != Open { assert ws[k].status == Answered; } }
      }
    }
  }

  lemma FollowupKeepsMoney(db: Db, partner: nat, fan: nat, blocked: bool)
    requires MoneyInv(db) && forall c :: 0 <= c < |db.conversations| ==> db.conversations[c].fan < |db.bank.wallets|
    ensures MoneyInv(PartnerFollowup(db, partner, fan, blocked).db)
  {
    hide HasKey, ItemFlow, LegSum, PaidFor, BankOk, EarningsOk, KeysOwned, TopupsOk, PayoutsOk, GrantsOk, BookingsOk, ShoutoutsOk;
    if !blocked {
      match FindConversation(db.conversations, fan, partner) {
        case None =>
        case Some(c) =>
          var ws := db.conversations[c].windows;
          match NewestOpen(ws) {
            case Some(k) => WindowRewritten(db, ws[k].(messages := ws[k].messages + [FromPartner]), c, k);
            case None =>
              AddTouchesOne(db, db, c, FreeWindow(FromPartner));
              FreeWindowAdded(db, PartnerFollowup(db, partner, fan, blocked).db, c, |ws|);
          }
      }
    }
  }

  lemma RefundedRowOk(db: Db, next: Db, c: nat, w: nat)
    requires HasWindow(db, c, w) && WindowOk(db, c, w)
    requires WindowAt(db, c, w).kind == Paid && PaidFor(db.earnings, WindowItem(c, w)).None?
    requires WindowAt(db, c, w).status != WindowExpired && PaidFor(next.earnings, WindowItem(c, w)).None?
    requires Moved(db, next, WindowRefundTxn(c, w, db.conversations[c].fan, WindowAt(db, c, w).charge))
    requires HasWindow(next, c, w) && WindowAt(next, c, w) == WindowAt(db, c, w).(status := WindowExpired)
    requires next.conversations[c].fan == db.conversations[c].fan && |next.bank.wallets| == |db.bank.wallets|
    ensures WindowOk(next, c, w)
  {
    hide HasKey, ItemFlow, LegSum, PaidFor;
    var fan, charge := db.conversations[c].fan, WindowAt(db, c, w).charge;
    PairSum(Plain(Escrow, -charge), WalletLeg(fan, charge));
    assert Owner(WindowRefundTxn(c, w, fan, charge).key) == WindowItem(c, w);
    forall sel
      ensures ItemFlow(next.bank.ledger, WindowItem(c, w), sel) == WindowFlow(fan, WindowAt(next, c, w), None, sel)
    {
      assert ItemFlow(db.bank.ledger, WindowItem(c, w), sel) == WindowFlow(fan, WindowAt(db, c, w), None, sel);
    }
  }

  /** The expiry item is safe on any window that has not been settled, whatever
      happened to it since the job listed it. */
  lemma ExpireWindowKeepsMoney(db: Db, c: nat, w: nat)
    requires MoneyInv(db) && (HasWindow(db, c, w) ==> !Earned(db, WindowItem(c, w)))
    ensures MoneyInv(ExpireWindow(db, c, w).db)
    ensures HasWindow(db, c, w) && WindowAt(db, c, w).kind == Paid ==> ExpireWindow(db, c, w).reply == Done
  {
    hide HasKey, ItemFlow, LegSum, PaidFor, BankOk, EarningsOk, KeysOwned, TopupsOk, PayoutsOk, GrantsOk, BookingsOk, ShoutoutsOk;
    if HasWindow(db, c, w) {
      assert WindowOk(db, c, w);
      if WindowAt(db, c, w).kind == Paid {
        ExpireWindowEffect(db, c, w);
        WindowTouched(db, ExpireWindow(db, c, w).db, c, w);
      }
    }
  }

  /** Overlapping expiry jobs refund once: the second item changes nothing. */
  lemma SecondExpiryChangesNothing(db: Db, c: nat, w: nat)
    requires MoneyInv(db) && HasWindow(db, c, w) && WindowAt(db, c, w).kind == Paid && !Earned(db, WindowItem(c, w))
    ensures var once := ExpireWindow(db, c, w).db;
      ExpireWindow(once, c, w) == Out(once, Done)
  {
    hide HasKey, ItemFlow, LegSum, PaidFor, BankOk, EarningsOk, KeysOwned, TopupsOk, PayoutsOk, GrantsOk, BookingsOk, ShoutoutsOk;
    var once := ExpireWindow(db, c, w).db;
    assert WindowOk(db, c, w);
    ExpireWindowEffect(db, c, w);
    var row := WindowAt(once, c, w);
    assert HasKey(once.bank.ledger, QuestionExpire(c, w)) && row.charge > 0 && row.status == WindowExpired;
    var t := WindowRefundTxn(c, w, once.conversations[c].fan, row.charge);
    PairSum(t.legs[0], t.legs[1]);
    assert t.legs == [t.legs[0], t.legs[1]];
    assert Post(once.bank, t) == Posted(once.bank, FindKey(once.bank.ledger, t.key).value, true);
    assert once.conversations[c].windows[w := row] == once.conversations[c].windows;
  }

  lemma ExpireWindowEffect(db: Db, c: nat, w: nat)
    requires HasWindow(db, c, w) && WindowOk(db, c, w) && BankOk(db.bank) && EarningsOk(db)
    requires WindowAt(db, c, w).kind == Paid && PaidFor(db.earnings, WindowItem(c, w)).None?
    ensures var out := ExpireWindow(db, c, w);
      && out.reply == Done && WindowStep(db, out.db, c, w)
  {
    hide BankOk, EarningsOk, HasKey, ItemFlow, LegSum, PaidFor;
    var row, fan := WindowAt(db, c, w), db.conversations[c].fan;
    var t := WindowRefundTxn(c, w, fan, row.charge);
    PairSum(Plain(Escrow, -row.charge), WalletLeg(fan, row.charge));
    var next := ExpireWindow(db, c, w).db;
    if row.status == WindowExpired {
      assert HasKey(db.bank.ledger, t.key);
      assert next.conversations[c].windows == db.conversations[c].windows;
      assert next == db;
    } else {
      CreditPosts(db, t, fan, row.charge);
      FreshStep(db, t, next);
      SetTouchesOne(db, db.(bank := next.bank), c, w, row.(status := WindowExpired));
      RefundedRowOk(db, next, c, w);
    }
  }

  lemma SettledRowOk(db: Db, next: Db, c: nat, w: nat)
    requires HasWindow(db, c, w) && WindowOk(db, c, w) && PaidFor(db.earnings, WindowItem(c, w)).None?
    requires WindowAt(db, c, w).kind == Paid && WindowAt(db, c, w).status == Answered
    requires PaidOut(db, next, WindowItem(c, w), SettleWindow(c, w), WindowAt(db, c, w).charge)
    requires next.conversations == db.conversations
    ensures WindowOk(next, c, w)
  {
    var fan, row := db.conversations[c].fan, WindowAt(db, c, w);
    forall sel
      ensures ItemFlow(next.bank.ledger, WindowItem(c, w), sel) == WindowFlow(fan, row, Some(row.charge), sel)
    {
      assert ItemFlow(db.bank.ledger, WindowItem(c, w), sel) == WindowFlow(fan, row, None, sel);
    }
  }

  lemma SettleQuestionEffect(db: Db, c: nat, w: nat)
    requires HasWindow(db, c, w) && WindowOk(db, c, w) && BankOk(db.bank) && EarningsOk(db)
    requires WindowAt(db, c, w).kind == Paid && WindowAt(db, c, w).status == Answered
    requires !OpenReportOn(db.reports, WindowTarget(c, w)) && !Earned(db, WindowItem(c, w))
    ensures var out := SettleQuestion(db, c, w);
      && out.reply == Done && WindowStep(db, out.db, c, w)
  {
    hide BankOk, EarningsOk, HasKey, ItemFlow, LegSum, PaidFor;
    var row := WindowAt(db, c, w);
    PayPartnerEffect(db, WindowItem(c, w), db.conversations[c].partner, SettleWindow(c, w), row.charge);
    SettledRowOk(db, SettleQuestion(db, c, w).db, c, w);
  }

  lemma SettleQuestionKeepsMoney(db: Db, c: nat, w: nat)
    requires MoneyInv(db)
    ensures MoneyInv(SettleQuestion(db, c, w).db)
    ensures !SettleQuestion(db, c, w).reply.Raised?
  {
    hide HasKey, ItemFlow, LegSum, PaidFor, BankOk, EarningsOk, KeysOwned, TopupsOk, PayoutsOk, GrantsOk, BookingsOk, ShoutoutsOk;
    if HasWindow(db, c, w) {
      var row := WindowAt(db, c, w);
      if row.kind == Paid && row.status == Answered && !OpenReportOn(db.reports, WindowTarget(c, w))
         && !Earned(db, WindowItem(c, w)) {
        assert WindowOk(db, c, w);
        SettleQuestionEffect(db, c, w);
        WindowTouched(db, SettleQuestion(db, c, w).db, c, w);
      }
    }
  }
}
