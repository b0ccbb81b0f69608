/** Payouts of settled earnings, and top-ups of the fan's wallet. */
module Payouts {
  import opened Schema
  import opened Ledger
  import opened Tables

  // ── Payouts ──────────────────────────────────────────────────────────────

  function PendingFor(es: seq<Earning>, partner: nat): int {
    if |es| == 0 then 0
    else
      var e := es[|es| - 1];
      PendingFor(es[..|es| - 1], partner)
      + if e.partner == partner && e.status == PendingPayout then e.amount else 0
  }

  function Include(es: seq<Earning>, partner: nat, payout: nat): seq<Earning> {
    seq(|es|, i requires 0 <= i < |es| =>
      if es[i].partner == partner && es[i].status == PendingPayout
      then es[i].(status := InPayout, payout := Some(payout)) else es[i])
  }

  function MarkPaid(es: seq<Earning>, payout: nat): seq<Earning> {
    seq(|es|, i requires 0 <= i < |es| =>
      if es[i].payout == Some(payout) then es[i].(status := EarningPaid) else es[i])
  }

  function Restore(es: seq<Earning>, payout: nat): seq<Earning> {
    seq(|es|, i requires 0 <= i < |es| =>
      if es[i].payout == Some(payout) then es[i].(status := PendingPayout, payout := None) else es[i])
  }

  function CreatePayout(db: Db, partner: nat, methodVerified: bool): Out {
    var sum := PendingFor(db.earnings, partner);
    if !methodVerified then Refuse(db, UnverifiedMethod)
    else if sum == 0 then Refuse(db, NothingToPay)
    else if db.settings.minWithdrawal.Some? && sum < db.settings.minWithdrawal.value
    then Refuse(db, BelowMinWithdrawal)
    else if sum < 0 then Raise(db, CheckViolation)
    else
      var p := |db.payouts|;
      Out(db.(payouts := db.payouts + [PayoutRow(partner, sum, Requested, None)],
              earnings := Include(db.earnings, partner, p)), Done)
  }

  function TrimLeft(s: string): string {
    if |s| > 0 && s[0] == ' ' then TrimLeft(s[1..]) else s
  }

  function TrimRight(s: string): string {
    if |s| > 0 && s[|s| - 1] == ' ' then TrimRight(s[..|s| - 1]) else s
  }

  function UpperChar(c: char): char {
    if 'a' <= c <= 'z' then c - 'a' + 'A' else c
  }

  /** upper(btrim(reference)), over ASCII */
  function NormaliseUtr(s: string): string {
    var t := TrimRight(TrimLeft(s));
    seq(|t|, i requires 0 <= i < |t| => UpperChar(t[i]))
  }

  predicate UtrWellFormed(s: string) {
    6 <= |s| <= 30 && forall i :: 0 <= i < |s| ==> 'A' <= s[i] <= 'Z' || '0' <= s[i] <= '9'
  }

  predicate UtrTaken(ps: seq<PayoutRow>, utr: string, except: nat) {
    exists i :: 0 <= i < |ps| && i != except && ps[i].utr == Some(utr)
  }

  function PayoutTxn(p: nat, amount: int): Txn {
    Txn(Payout(p), amount, [Plain(PartnerPayable, -amount), Plain(RazorpayClearing, amount)])
  }

  function ApprovePayout(db: Db, p: nat, reference: string): Out {
    if p >= |db.payouts| || db.payouts[p].status != Requested then Refuse(db, InvalidState)
    else
      var utr := NormaliseUtr(reference);
      if utr == "" then Refuse(db, UtrRequired)
      else if !UtrWellFormed(utr) then Refuse(db, UtrInvalidFormat)
      else if UtrTaken(db.payouts, utr, p) then Refuse(db, UtrAlreadyUsed)
      else
        match Post(db.bank, PayoutTxn(p, db.payouts[p].amount))
        case Failed(e) => Raise(db, e)
        case Posted(bank, _, _) =>
          Out(db.(bank := bank,
                  payouts := db.payouts[p := db.payouts[p].(status := PayoutPaid, utr := Some(utr))],
                  earnings := MarkPaid(db.earnings, p)), Done)
  }

  function RejectPayout(db: Db, p: nat): Out {
    if p >= |db.payouts| || db.payouts[p].status != Requested then Refuse(db, InvalidState)
    else
      Out(db.(payouts := db.payouts[p := db.payouts[p].(status := Rejected)],
              earnings := Restore(db.earnings, p)), Done)
  }

  // ── Top-ups ──────────────────────────────────────────────────────────────

  /** Credit of the fan's PENDING orders younger than 30 minutes. */
  function Reserved(ts: seq<TopupOrder>, fan: nat, now: int): int {
    if |ts| == 0 then 0
    else
      var t := ts[|ts| - 1];
      Reserved(ts[..|ts| - 1], fan, now)
      + if t.fan == fan && t.status == TopupPending && t.createdAt > now - 1800 then t.credit else 0
  }

  /** The third phase of createTopup; `cap` was read in the first. */
  function CreateTopup(db: Db, fan: nat, credit: int, gst: nat, cap: Option<int>): Out {
    if fan >= |db.bank.wallets| then Raise(db, NoSuchProfile)
    else if credit <= 0 then Refuse(db, BadAmount)
    else if cap.Some? && cap.value != 0
         && db.bank.wallets[fan].balance + Reserved(db.topups, fan, db.now) + credit > cap.value
    then Refuse(db, CapExceeded)
    else
      var row := TopupOrder(fan, credit, gst, credit + gst, TopupPending, db.now);
      Out(db.(topups := db.topups + [row]), Done)
  }

  function TopupTxn(t: nat, o: TopupOrder): Txn {
    Txn(Topup(t), o.amount,
        [WalletLeg(o.fan, o.credit), Plain(GstPayable, o.gst), Plain(RazorpayClearing, -o.amount)])
  }

  function VerifyTopup(db: Db, t: nat): Out {
    if t >= |db.topups| then Refuse(db, OrderNotFound)
    else if db.topups[t].status == TopupSuccessful then Out(db, AlreadyDone)
    else
      match Post(db.bank, TopupTxn(t, db.topups[t]))
      case Failed(e) => Raise(db, e)
      case Posted(bank, _, _) =>
        Out(db.(bank := bank, topups := db.topups[t := db.topups[t].(status := TopupSuccessful)]), Done)
  }

  /** A captured or paid event: logged once per event id, cross-checked, settled.
      A failed cross-check throws, which also rolls back the log row. */
  function Webhook(db: Db, event: nat, t: nat, crossChecked: bool): Out {
    if event in db.webhooks then Out(db, AlreadyDone)
    else if !crossChecked then Raise(db, CrossCheckFailed)
    else
      var step := VerifyTopup(db, t);
      if step.reply.Raised? then Raise(db, step.reply.error)
      else Out(step.db.(webhooks := step.db.webhooks + {event}), Done)
  }

  function CleanupTopups(db: Db): Out {
    Out(db.(topups := seq(|db.topups|, i requires 0 <= i < |db.topups| =>
              if db.topups[i].status == TopupPending && db.topups[i].createdAt < db.now - 86400
              then db.topups[i].(status := TopupFailed) else db.topups[i])), Done)
  }

  // ── Goodwill credit ──────────────────────────────────────────────────────

  function GrantTxn(g: nat, fan: nat, amount: int): Txn {
    Txn(AdminCredit(g), if amount < 0 then -amount else amount,
        [Leg(Some(fan), WalletAccount, amount, Max(0, amount)), Plain(PlatformAdjustment, -amount)])
  }

  function GrantCredit(db: Db, fan: nat, amount: int): Out {
    if amount == 0 then Refuse(db, ZeroAmount)
    else if fan >= |db.bank.wallets| then Refuse(db, WalletNotFound)
    else
      match Post(db.bank, GrantTxn(|db.bank.ledger|, fan, amount))
      case Failed(e) => Raise(db, e)
      case Posted(bank, _, _) => Out(db.(bank := bank), Done)
  }

  /** Every fan starts with an empty wallet. */
  function NewFan(db: Db): Out {
    Out(db.(bank := db.bank.(wallets := db.bank.wallets + [Wallet(0, 0)])), Done)
  }
}
