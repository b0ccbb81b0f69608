/** Shout-outs: request, delivery, confirmation, correction rounds, disputes,
    cancellation, expiry and settlement.
 */
module Shoutouts {
  import opened Schema
  import opened Ledger
  import opened Tables

  function Fees(cs: seq<Correction>): int {
    if |cs| == 0 then 0
    else Fees(cs[..|cs| - 1]) + if cs[|cs| - 1].kind == PaidRound then cs[|cs| - 1].fee else 0
  }

  function SetShoutout(db: Db, s: nat, row: Shoutout): Db
    requires s < |db.shoutouts|
  {
    db.(shoutouts := db.shoutouts[s := row])
  }

  function CloseReports(reports: seq<Report>, target: Target): seq<Report> {
    seq(|reports|, i requires 0 <= i < |reports| =>
      if reports[i].target == target then reports[i].(open := false) else reports[i])
  }

  function RequestTxn(s: nat, fan: nat, price: int): Txn {
    Txn(Shout(s), price, [WalletLeg(fan, -price), Plain(Escrow, price)])
  }

  function RequestShoutout(db: Db, fan: nat, partner: nat, blocked: bool, price: Option<int>): Out {
    if fan >= |db.bank.wallets| then Raise(db, NoSuchProfile)
    else if blocked || price.None? then Refuse(db, ServiceRefused)
    else
      var s := |db.shoutouts|;
      match Post(db.bank, RequestTxn(s, fan, price.value))
      case Failed(e) => Raise(db, e)
      case Posted(bank, _, _) =>
        var row := Shoutout(fan, partner, price.value, AwaitingVideo, db.now + db.settings.settlementWindow,
                            None, false, false, None, []);
        Out(db.(bank := bank, shoutouts := db.shoutouts + [row]), Done)
  }

  function CloseRounds(cs: seq<Correction>): seq<Correction> {
    seq(|cs|, i requires 0 <= i < |cs| => cs[i].(resubmitted := true))
  }

  /** Every delivery restarts both clocks, clears the confirmation and closes the
      open round. */
  function UploadShoutout(db: Db, s: nat, link: string): Out {
    if s >= |db.shoutouts| then Refuse(db, NotFound)
    else if forall i :: 0 <= i < |link| ==> link[i] == ' ' then Refuse(db, LinkRequired)
    else if db.shoutouts[s].status != AwaitingVideo then Refuse(db, InvalidState)
    else
      var r := db.shoutouts[s];
      Out(SetShoutout(db, s, r.(status := Delivered, confirmed := None,
                                reviewDeadline := Some(db.now + db.settings.reviewWindow),
                                settleAt := db.now + db.settings.settlementWindow,
                                corrections := CloseRounds(r.corrections))), Done)
  }

  function ConfirmShoutout(db: Db, fan: nat, s: nat): Out {
    if s >= |db.shoutouts| then Refuse(db, NotFound)
    else
      var r := db.shoutouts[s];
      if fan != r.fan then Refuse(db, FanMismatch)
      else if r.status != Delivered then Refuse(db, InvalidState)
      else if r.confirmed.Some? then Out(db, AlreadyDone)
      else Out(SetShoutout(db, s, r.(confirmed := Some(ByFan), settleAt := db.now)), Done)
  }

  predicate DueForAutoConfirm(db: Db, s: nat) {
    && s < |db.shoutouts|
    && var r := db.shoutouts[s];
       r.status == Delivered && r.confirmed.None? && r.reviewDeadline.Some? && r.reviewDeadline.value <= db.now
  }

  function AutoConfirmShoutout(db: Db, s: nat): Out {
    if s >= |db.shoutouts| then Refuse(db, NotFound)
    else if !DueForAutoConfirm(db, s) then Refuse(db, NotConfirmable)
    else Out(SetShoutout(db, s, db.shoutouts[s].(confirmed := Some(ByTimer), settleAt := db.now)), Done)
  }

  function ReportShoutout(db: Db, s: nat): Out {
    if s >= |db.shoutouts| then Refuse(db, NotReportable)
    else
      var r := db.shoutouts[s];
      if r.status != Delivered || r.confirmed.Some? then Refuse(db, NotReportable)
      else Out(SetShoutout(db.(reports := db.reports + [Report(ShoutoutTarget(s), true)]), s,
                           r.(status := IssueReported, disputed := true)), Done)
  }

  function CorrectionTxn(s: nat, round: nat, fan: nat, fee: int): Txn {
    Txn(ShoutCorrection(s, round), fee, [WalletLeg(fan, -fee), Plain(Escrow, fee)])
  }

  /** One free round, then paid ones. Only a CHECK violation is turned into a
      reply; any other exception rolls the call back. */
  function RequestCorrection(db: Db, fan: nat, s: nat): Out {
    if s >= |db.shoutouts| then Refuse(db, NotFound)
    else
      var r := db.shoutouts[s];
      if fan != r.fan then Refuse(db, FanMismatch)
      else if r.status != Delivered || r.confirmed.Some? || r.disputed then Refuse(db, InvalidState)
      else if !r.freeUsed then
        Out(SetShoutout(db, s, r.(freeUsed := true, status := AwaitingVideo,
                                  corrections := r.corrections + [Correction(FreeRound, 0, false)])), Done)
      else
        var fee := db.settings.correctionFee;
        if fee < 0 then Refuse(db, InsufficientBalance)
        else
          match Post(db.bank, CorrectionTxn(s, |r.corrections|, r.fan, fee))
          case Failed(e) => if e == CheckViolation then Refuse(db, InsufficientBalance) else Raise(db, e)
          case Posted(bank, _, _) =>
            Out(SetShoutout(db.(bank := bank), s,
                  r.(status := AwaitingVideo,
                     corrections := r.corrections + [Correction(PaidRound, fee, false)])), Done)
  }

  function CancelTxn(s: nat, r: Shoutout): Txn {
    var total := r.price + Fees(r.corrections);
    Txn(ShoutCancel(s), total, [Plain(Escrow, -total), WalletLeg(r.fan, total)])
  }

  function CancelShoutout(db: Db, s: nat): Out {
    if s >= |db.shoutouts| then Refuse(db, NotFound)
    else
      var r := db.shoutouts[s];
      if r.status !in {AwaitingVideo, Delivered, IssueReported} then Refuse(db, InvalidState)
      else if Earned(db, ShoutoutItem(s)) then Refuse(db, AlreadySettled)
      else ReturnShoutout(db, s)
  }

  /** Refund price and paid fees, close the reports and set the final status. */
  function ReturnShoutout(db: Db, s: nat): Out
    requires s < |db.shoutouts|
  {
    match Post(db.bank, CancelTxn(s, db.shoutouts[s]))
    case Failed(e) => Raise(db, e)
    case Posted(bank, _, _) =>
      Out(SetShoutout(db.(bank := bank, reports := CloseReports(db.reports, ShoutoutTarget(s))), s,
                      db.shoutouts[s].(status := RefundedByAdmin)), Done)
  }

  datatype Verdict = RefundFan | Rework | Dismiss

  function ResolveDispute(db: Db, s: nat, verdict: Verdict): Out {
    if s >= |db.shoutouts| || db.shoutouts[s].status != IssueReported then Refuse(db, NotFlagged)
    else
      var r := db.shoutouts[s];
      var closed := db.(reports := CloseReports(db.reports, ShoutoutTarget(s)));
      match verdict
      case RefundFan => CancelShoutout(db, s)
      case Rework => Out(SetShoutout(closed, s, r.(status := AwaitingVideo)), Done)
      case Dismiss =>
        Out(SetShoutout(closed, s, r.(status := Delivered,
                                      reviewDeadline := Some(db.now + db.settings.reviewWindow),
                                      settleAt := db.now + db.settings.settlementWindow)), Done)
  }

  /** Force-confirm a delivery, or send it back to the partner. */
  function AdminDeliver(db: Db, s: nat, approve: bool): Out {
    if s >= |db.shoutouts| then Refuse(db, NotFound)
    else
      var r := db.shoutouts[s];
      if r.status !in {Delivered, IssueReported} || r.confirmed.Some? then Refuse(db, InvalidState)
      else if approve then
        Out(SetShoutout(db.(reports := CloseReports(db.reports, ShoutoutTarget(s))), s,
                        r.(status := Delivered, confirmed := Some(ByAdmin))), Done)
      else Out(SetShoutout(db, s, r.(status := AwaitingVideo)), Done)
  }

  function ExpireTxn(s: nat, r: Shoutout): Txn {
    Txn(ShoutExpire(s), r.price, [Plain(Escrow, -r.price), WalletLeg(r.fan, r.price)])
  }

  predicate ShoutoutOverdue(db: Db, s: nat) {
    s < |db.shoutouts| && db.shoutouts[s].status == AwaitingVideo && db.shoutouts[s].settleAt <= db.now
  }

  /** Refunds the price only; paid correction fees stay in escrow. */
  function ExpireShoutout(db: Db, s: nat): Out {
    if s >= |db.shoutouts| then Refuse(db, NotFound)
    else if !ShoutoutOverdue(db, s) then Refuse(db, NotExpirable)
    else if HasKey(db.bank.ledger, ShoutExpire(s)) then Out(db, AlreadyDone)
    else
      match Post(db.bank, ExpireTxn(s, db.shoutouts[s]))
      case Failed(e) => Raise(db, e)
      case Posted(bank, _, _) =>
        Out(SetShoutout(db.(bank := bank), s, db.shoutouts[s].(status := ExpiredNoDelivery)), Done)
  }

  /** Also the body of rpc_admin_force_settle_shoutout. */
  function SettleShoutout(db: Db, s: nat): Out {
    if s >= |db.shoutouts| then Refuse(db, NotFound)
    else
      var r := db.shoutouts[s];
      if r.status != Delivered || r.confirmed.None? then Refuse(db, NotSettleable)
      else if Earned(db, ShoutoutItem(s)) then Out(db, AlreadyDone)
      else PayPartner(db, ShoutoutItem(s), r.partner, SettleShout(s), r.price + Fees(r.corrections))
  }
}
