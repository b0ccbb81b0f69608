/** Every transaction the platform runs as one step relation, and its runs.

    A worker sweeping a stale id list is nothing but these steps interleaved with
    everyone else's, so a statement over every run covers overlapping sweeps.
 */
module Platform {
  import opened Schema
  import opened Ledger
  import opened Tables
  import opened Bookings
  import opened Calls
  import opened Messages
  import opened Shoutouts
  import opened Payouts

  datatype BookingAction =
    | DoSetAvailability(partner: nat, date: int, limit: int)
    | DoBook(fan: nat, partner: nat, date: int, minutes: Minutes, quote: Option<Quote>)
    | DoRefund(booking: nat)
    | DoExpire(booking: nat)
    | DoSettle(booking: nat)
    | DoResolvePartial(booking: nat, share: int, refund: int)
    | DoAdminExpire(booking: nat, status: BookingStatus)

  datatype CallAction =
    | DoReady(booking: nat)
    | DoInitiate(booking: nat)
    | DoJoin(booking: nat)
    | DoBeat(booking: nat, call: nat, byFan: bool, peerSeen: Option<bool>)
    | DoComplete(booking: nat, call: nat, auto: bool)
    | DoMiss(booking: nat, call: nat, status: CallStatus)
    | DoSweepRings

  datatype MessageAction =
    | DoAsk(fan: nat, partner: nat, blocked: bool, price: Option<int>)
    | DoAnswer(partner: nat, conversation: nat)
    | DoFollowup(partner: nat, fan: nat, blocked: bool)
    | DoExpireWindow(conversation: nat, window: nat)
    | DoSettleWindow(conversation: nat, window: nat)

  datatype ShoutoutAction =
    | DoRequest(fan: nat, partner: nat, blocked: bool, price: Option<int>)
    | DoUpload(shoutout: nat, link: string)
    | DoConfirm(fan: nat, shoutout: nat)
    | DoAutoConfirm(shoutout: nat)
    | DoReport(shoutout: nat)
    | DoCorrect(fan: nat, shoutout: nat)
    | DoCancel(shoutout: nat)
    | DoResolve(shoutout: nat, verdict: Verdict)
    | DoAdminDeliver(shoutout: nat, approve: bool)
    | DoExpireShoutout(shoutout: nat)
    | DoSettleShoutout(shoutout: nat)

  datatype MoneyAction =
    | DoCreatePayout(partner: nat, verified: bool)
    | DoApprove(payout: nat, reference: string)
    | DoReject(payout: nat)
    | DoCreateTopup(fan: nat, credit: int, gst: nat, cap: Option<int>)
    | DoVerify(order: nat)
    | DoWebhook(event: nat, order: nat, crossChecked: bool)
    | DoCleanup
    | DoGrant(fan: nat, amount: int)

  datatype WorldAction =
    | Tick(seconds: nat)
    | ChangeSettings(settings: Settings)
    | DoNewFan
    | FileReport(target: Target)
    | CloseReport(report: nat)

  datatype Action =
    | OnBooking(booking: BookingAction)
    | OnCall(call: CallAction)
    | OnMessage(message: MessageAction)
    | OnShoutout(shoutout: ShoutoutAction)
    | OnMoney(money: MoneyAction)
    | OnWorld(world: WorldAction)

  function StepBooking(db: Db, a: BookingAction): Out {
    match a
    case DoSetAvailability(p, date, limit) => SetAvailability(db, p, date, limit)
    case DoBook(f, p, date, m, q) => BookCall(db, f, p, date, m, q)
    case DoRefund(i) => RefundBooking(db, i)
    case DoExpire(i) => ExpireBooking(db, i)
    case DoSettle(i) => SettleBooking(db, i)
    case DoResolvePartial(i, share, refund) => ResolvePartial(db, i, share, refund)
    case DoAdminExpire(i, s) => AdminExpireBooking(db, i, s)
  }

  function StepCall(db: Db, a: CallAction): Out {
    match a
    case DoReady(i) => SignalReady(db, i)
    case DoInitiate(i) => InitiateCall(db, i)
    case DoJoin(i) => JoinCall(db, i)
    case DoBeat(i, k, byFan, seen) => Heartbeat(db, i, k, byFan, seen)
    case DoComplete(i, k, auto) => CompleteCall(db, i, k, auto)
    case DoMiss(i, k, s) => MarkMissed(db, i, k, s)
    case DoSweepRings => SweepRings(db)
  }

  function StepMessage(db: Db, a: MessageAction): Out {
    match a
    case DoAsk(f, p, blocked, price) => AskQuestion(db, f, p, blocked, price)
    case DoAnswer(p, c) => PartnerAnswer(db, p, c)
    case DoFollowup(p, f, blocked) => PartnerFollowup(db, p, f, blocked)
    case DoExpireWindow(c, w) => ExpireWindow(db, c, w)
    case DoSettleWindow(c, w) => SettleQuestion(db, c, w)
  }

  function StepShoutout(db: Db, a: ShoutoutAction): Out {
    match a
    case DoRequest(f, p, blocked, price) => RequestShoutout(db, f, p, blocked, price)
    case DoUpload(s, link) => UploadShoutout(db, s, link)
    case DoConfirm(f, s) => ConfirmShoutout(db, f, s)
    case DoAutoConfirm(s) => AutoConfirmShoutout(db, s)
    case DoReport(s) => ReportShoutout(db, s)
    case DoCorrect(f, s) => RequestCorrection(db, f, s)
    case DoCancel(s) => CancelShoutout(db, s)
    case DoResolve(s, v) => ResolveDispute(db, s, v)
    case DoAdminDeliver(s, approve) => AdminDeliver(db, s, approve)
    case DoExpireShoutout(s) => ExpireShoutout(db, s)
    case DoSettleShoutout(s) => SettleShoutout(db, s)
  }

  function StepMoney(db: Db, a: MoneyAction): Out {
    match a
    case DoCreatePayout(p, v) => CreatePayout(db, p, v)
    case DoApprove(p, reference) => ApprovePayout(db, p, reference)
    case DoReject(p) => RejectPayout(db, p)
    case DoCreateTopup(f, credit, gst, cap) => CreateTopup(db, f, credit, gst, cap)
    case DoVerify(t) => VerifyTopup(db, t)
    case DoWebhook(e, t, checked) => Webhook(db, e, t, checked)
    case DoCleanup => CleanupTopups(db)
    case DoGrant(f, amount) => GrantCredit(db, f, amount)
  }

  function StepWorld(db: Db, a: WorldAction): Out {
    match a
    case Tick(seconds) => Out(db.(now := db.now + seconds), Done)
    case ChangeSettings(s) => Out(db.(settings := s), Done)
    case DoNewFan => NewFan(db)
    case FileReport(target) => Out(db.(reports := db.reports + [Report(target, true)]), Done)
    case CloseReport(r) =>
      if r >= |db.reports| then Refuse(db, NotFound)
      else Out(db.(reports := db.reports[r := db.reports[r].(open := false)]), Done)
  }

  function Step(db: Db, a: Action): Out {
    match a
    case OnBooking(x) => StepBooking(db, x)
    case OnCall(x) => StepCall(db, x)
    case OnMessage(x) => StepMessage(db, x)
    case OnShoutout(x) => StepShoutout(db, x)
    case OnMoney(x) => StepMoney(db, x)
    case OnWorld(x) => StepWorld(db, x)
  }

  /** The booking still holds its escrow, or is only marked completed again. */
  predicate AdminExpireAllowed(db: Db, id: nat, status: BookingStatus) {
    id < |db.bookings| && (status == Completed || IsExpired(status)) ==>
      || (!IsUnwound(db.bookings[id].status) && !Earned(db, BookingItem(id)))
      || (status == Completed && db.bookings[id].status == Completed)
  }

  /** Three calls test less than they need: the admin's expiry of a booking, the
      expiry item of a question window and the admin's split of a partial call.
      Runs leave out exactly their unsafe uses; every other call is unrestricted. */
  predicate Allowed(db: Db, a: Action) {
    match a
    case OnBooking(DoAdminExpire(i, s)) => AdminExpireAllowed(db, i, s)
    case OnBooking(DoResolvePartial(_, share, refund)) => share >= 1 && refund >= 0
    case OnMessage(DoExpireWindow(c, w)) => !Earned(db, WindowItem(c, w))
    case _ => true
  }

  function Run(db: Db, actions: seq<Action>): Db
    decreases |actions|
  {
    if |actions| == 0 then db else Run(Step(db, actions[0]).db, actions[1..])
  }

  predicate AllowedRun(db: Db, actions: seq<Action>)
    decreases |actions|
  {
    |actions| == 0 || (Allowed(db, actions[0]) && AllowedRun(Step(db, actions[0]).db, actions[1..]))
  }

  /** Exceptions, error replies and repeats leave every row as it was. */
  lemma OnlyDoneChanges(db: Db, a: Action)
    ensures Step(db, a).reply != Done ==> Step(db, a).db == db
  {
    hide StepBooking, StepCall, StepMessage, StepShoutout, StepMoney;
    match a {
      case OnBooking(x) => BookingUnlessDone(db, x);
      case OnCall(x) => CallUnlessDone(db, x);
      case OnMessage(x) => MessageUnlessDone(db, x);
      case OnShoutout(x) => ShoutoutUnlessDone(db, x);
      case OnMoney(x) => MoneyUnlessDone(db, x);
      case OnWorld(x) =>
    }
  }

  lemma BookingUnlessDone(db: Db, a: BookingAction)
    ensures StepBooking(db, a).reply != Done ==> StepBooking(db, a).db == db
  {
  }

  lemma CallUnlessDone(db: Db, a: CallAction)
    ensures StepCall(db, a).reply != Done ==> StepCall(db, a).db == db
  {
  }

  lemma MessageUnlessDone(db: Db, a: MessageAction)
    ensures StepMessage(db, a).reply != Done ==> StepMessage(db, a).db == db
  {
  }

  lemma ShoutoutUnlessDone(db: Db, a: ShoutoutAction)
    ensures StepShoutout(db, a).reply != Done ==> StepShoutout(db, a).db == db
  {
  }

  lemma MoneyUnlessDone(db: Db, a: MoneyAction)
    ensures StepMoney(db, a).reply != Done ==> StepMoney(db, a).db == db
  {
  }

  // ── Which tables each family of transactions writes ──────────────────────

  lemma BookingFrame(db: Db, a: BookingAction)
    ensures var next := StepBooking(db, a).db;
      next == db.(bank := next.bank, bookings := next.bookings, slots := next.slots,
                  earnings := next.earnings, audit := next.audit)
  {
    hide Post, Classify, OpenCallReport, Earned;
  }

  lemma CallFrame(db: Db, a: CallAction)
    ensures StepCall(db, a).db == db.(bookings := StepCall(db, a).db.bookings)
  {
    hide LatestActive, ConsumedSeconds, WithCall;
  }

  lemma MessageFrame(db: Db, a: MessageAction)
    ensures var next := StepMessage(db, a).db;
      next == db.(bank := next.bank, conversations := next.conversations, earnings := next.earnings)
  {
    hide Post, FindConversation, NewestOpen, NewestReplyable, OpenReportOn, Earned;
  }

  lemma ShoutoutFrame(db: Db, a: ShoutoutAction)
    ensures var next := StepShoutout(db, a).db;
      next == db.(bank := next.bank, shoutouts := next.shoutouts, earnings := next.earnings, reports := next.reports)
  {
    hide Post, CloseReports, CloseRounds, Fees, Earned, HasKey;
  }

  lemma MoneyFrame(db: Db, a: MoneyAction)
    ensures var next := StepMoney(db, a).db;
      next == db.(bank := next.bank, earnings := next.earnings, payouts := next.payouts,
                  topups := next.topups, webhooks := next.webhooks)
  {
    hide Post, PendingFor, Reserved, NormaliseUtr, UtrTaken;
  }

  lemma WorldFrame(db: Db, a: WorldAction)
    ensures var next := StepWorld(db, a).db;
      && next == db.(now := next.now, settings := next.settings, bank := next.bank, reports := next.reports)
      && next.now >= db.now && next.bank.ledger == db.bank.ledger
      && (a.Tick? ==> next == db.(now := db.now + a.seconds))
  {
  }
}
