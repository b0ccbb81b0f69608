/** The tables of the platform as values.

    A row's id is its index in its table, so an id handed out by an insert is
    always fresh. Child rows live inside the parent row they reference: calls in
    their booking, windows (with their messages) in their conversation, and
    correction rounds in their shout-out. Money is in integer paise and time in
    integer seconds.
 */
module Schema {

  datatype Option<+T> = None | Some(value: T)

  // ── Money ────────────────────────────────────────────────────────────────

  datatype Account =
    | WalletAccount
    | Escrow
    | PartnerPayable
    | PromoIncentive
    | GstPayable
    | RazorpayClearing
    | PlatformAdjustment

  /** One ledger leg; `wallet` names the cached wallet it also moves. */
  datatype Leg = Leg(wallet: Option<nat>, account: Account, delta: int, bonusDelta: int)

  /** `bonus` is the promotional part of `balance`, never a second pot. */
  datatype Wallet = Wallet(balance: int, bonus: int)

  /** The row a transaction belongs to. */
  datatype Item =
    | BookingItem(booking: nat)
    | WindowItem(conversation: nat, window: nat)
    | ShoutoutItem(shoutout: nat)
    | TopupItem(order: nat)
    | PayoutItem(payout: nat)
    | GrantItem(grant: nat)

  /** Idempotency keys, one constructor for each key prefix the code uses. */
  datatype Key =
    | Book(booking: nat)
    | Refund(booking: nat)
    | Expire(booking: nat)
    | AdminExpire(booking: nat)
    | Settle(booking: nat)
    | PartialSettle(booking: nat)
    | PartialRefund(booking: nat)
    | Question(conversation: nat, window: nat)
    | QuestionExpire(conversation: nat, window: nat)
    | SettleWindow(conversation: nat, window: nat)
    | Shout(shoutout: nat)
    | ShoutCorrection(shoutout: nat, round: nat)
    | ShoutCancel(shoutout: nat)
    | ShoutExpire(shoutout: nat)
    | SettleShout(shoutout: nat)
    | Topup(order: nat)
    | Payout(payout: nat)
    | AdminCredit(grant: nat)

  function Owner(key: Key): Item {
    match key
    case Book(i) => BookingItem(i)
    case Refund(i) => BookingItem(i)
    case Expire(i) => BookingItem(i)
    case AdminExpire(i) => BookingItem(i)
    case Settle(i) => BookingItem(i)
    case PartialSettle(i) => BookingItem(i)
    case PartialRefund(i) => BookingItem(i)
    case Question(c, w) => WindowItem(c, w)
    case QuestionExpire(c, w) => WindowItem(c, w)
    case SettleWindow(c, w) => WindowItem(c, w)
    case Shout(s) => ShoutoutItem(s)
    case ShoutCorrection(s, _) => ShoutoutItem(s)
    case ShoutCancel(s) => ShoutoutItem(s)
    case ShoutExpire(s) => ShoutoutItem(s)
    case SettleShout(s) => ShoutoutItem(s)
    case Topup(t) => TopupItem(t)
    case Payout(p) => PayoutItem(p)
    case AdminCredit(g) => GrantItem(g)
  }

  // ── Bookings and calls ───────────────────────────────────────────────────

  datatype BookingStatus =
    | Booked
    | RequiresAdminReview
    | Completed
    | CancelledByFan
    | ExpiredPartnerNoShow
    | ExpiredFanNoJoin
    | ExpiredFanDeclined
    | ExpiredTechnical

  datatype CallStatus =
    | PartnerInitiated
    | InProgress
    | CallCompleted
    | MissedNoJoin
    | MissedDeclined
    | DroppedTechnical

  /** `mediaConfirmed` is None until the fan's app first reports on the creator. */
  datatype Call = Call(
    status: CallStatus,
    initiatedAt: int,
    startedAt: Option<int>,
    deadline: Option<int>,
    endedAt: Option<int>,
    fanBeat: Option<int>,
    partnerBeat: Option<int>,
    mediaConfirmed: Option<bool>)

  datatype Booking = Booking(
    fan: nat,
    partner: nat,
    date: int,
    minutes: int,
    price: int,     // what the fan pays
    original: int,  // list price held in escrow
    discount: int,  // what the platform funds
    status: BookingStatus,
    settleAt: int,
    fanReady: bool,
    calls: seq<Call>)

  datatype Slot = Slot(partner: nat, date: int)
  datatype Availability = Availability(available: bool, threshold: int, booked: int)

  // ── Direct messages ──────────────────────────────────────────────────────

  datatype WindowKind = Free | Paid
  datatype WindowStatus = Open | Answered | WindowExpired
  datatype Sender = FromFan | FromPartner

  datatype Window = Window(
    kind: WindowKind,
    charge: int,
    cap: nat,
    status: WindowStatus,
    responseDeadline: Option<int>,
    settleAt: Option<int>,
    messages: seq<Sender>)

  datatype Conversation = Conversation(fan: nat, partner: nat, windows: seq<Window>)

  // ── Shout-outs ───────────────────────────────────────────────────────────

  datatype ShoutoutStatus =
    | AwaitingVideo
    | Delivered
    | IssueReported
    | RefundedByAdmin
    | ExpiredNoDelivery

  datatype Confirmer = ByFan | ByAdmin | ByTimer
  datatype CorrectionKind = FreeRound | PaidRound
  datatype Correction = Correction(kind: CorrectionKind, fee: int, resubmitted: bool)

  datatype Shoutout = Shoutout(
    fan: nat,
    partner: nat,
    price: int,
    status: ShoutoutStatus,
    settleAt: int,
    confirmed: Option<Confirmer>,
    freeUsed: bool,
    disputed: bool,
    reviewDeadline: Option<int>,
    corrections: seq<Correction>)

  // ── Earnings, payouts, top-ups, reports ──────────────────────────────────

  datatype EarningStatus = PendingPayout | InPayout | EarningPaid
  datatype Earning = Earning(
    partner: nat, txn: nat, service: Item, amount: int, status: EarningStatus, payout: Option<nat>)

  datatype PayoutStatus = Requested | PayoutPaid | Rejected
  datatype PayoutRow = PayoutRow(partner: nat, amount: int, status: PayoutStatus, utr: Option<string>)

  datatype TopupStatus = TopupPending | TopupSuccessful | TopupFailed
  datatype TopupOrder = TopupOrder(
    fan: nat, credit: int, gst: int, amount: int, status: TopupStatus, createdAt: int)

  datatype Target =
    | CallTarget(booking: nat, call: nat)
    | WindowTarget(conversation: nat, window: nat)
    | ShoutoutTarget(shoutout: nat)
  datatype Report = Report(target: Target, open: bool)

  /** The admin decisions on bookings that the audit log records. */
  datatype Audit =
    | AuditResolvePartial(booking: nat)
    | AuditExpireBooking(booking: nat, status: BookingStatus)

  datatype Settings = Settings(
    settlementWindow: nat,         // seconds
    questionSla: nat,              // seconds
    reviewWindow: nat,             // seconds
    correctionFee: int,
    minWithdrawal: Option<int>,
    walletCap: Option<int>)

  // ── Replies ──────────────────────────────────────────────────────────────

  datatype Error =
    // raised: the whole transaction rolls back
    | BadLegs | Unbalanced | BadAmount | WalletNotFound | CheckViolation | NoSuchProfile
    // returned as success=false
    | NotFound | NotSettleable | ReportPending | NotRefundable | PastRefundWindow
    | NotAvailable | NoCapacity | ServiceRefused | NotBookable | AlreadyInitiated
    | NoActiveCall | NotInProgress | InvalidStatus | NotActive | AlreadyJoined
    | SplitMismatch | WindowLimit | NoWindow | PartnerMismatch | NoConversation
    | InvalidState | FanMismatch | InsufficientBalance | AlreadySettled | NotReportable
    | NotConfirmable | NotExpirable | NotFlagged | LinkRequired | InvalidMinutes
    | MinutesExceedCap | UnverifiedMethod | NothingToPay | BelowMinWithdrawal
    | UtrRequired | UtrInvalidFormat | UtrAlreadyUsed | CapExceeded | OrderNotFound
    | CrossCheckFailed | ZeroAmount | NotRecoverable

  /** Refused is an error reply; Raised is an exception. Neither changes a row. */
  datatype Reply =
    | Done
    | AlreadyDone
    | Refused(error: Error)
    | Raised(error: Error)
}
