/** The whole database as one value, and the small reads every RPC shares. */
module Tables {
  import opened Schema
  import opened Ledger

  datatype Db = Db(
    now: int,
    settings: Settings,
    bank: Bank,
    bookings: seq<Booking>,
    slots: map<Slot, Availability>,
    conversations: seq<Conversation>,
    shoutouts: seq<Shoutout>,
    earnings: seq<Earning>,
    payouts: seq<PayoutRow>,
    topups: seq<TopupOrder>,
    webhooks: set<nat>,
    reports: seq<Report>,
    audit: seq<Audit>)

  /** What one SQL transaction leaves behind. */
  datatype Out = Out(db: Db, reply: Reply)

  function Refuse(db: Db, error: Error): Out { Out(db, Refused(error)) }
  function Raise(db: Db, error: Error): Out { Out(db, Raised(error)) }

  function EmptyDb(settings: Settings): Db {
    Db(0, settings, Bank([], []), [], map[], [], [], [], [], [], {}, [], [])
  }

  /** The amount of the earning recorded for a service: service_id is unique. */
  function PaidFor(earnings: seq<Earning>, service: Item): Option<int> {
    if |earnings| == 0 then None
    else
      var rest := PaidFor(earnings[..|earnings| - 1], service);
      var last := earnings[|earnings| - 1];
      if rest.Some? then rest
      else if last.service == service then Some(last.amount)
      else None
  }

  predicate Earned(db: Db, service: Item) { PaidFor(db.earnings, service).Some? }

  lemma PaidForAppend(earnings: seq<Earning>, e: Earning, service: Item)
    ensures PaidFor(earnings + [e], service)
         == if PaidFor(earnings, service).Some? then PaidFor(earnings, service)
            else if e.service == service then Some(e.amount) else None
  {
    assert (earnings + [e])[..|earnings|] == earnings;
  }

  predicate OpenReportOn(reports: seq<Report>, target: Target) {
    exists i :: 0 <= i < |reports| && reports[i].open && reports[i].target == target
  }

  predicate OpenCallReport(reports: seq<Report>, booking: nat) {
    exists i :: 0 <= i < |reports| && reports[i].open
             && reports[i].target.CallTarget? && reports[i].target.booking == booking
  }

  /** Escrow to payable plus the earning row: the tail every settle RPC shares. */
  function PayPartner(db: Db, service: Item, partner: nat, key: Key, amount: int): (out: Out)
    ensures out.reply.Done? || (out.reply.Raised? && out.db == db)
    ensures out.db == db.(bank := out.db.bank, earnings := out.db.earnings)
  {
    var legs := [Plain(Escrow, -amount), Plain(PartnerPayable, amount)];
    match Post(db.bank, Txn(key, amount, legs))
    case Failed(e) => Raise(db, e)
    case Posted(bank, txn, _) =>
      var earning := Earning(partner, txn, service, amount, PendingPayout, None);
      Out(db.(bank := bank, earnings := db.earnings + [earning]), Done)
  }
}
