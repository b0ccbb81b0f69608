/** Paid question windows: ask, answer, follow up, expire and settle. */
module Messages {
  import opened Schema
  import opened Ledger
  import opened Tables

  const MESSAGE_CAP: nat := 5

  function FindConversation(cs: seq<Conversation>, fan: nat, partner: nat): (found: Option<nat>)
    ensures found.Some? ==> found.value < |cs| && cs[found.value].fan == fan && cs[found.value].partner == partner
    ensures found.None? ==> forall i :: 0 <= i < |cs| ==> cs[i].fan != fan || cs[i].partner != partner
  {
    if |cs| == 0 then None
    else
      var rest := FindConversation(cs[..|cs| - 1], fan, partner);
      if rest.Some? then rest
      else if cs[|cs| - 1].fan == fan && cs[|cs| - 1].partner == partner then Some(|cs| - 1)
      else
        assert forall i :: 0 <= i < |cs| - 1 ==> cs[i] == cs[..|cs| - 1][i];
        None
  }

  /** The newest OPEN window. */
  function NewestOpen(ws: seq<Window>): (k: Option<nat>)
    ensures k.Some? ==> k.value < |ws| && ws[k.value].status == Open
    ensures k.Some? ==> forall i :: k.value < i < |ws| ==> ws[i].status != Open
    ensures k.None? ==> forall i :: 0 <= i < |ws| ==> ws[i].status != Open
  {
    if |ws| == 0 then None
    else if ws[|ws| - 1].status == Open then Some(|ws| - 1)
    else NewestOpen(ws[..|ws| - 1])
  }

  /** The newest window that is OPEN or ANSWERED. */
  function NewestReplyable(ws: seq<Window>): (k: Option<nat>)
    ensures k.Some? ==> k.value < |ws| && ws[k.value].status != WindowExpired
    ensures k.Some? ==> forall i :: k.value < i < |ws| ==> ws[i].status == WindowExpired
    ensures k.None? ==> forall i :: 0 <= i < |ws| ==> ws[i].status == WindowExpired
  {
    if |ws| == 0 then None
    else if ws[|ws| - 1].status != WindowExpired then Some(|ws| - 1)
    else NewestReplyable(ws[..|ws| - 1])
  }

  function FanMessages(ms: seq<Sender>): nat {
    if |ms| == 0 then 0
    else FanMessages(ms[..|ms| - 1]) + if ms[|ms| - 1] == FromFan then 1 else 0
  }

  function SetWindow(db: Db, c: nat, w: nat, row: Window): Db
    requires c < |db.conversations| && w < |db.conversations[c].windows|
  {
    db.(conversations := db.conversations[c := db.conversations[c].(windows := db.conversations[c].windows[w := row])])
  }

  function AddWindow(db: Db, c: nat, row: Window): Db
    requires c < |db.conversations|
  {
    db.(conversations := db.conversations[c := db.conversations[c].(windows := db.conversations[c].windows + [row])])
  }

  function FreeWindow(first: Sender): Window {
    Window(Free, 0, MESSAGE_CAP, Open, None, None, [first])
  }

  function PaidWindow(db: Db, price: int): Window {
    Window(Paid, price, MESSAGE_CAP, Open, Some(db.now + db.settings.questionSla),
           Some(db.now + db.settings.settlementWindow), [FromFan])
  }

  function QuestionTxn(c: nat, w: nat, fan: nat, price: int): Txn {
    Txn(Question(c, w), price, [WalletLeg(fan, -price), Plain(Escrow, price)])
  }

  /** `price` is the partner's listed question price, if the service is active;
      `blocked` covers the block list and the KYC gate. */
  function AskQuestion(db: Db, fan: nat, partner: nat, blocked: bool, price: Option<int>): Out {
    if fan >= |db.bank.wallets| then Raise(db, NoSuchProfile)
    else if blocked then Refuse(db, ServiceRefused)
    else
      match FindConversation(db.conversations, fan, partner)
      case None =>
        Out(db.(conversations := db.conversations + [Conversation(fan, partner, [FreeWindow(FromFan)])]), Done)
      case Some(c) =>
        var ws := db.conversations[c].windows;
        match NewestOpen(ws)
        case Some(k) =>
          if FanMessages(ws[k].messages) >= ws[k].cap then Refuse(db, WindowLimit)
          else Out(SetWindow(db, c, k, ws[k].(messages := ws[k].messages + [FromFan])), Done)
        case None =>
          if |ws| == 0 then Out(AddWindow(db, c, FreeWindow(FromFan)), Done)
          else if price.None? then Refuse(db, ServiceRefused)
          else
            match Post(db.bank, QuestionTxn(c, |ws|, fan, price.value))
            case Failed(e) => Raise(db, e)
            case Posted(bank, _, _) => Out(AddWindow(db.(bank := bank), c, PaidWindow(db, price.value)), Done)
  }

  /** The first reply to an OPEN window answers it and anchors settle_at. */
  function PartnerAnswer(db: Db, partner: nat, c: nat): Out {
    if c >= |db.conversations| then Refuse(db, NotFound)
    else if db.conversations[c].partner != partner then Refuse(db, PartnerMismatch)
    else
      var ws := db.conversations[c].windows;
      match NewestReplyable(ws)
      case None => Refuse(db, NoWindow)
      case Some(k) =>
        var said := ws[k].(messages := ws[k].messages + [FromPartner]);
        var row := if ws[k].status == Open
                   then said.(status := Answered, settleAt := Some(db.now + db.settings.settlementWindow))
                   else said;
        Out(SetWindow(db, c, k, row), Done)
  }

  function PartnerFollowup(db: Db, partner: nat, fan: nat, blocked: bool): Out {
    if blocked then Refuse(db, ServiceRefused)
    else
      match FindConversation(db.conversations, fan, partner)
      case None => Refuse(db, NoConversation)
      case Some(c) =>
        var ws := db.conversations[c].windows;
        match NewestOpen(ws)
        case Some(k) => Out(SetWindow(db, c, k, ws[k].(messages := ws[k].messages + [FromPartner])), Done)
        case None => Out(AddWindow(db, c, FreeWindow(FromPartner)), Done)
  }

  predicate HasWindow(db: Db, c: nat, w: nat) {
    c < |db.conversations| && w < |db.conversations[c].windows|
  }

  function WindowAt(db: Db, c: nat, w: nat): Window
    requires HasWindow(db, c, w)
  {
    db.conversations[c].windows[w]
  }

  predicate WindowOverdue(db: Db, c: nat, w: nat) {
    && HasWindow(db, c, w)
    && var row := WindowAt(db, c, w);
       row.kind == Paid && row.status == Open && row.responseDeadline.Some? && row.responseDeadline.value <= db.now
  }

  function WindowRefundTxn(c: nat, w: nat, fan: nat, charge: int): Txn {
    Txn(QuestionExpire(c, w), charge, [Plain(Escrow, -charge), WalletLeg(fan, charge)])
  }

  /** One item of the expiry job: refund and mark EXPIRED. The window was overdue
      when the job listed it; the item itself tests nothing. */
  function ExpireWindow(db: Db, c: nat, w: nat): Out {
    if !HasWindow(db, c, w) then Refuse(db, NotFound)
    else
      match Post(db.bank, WindowRefundTxn(c, w, db.conversations[c].fan, WindowAt(db, c, w).charge))
      case Failed(e) => Raise(db, e)
      case Posted(bank, _, _) =>
        Out(SetWindow(db.(bank := bank), c, w, WindowAt(db, c, w).(status := WindowExpired)), Done)
  }

  /** Also the body of rpc_admin_force_settle_window. */
  function SettleQuestion(db: Db, c: nat, w: nat): Out {
    if !HasWindow(db, c, w) then Refuse(db, NotSettleable)
    else
      var row := WindowAt(db, c, w);
      if row.kind != Paid || row.charge == 0 || row.status != Answered then Refuse(db, NotSettleable)
      else if OpenReportOn(db.reports, WindowTarget(c, w)) then Refuse(db, ReportPending)
      else if Earned(db, WindowItem(c, w)) then Out(db, AlreadyDone)
      else PayPartner(db, WindowItem(c, w), db.conversations[c].partner, SettleWindow(c, w), row.charge)
  }
}
