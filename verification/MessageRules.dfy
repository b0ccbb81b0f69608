/** The discipline of question windows, over every step. */
module MessageRules {
  import opened Schema
  import opened Ledger
  import opened Tables
  import opened Messages
  import opened Platform

  /** What one window satisfies, given its place in its conversation. */
  predicate WindowRuleOk(w: Window, place: nat) {
    && |w.messages| > 0
    && w.cap == MESSAGE_CAP && FanMessages(w.messages) <= w.cap
    && (w.messages[0] == FromFan ==> (w.kind == Free <==> place == 0))
    && (w.messages[0] == FromPartner ==> w.kind == Free)
    && (place == 0 ==> w.kind == Free)
    && (w.status == Answered ==> w.settleAt.Some? && FromPartner in w.messages)
    && (w.kind == Paid && w.status == Open ==> w.responseDeadline.Some?)
  }

  predicate ConversationOk(c: Conversation) {
    && |c.windows| > 0
    && (forall k :: 0 <= k < |c.windows| ==> WindowRuleOk(c.windows[k], k))
    && (forall k :: 0 <= k < |c.windows| - 1 ==> c.windows[k].status != Open)
  }

  ghost predicate MessagesOk(db: Db) {
    && (forall c :: 0 <= c < |db.conversations| ==> ConversationOk(db.conversations[c]))
    && (forall c, d :: 0 <= c < d < |db.conversations| ==>
          db.conversations[c].fan != db.conversations[d].fan || db.conversations[c].partner != db.conversations[d].partner)
  }

  /** Lawful moves of one window: messages are only added, answering happens once
      and only from OPEN, and settle_at is fixed from then on. */
  predicate WindowMoves(x: Window, y: Window) {
    && y == x.(status := y.status, settleAt := y.settleAt, messages := y.messages)
    && x.messages <= y.messages
    && (x.status == Answered ==> y.settleAt == x.settleAt && y.status != Open)
    && (x.status == WindowExpired ==> y.status == WindowExpired && y.settleAt == x.settleAt)
    && (y.status == Open ==> x.status == Open)
  }

  lemma FanMessagesAppend(ms: seq<Sender>, m: Sender)
    ensures FanMessages(ms + [m]) == FanMessages(ms) + if m == FromFan then 1 else 0
  {
    assert (ms + [m])[..|ms|] == ms;
  }

  /** Rewriting one window of one conversation keeps the discipline. */
  lemma SetKeepsMessages(db: Db, next: Db, c: nat, w: nat, row: Window)
    requires MessagesOk(db) && HasWindow(db, c, w) && next.conversations == SetWindow(db, c, w, row).conversations
    requires WindowRuleOk(row, w) && (row.status == Open ==> WindowAt(db, c, w).status == Open)
    ensures MessagesOk(next)
  {
    hide WindowRuleOk;
    forall d | 0 <= d < |next.conversations| ensures ConversationOk(next.conversations[d]) {
      assert ConversationOk(db.conversations[d]);
    }
  }

  /** A new window when none is OPEN keeps it too. */
  lemma AddKeepsMessages(db: Db, next: Db, c: nat, row: Window)
    requires MessagesOk(db) && c < |db.conversations| && next.conversations == AddWindow(db, c, row).conversations
    requires WindowRuleOk(row, |db.conversations[c].windows|)
    requires forall k :: 0 <= k < |db.conversations[c].windows| ==> db.conversations[c].windows[k].status != Open
    ensures MessagesOk(next)
  {
    hide WindowRuleOk;
    forall d | 0 <= d < |next.conversations| ensures ConversationOk(next.conversations[d]) {
      assert ConversationOk(db.conversations[d]);
    }
  }

  lemma FirstWindows(db: Db, price: int, place: nat)
    ensures FanMessages([FromFan]) == 1 && FanMessages([FromPartner]) == 0
    ensures WindowRuleOk(FreeWindow(FromFan), 0) && WindowRuleOk(FreeWindow(FromPartner), place)
    ensures place > 0 ==> WindowRuleOk(PaidWindow(db, price), place)
  {
    assert [FromFan][..0] == [] && [FromPartner][..0] == [];
  }

  lemma AskKeepsMessages(db: Db, fan: nat, partner: nat, blocked: bool, price: Option<int>)
    requires MessagesOk(db)
    ensures MessagesOk(AskQuestion(db, fan, partner, blocked, price).db)
  {
    hide Post, WindowRuleOk;
    var next := AskQuestion(db, fan, partner, blocked, price).db;
    if AskQuestion(db, fan, partner, blocked, price).reply == Done {
      match FindConversation(db.conversations, fan, partner) {
        case None =>
          FirstWindows(db, 0, 0);
          forall d | 0 <= d < |next.conversations| ensures ConversationOk(next.conversations[d]) {
            if d < |db.conversations| { assert ConversationOk(db.conversations[d]); }
          }
        case Some(c) =>
          var ws := db.conversations[c].windows;
          assert ConversationOk(db.conversations[c]);
          match NewestOpen(ws) {
            case Some(k) =>
              var row := ws[k].(messages := ws[k].messages + [FromFan]);
              SpokenRowOk(ws[k], k, row);
              SetKeepsMessages(db, next, c, k, row);
            case None =>
              FirstWindows(db, price.value, |ws|);
              AddKeepsMessages(db, next, c, PaidWindow(db, price.value));
          }
      }
    }
  }

  /** A message more, within the cap, perhaps answering the window. */
  lemma SpokenRowOk(w: Window, place: nat, row: Window)
    requires WindowRuleOk(w, place)
    requires row == w.(messages := row.messages, status := row.status, settleAt := row.settleAt)
    requires || (row.messages == w.messages + [FromFan] && FanMessages(w.messages) < w.cap
                 && row.status == w.status && row.settleAt == w.settleAt)
             || (row.messages == w.messages + [FromPartner] && row.status != WindowExpired
                 && (row.status == Answered ==> row.settleAt.Some?) && (row.status == Open ==> w.status == Open))
    ensures WindowRuleOk(row, place)
  {
    FanMessagesAppend(w.messages, FromFan);
    FanMessagesAppend(w.messages, FromPartner);
  }

  lemma PartnerKeepsMessages(db: Db, partner: nat, c: nat, fan: nat, blocked: bool)
    requires MessagesOk(db)
    ensures MessagesOk(PartnerAnswer(db, partner, c).db)
    ensures MessagesOk(PartnerFollowup(db, partner, fan, blocked).db)
  {
    hide WindowRuleOk;
    if PartnerAnswer(db, partner, c).reply == Done {
      var ws := db.conversations[c].windows;
      assert ConversationOk(db.conversations[c]);
      var k := NewestReplyable(ws).value;
      var row := PartnerAnswer(db, partner, c).db.conversations[c].windows[k];
      if ws[k].status == Answered { AnsweredHasSettleAt(ws[k], k); }
      SpokenRowOk(ws[k], k, row);
      SetKeepsMessages(db, PartnerAnswer(db, partner, c).db, c, k, row);
    }
    var next := PartnerFollowup(db, partner, fan, blocked).db;
    if !blocked && FindConversation(db.conversations, fan, partner).Some? {
      var d := FindConversation(db.conversations, fan, partner).value;
      var ws := db.conversations[d].windows;
      assert ConversationOk(db.conversations[d]);
      match NewestOpen(ws) {
        case Some(k) =>
          var row := ws[k].(messages := ws[k].messages + [FromPartner]);
          SpokenRowOk(ws[k], k, row);
          SetKeepsMessages(db, next, d, k, row);
        case None =>
          FirstWindows(db, 0, |ws|);
          AddKeepsMessages(db, next, d, FreeWindow(FromPartner));
      }
    }
  }

  lemma AnsweredHasSettleAt(w: Window, place: nat)
    requires WindowRuleOk(w, place) && w.status == Answered
    ensures w.settleAt.Some?
  {
  }

  lemma ExpireKeepsMessages(db: Db, c: nat, w: nat)
    requires MessagesOk(db)
    ensures MessagesOk(ExpireWindow(db, c, w).db)
  {
    hide Post;
    if ExpireWindow(db, c, w).reply == Done {
      assert ConversationOk(db.conversations[c]);
      var row := WindowAt(db, c, w).(status := WindowExpired);
      SetKeepsMessages(db, ExpireWindow(db, c, w).db, c, w, row);
    }
  }

  lemma SettleKeepsConversations(db: Db, c: nat, w: nat)
    ensures SettleQuestion(db, c, w).db.conversations == db.conversations
  {
    hide Post, OpenReportOn, Earned;
  }

  lemma OthersKeepConversations(db: Db, a: Action)
    requires !a.OnMessage?
    ensures Step(db, a).db.conversations == db.conversations
  {
    hide StepBooking, StepCall, StepShoutout, StepMoney, StepWorld;
    match a {
      case OnBooking(x) => BookingFrame(db, x);
      case OnCall(x) => CallFrame(db, x);
      case OnShoutout(x) => ShoutoutFrame(db, x);
      case OnMoney(x) => MoneyFrame(db, x);
      case OnWorld(x) => WorldFrame(db, x);
    }
  }

  lemma StepKeepsMessages(db: Db, a: Action)
    requires MessagesOk(db)
    ensures MessagesOk(Step(db, a).db)
  {
    hide ConversationOk, StepBooking, StepCall, StepShoutout, StepMoney, StepWorld,
         AskQuestion, PartnerAnswer, PartnerFollowup, ExpireWindow, SettleQuestion;
    match a {
      case OnMessage(x) =>
        match x {
          case DoAsk(f, p, blocked, price) => AskKeepsMessages(db, f, p, blocked, price);
          case DoAnswer(p, c) => PartnerKeepsMessages(db, p, c, 0, true);
          case DoFollowup(p, f, blocked) => PartnerKeepsMessages(db, p, 0, f, blocked);
          case DoExpireWindow(c, w) => ExpireKeepsMessages(db, c, w);
          case DoSettleWindow(c, w) => SettleKeepsConversations(db, c, w);
        }
      case _ => OthersKeepConversations(db, a);
    }
  }
}
