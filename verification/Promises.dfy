/** What each transaction promises its caller, said without reference to how it is
    computed: what has changed, by how much, and that nothing else has.
 */
module Promises {
  import opened Schema
  import opened Ledger
  import opened Tables
  import opened Bookings
  import opened Calls
  import opened Messages
  import opened Shoutouts
  import opened Payouts
  import opened CallRules
  import ShoutoutMoney

  // ── Only one row, and no money ───────────────────────────────────────────

  predicate OnlyBooking(was: Db, now: Db, i: nat) {
    && i < |was.bookings| == |now.bookings|
    && now == was.(bookings := was.bookings[i := now.bookings[i]])
    && now.bookings[i] == was.bookings[i].(status := now.bookings[i].status, fanReady := now.bookings[i].fanReady,
                                           calls := now.bookings[i].calls)
  }

  /** Of the booking's attempts at most attempt `k` changed. */
  predicate OnlyAttempt(was: Db, now: Db, i: nat, k: nat) {
    && OnlyBooking(was, now, i)
    && k < |was.bookings[i].calls| == |now.bookings[i].calls|
    && forall j :: 0 <= j < |was.bookings[i].calls| && j != k ==> now.bookings[i].calls[j] == was.bookings[i].calls[j]
  }

  predicate OnlyConversation(was: Db, now: Db, c: nat) {
    && c < |was.conversations| == |now.conversations|
    && now == was.(conversations := was.conversations[c := now.conversations[c]])
    && now.conversations[c] == was.conversations[c].(windows := now.conversations[c].windows)
  }

  predicate OnlyShoutout(was: Db, now: Db, s: nat) {
    && s < |was.shoutouts| == |now.shoutouts|
    && now == was.(shoutouts := was.shoutouts[s := now.shoutouts[s]], reports := now.reports)
    && now.shoutouts[s].fan == was.shoutouts[s].fan && now.shoutouts[s].partner == was.shoutouts[s].partner
    && now.shoutouts[s].price == was.shoutouts[s].price
    && Fees(now.shoutouts[s].corrections) == Fees(was.shoutouts[s].corrections)
  }

  // ── Availability ─────────────────────────────────────────────────────────

  /** A day's limit is between nothing and ten hours; nothing closes the day. Minutes
      already booked stay booked, and no other day changes. */
  predicate Offers(was: Db, now: Db, reply: Reply, partner: nat, date: int, minutes: int) {
    var s := Slot(partner, date);
    && (reply == Done <==> 0 <= minutes <= 600)
    && (minutes < 0 ==> reply == Refused(InvalidMinutes)) && (minutes > 600 ==> reply == Refused(MinutesExceedCap))
    && (reply != Done ==> now == was)
    && (reply == Done ==>
          && now == was.(slots := now.slots) && now.slots.Keys == was.slots.Keys + {s}
          && (forall t :: t in was.slots && t != s ==> now.slots[t] == was.slots[t])
          && (now.slots[s].available <==> minutes > 0) && now.slots[s].threshold == minutes
          && now.slots[s].booked == if s in was.slots then was.slots[s].booked else 0)
  }

  lemma AvailabilityOffers(db: Db, partner: nat, date: int, minutes: int)
    ensures Offers(db, SetAvailability(db, partner, date, minutes).db, SetAvailability(db, partner, date, minutes).reply,
                   partner, date, minutes)
  {
  }

  // ── Calls ────────────────────────────────────────────────────────────────

  /** A ring is placed exactly on a BOOKED booking with no ring of the last minute; the
      earlier attempts stay as they are. */
  predicate Rings(was: Db, now: Db, reply: Reply, i: nat) {
    var free := i < |was.bookings| && was.bookings[i].status == Booked
                && forall k :: 0 <= k < |was.bookings[i].calls| && was.bookings[i].calls[k].status == PartnerInitiated ==>
                     was.bookings[i].calls[k].initiatedAt + 60 <= was.now;
    && (reply == Done <==> free)
    && (reply != Done ==> now == was)
    && (reply == Done ==>
          && OnlyBooking(was, now, i)
          && now.bookings[i].status == Booked && now.bookings[i].fanReady == was.bookings[i].fanReady
          && var before, after := was.bookings[i].calls, now.bookings[i].calls;
             && |after| == |before| + 1 && before <= after
             && var ring := after[|before|];
                && ring.status == PartnerInitiated && ring.initiatedAt == was.now
                && ring.startedAt.None? && ring.deadline.None? && ring.endedAt.None?
                && ring.fanBeat.None? && ring.partnerBeat.None? && ring.mediaConfirmed.None?)
  }

  lemma InitiateRings(db: Db, i: nat)
    ensures Rings(db, InitiateCall(db, i).db, InitiateCall(db, i).reply, i)
  {
    if i < |db.bookings| {
      var calls := db.bookings[i].calls;
      assert RecentRing(calls, db.now) <==>
        exists k :: 0 <= k < |calls| && calls[k].status == PartnerInitiated && calls[k].initiatedAt > db.now - 60;
    }
  }

  /** The fan of a BOOKED booking is marked ready, and nothing else. */
  predicate Readies(was: Db, now: Db, reply: Reply, i: nat) {
    && (reply == Done <==> i < |was.bookings| && was.bookings[i].status == Booked)
    && (reply != Done ==> now == was)
    && (reply == Done ==>
          OnlyBooking(was, now, i) && now.bookings[i] == was.bookings[i].(fanReady := true))
  }

  lemma SignalReadies(db: Db, i: nat)
    ensures Readies(db, SignalReady(db, i).db, SignalReady(db, i).reply, i)
  {
  }

  /** The newest active attempt is live afterwards and no other attempt changed; if it
      was live before, nothing did. */
  predicate GoesLive(was: Db, now: Db, reply: Reply, i: nat) {
    && (reply != Done ==> now == was
                          && (i < |was.bookings| ==> forall k :: 0 <= k < |was.bookings[i].calls| ==>
                                !IsActive(was.bookings[i].calls[k].status)))
    && (reply == Done ==> i < |was.bookings| && exists k :: 0 <= k < |was.bookings[i].calls| && LiveNow(was, now, i, k))
  }

  predicate LiveNow(was: Db, now: Db, i: nat, k: nat)
    requires i < |was.bookings| && k < |was.bookings[i].calls|
  {
    && OnlyAttempt(was, now, i, k) && now.bookings[i].calls[k].status == InProgress
    && now.bookings[i].status == was.bookings[i].status && now.bookings[i].fanReady == was.bookings[i].fanReady
    && (forall j :: k < j < |was.bookings[i].calls| ==> !IsActive(was.bookings[i].calls[j].status))
    && (was.bookings[i].calls[k].status == InProgress ==> now == was)
    && (was.bookings[i].calls[k].status == PartnerInitiated ==>
          var x, y := was.bookings[i].calls[k], now.bookings[i].calls[k];
          && y.startedAt == Some(was.now) && y.fanBeat == Some(was.now) && y.deadline.Some? && y.deadline.value >= was.now
          && y.initiatedAt == x.initiatedAt && y.endedAt == x.endedAt && y.partnerBeat == x.partnerBeat
          && y.mediaConfirmed == x.mediaConfirmed)
  }

  lemma JoinGoesLive(db: Db, i: nat)
    ensures GoesLive(db, JoinCall(db, i).db, JoinCall(db, i).reply, i)
  {
    hide ConsumedSeconds;
    if i < |db.bookings| {
      var now := JoinCall(db, i).db;
      match LatestActive(db.bookings[i].calls) {
        case None =>
        case Some(k) => assert LiveNow(db, now, i, k);
      }
    }
  }

  /** A heartbeat is taken on every attempt there is and never touches its status, start,
      end or deadline. Only the fan reports on the creator: seen once is seen for good,
      not seen counts only if never seen before, and no report leaves what is known. */
  predicate Beats(was: Db, now: Db, reply: Reply, i: nat, k: nat, byFan: bool, peerSeen: Option<bool>) {
    && (reply == Done <==> i < |was.bookings| && k < |was.bookings[i].calls|)
    && (reply != Done ==> now == was)
    && (reply == Done ==>
          && OnlyAttempt(was, now, i, k)
          && now.bookings[i].status == was.bookings[i].status && now.bookings[i].fanReady == was.bookings[i].fanReady
          && var x, y := was.bookings[i].calls[k], now.bookings[i].calls[k];
             && y.status == x.status && y.startedAt == x.startedAt && y.endedAt == x.endedAt
             && y.deadline == x.deadline && y.initiatedAt == x.initiatedAt
             && (byFan && peerSeen == Some(true) ==> y.mediaConfirmed == Some(true))
             && (byFan && peerSeen == Some(false) ==>
                   y.mediaConfirmed == if x.mediaConfirmed == Some(true) then Some(true) else Some(false))
             && (byFan && peerSeen.None? ==> y.mediaConfirmed == x.mediaConfirmed)
             && (if byFan then y.fanBeat == Some(was.now) && y.partnerBeat == x.partnerBeat
                 else y.partnerBeat == Some(was.now) && y.fanBeat == x.fanBeat && y.mediaConfirmed == x.mediaConfirmed))
  }

  lemma HeartbeatBeats(db: Db, i: nat, k: nat, byFan: bool, seen: Option<bool>)
    ensures Beats(db, Heartbeat(db, i, k, byFan, seen).db, Heartbeat(db, i, k, byFan, seen).reply, i, k, byFan, seen)
  {
  }

  /** A live attempt ends. It completes exactly when its time is up or the sweep says
      so, unless the creator was never seen; then it counts for nothing. The booking
      completes exactly with the attempt, and only if it was BOOKED. */
  predicate EndsLive(was: Db, now: Db, reply: Reply, i: nat, k: nat, auto: bool) {
    && (reply == Done <==> i < |was.bookings| && k < |was.bookings[i].calls| && was.bookings[i].calls[k].status == InProgress)
    && (reply != Done ==> now == was)
    && (reply == Done ==>
          && OnlyAttempt(was, now, i, k)
          && var b, c := was.bookings[i], now.bookings[i];
             var x, y := b.calls[k], c.calls[k];
             && y == x.(status := y.status, endedAt := y.endedAt) && y.status in {CallCompleted, DroppedTechnical}
             && (x.mediaConfirmed != Some(false) ==> y.endedAt == Some(was.now))
             && (y.status == CallCompleted ==> c.fanReady == b.fanReady)
             && (y.status == CallCompleted <==>
                   x.mediaConfirmed != Some(false) && (auto || (x.deadline.Some? && was.now + 5 >= x.deadline.value)))
             && (x.mediaConfirmed == Some(false) ==> CallSeconds(y) == 0)
             && (b.status == Booked ==> (c.status == Completed <==> y.status == CallCompleted))
             && (b.status != Booked || y.status != CallCompleted ==> c.status == b.status)
             && (y.status != CallCompleted ==> !c.fanReady))
  }

  lemma CompleteEndsLive(db: Db, i: nat, k: nat, auto: bool)
    ensures EndsLive(db, CompleteCall(db, i, k, auto).db, CompleteCall(db, i, k, auto).reply, i, k, auto)
  {
  }

  /** An active attempt ends as asked, but a live one can only be dropped. The booking
      itself is left alone, and the fan has to signal ready again. */
  predicate Misses(was: Db, now: Db, reply: Reply, i: nat, k: nat, status: CallStatus) {
    && (reply == Done <==>
          && i < |was.bookings| && k < |was.bookings[i].calls|
          && (|| (was.bookings[i].calls[k].status == PartnerInitiated && status in {MissedNoJoin, MissedDeclined, DroppedTechnical})
              || (was.bookings[i].calls[k].status == InProgress && status == DroppedTechnical)))
    && (reply != Done ==> now == was)
    && (reply == Done ==>
          && OnlyAttempt(was, now, i, k) && now.bookings[i].status == was.bookings[i].status && !now.bookings[i].fanReady
          && var x, y := was.bookings[i].calls[k], now.bookings[i].calls[k];
             y == x.(status := status, endedAt := Some(was.now)))
  }

  lemma MarkMissedMisses(db: Db, i: nat, k: nat, status: CallStatus)
    ensures Misses(db, MarkMissed(db, i, k, status).db, MarkMissed(db, i, k, status).reply, i, k, status)
  {
  }

  /** Exactly the rings older than a minute that nobody joined are marked missed, and
      exactly their fans have to signal ready again. */
  predicate SweepsOut(was: Db, now: Db) {
    && now == was.(bookings := now.bookings) && |now.bookings| == |was.bookings|
    && forall i :: 0 <= i < |was.bookings| ==>
         var b, c := was.bookings[i], now.bookings[i];
         && c == b.(calls := c.calls, fanReady := c.fanReady) && |c.calls| == |b.calls|
         && (c.fanReady <==> b.fanReady && forall k :: 0 <= k < |b.calls| ==> !Unanswered(b.calls[k], was.now))
         && (forall k :: 0 <= k < |b.calls| ==>
               if Unanswered(b.calls[k], was.now)
               then c.calls[k].status == MissedNoJoin && c.calls[k].endedAt == Some(was.now)
                    && c.calls[k] == b.calls[k].(status := MissedNoJoin, endedAt := c.calls[k].endedAt)
               else c.calls[k] == b.calls[k])
  }

  predicate Unanswered(c: Call, now: int) {
    c.status == PartnerInitiated && c.startedAt.None? && now - c.initiatedAt > 60
  }

  lemma SweepRingsSweepsOut(db: Db)
    ensures SweepsOut(db, SweepRings(db).db) && SweepRings(db).reply == Done
  {
    forall i | 0 <= i < |db.bookings|
      ensures AnyRangOut(db.bookings[i].calls, db.now) <==>
                exists k :: 0 <= k < |db.bookings[i].calls| && Unanswered(db.bookings[i].calls[k], db.now)
    {
      var calls := db.bookings[i].calls;
      assert forall k :: 0 <= k < |calls| ==> (RangOut(calls[k], db.now) <==> Unanswered(calls[k], db.now));
    }
  }

  /** Only a booking still BOOKED, or expired as a no-show or for a technical reason, is
      recovered: it is marked technically expired and its newest active attempt dropped. */
  predicate Recovers(was: Db, now: Db, reply: Reply, i: nat) {
    && (reply == Done <==> i < |was.bookings| && was.bookings[i].status in {Booked, ExpiredTechnical, ExpiredPartnerNoShow})
    && (reply != Done ==> now == was)
    && (reply == Done ==>
          && OnlyBooking(was, now, i) && now.bookings[i].status == ExpiredTechnical
          && |now.bookings[i].calls| == |was.bookings[i].calls|
          && forall k :: 0 <= k < |was.bookings[i].calls| ==>
               var x, y := was.bookings[i].calls[k], now.bookings[i].calls[k];
               if IsActive(x.status) && (forall j :: k < j < |was.bookings[i].calls| ==> !IsActive(was.bookings[i].calls[j].status))
               then y == x.(status := DroppedTechnical, endedAt := Some(was.now)) && !now.bookings[i].fanReady
               else y == x)
  }

  lemma RecoverRecovers(db: Db, i: nat)
    ensures Recovers(db, AdminRecoverCall(db, i).db, AdminRecoverCall(db, i).reply, i)
  {
  }

  // ── Questions ────────────────────────────────────────────────────────────

  /** The partner's message goes to the newest window not expired, if the conversation is
      the partner's own and has one. Only an OPEN window changes its status, to ANSWERED,
      and gets its settlement time. */
  predicate Answers(was: Db, now: Db, reply: Reply, partner: nat, c: nat) {
    && (reply == Done <==>
          && c < |was.conversations| && was.conversations[c].partner == partner
          && exists k :: 0 <= k < |was.conversations[c].windows| && was.conversations[c].windows[k].status != WindowExpired)
    && (reply != Done ==> now == was)
    && (reply == Done ==>
          && OnlyConversation(was, now, c)
          && var xs, ys := was.conversations[c].windows, now.conversations[c].windows;
             && |ys| == |xs|
             && exists k :: 0 <= k < |xs|
                  && (forall j :: 0 <= j < |xs| && j != k ==> ys[j] == xs[j])
                  && (forall j :: k < j < |xs| ==> xs[j].status == WindowExpired)
                  && ys[k].messages == xs[k].messages + [FromPartner] && xs[k].status != WindowExpired && ys[k].status == Answered
                  && ys[k] == xs[k].(status := Answered, settleAt := ys[k].settleAt, messages := ys[k].messages)
                  && (xs[k].status == Answered ==> ys[k].settleAt == xs[k].settleAt)
                  && (xs[k].status == Open ==> ys[k].settleAt == Some(was.now + was.settings.settlementWindow)))
  }

  lemma PartnerAnswerAnswers(db: Db, partner: nat, c: nat)
    ensures Answers(db, PartnerAnswer(db, partner, c).db, PartnerAnswer(db, partner, c).reply, partner, c)
  {
    if PartnerAnswer(db, partner, c).reply == Done {
      var xs, ys := db.conversations[c].windows, PartnerAnswer(db, partner, c).db.conversations[c].windows;
      var k := NewestReplyable(xs).value;
      assert xs[k].status == Answered || xs[k].status == Open;
      assert ys[k].messages == xs[k].messages + [FromPartner];
    }
  }

  /** A follow-up is free and changes no window's status, price or clock: it is one more
      message in the OPEN window, or a free window of its own when none is OPEN. */
  predicate FollowsUp(was: Db, now: Db, reply: Reply, partner: nat, fan: nat, blocked: bool) {
    && (reply == Done <==> !blocked && exists c :: 0 <= c < |was.conversations| && Between(was.conversations[c], partner, fan))
    && (reply != Done ==> now == was)
    && (reply == Done ==>
          exists c :: 0 <= c < |was.conversations| && Between(was.conversations[c], partner, fan) && OneMoreFreeMessage(was, now, c))
  }

  predicate Between(c: Conversation, partner: nat, fan: nat) { c.partner == partner && c.fan == fan }

  predicate OneMoreFreeMessage(was: Db, now: Db, c: nat) {
    && OnlyConversation(was, now, c)
    && var xs, ys := was.conversations[c].windows, now.conversations[c].windows;
       && |xs| <= |ys| <= |xs| + 1
       && (forall j :: 0 <= j < |xs| ==>
             && ys[j] == xs[j].(messages := ys[j].messages)
             && (ys[j].messages == xs[j].messages
                 || (xs[j].status == Open && |ys| == |xs| && ys[j].messages == xs[j].messages + [FromPartner])))
       && (|ys| == |xs| ==> ys != xs)
       && (|ys| > |xs| ==>
             && (forall j :: 0 <= j < |xs| ==> xs[j].status != Open && ys[j] == xs[j])
             && ys[|xs|].kind == Free && ys[|xs|].charge == 0 && ys[|xs|].messages == [FromPartner]
             && ys[|xs|].status == Open && ys[|xs|].cap == 5
             && ys[|xs|].responseDeadline.None? && ys[|xs|].settleAt.None?)
  }

  lemma FollowupFollowsUp(db: Db, partner: nat, fan: nat, blocked: bool)
    ensures var out := PartnerFollowup(db, partner, fan, blocked); FollowsUp(db, out.db, out.reply, partner, fan, blocked)
  {
    var now := PartnerFollowup(db, partner, fan, blocked).db;
    if PartnerFollowup(db, partner, fan, blocked).reply == Done {
      var c := FindConversation(db.conversations, fan, partner).value;
      var xs, ys := db.conversations[c].windows, now.conversations[c].windows;
      if NewestOpen(xs).Some? {
        var k := NewestOpen(xs).value;
        assert |ys[k].messages| == |xs[k].messages| + 1;
      }
      assert OneMoreFreeMessage(db, now, c);
      assert Between(db.conversations[c], partner, fan);
    }
  }

  // ── Shout-outs ───────────────────────────────────────────────────────────

  /** A delivery is never confirmed yet, leaves no round open, gives the fan the whole
      review time and moves no money. */
  predicate Delivers(was: Db, now: Db, reply: Reply, s: nat, link: string) {
    && (reply == Done <==>
          s < |was.shoutouts| && was.shoutouts[s].status == AwaitingVideo && exists i :: 0 <= i < |link| && link[i] != ' ')
    && (reply != Done ==> now == was)
    && (reply == Done ==>
          && OnlyShoutout(was, now, s) && now.reports == was.reports
          && var x, y := was.shoutouts[s], now.shoutouts[s];
             && x.status == AwaitingVideo && y.status == Delivered && y.confirmed.None?
             && |y.corrections| == |x.corrections|
             && (forall k :: 0 <= k < |y.corrections| ==> y.corrections[k] == x.corrections[k].(resubmitted := true))
             && y.freeUsed == x.freeUsed && y.disputed == x.disputed
             && y.reviewDeadline == Some(was.now + was.settings.reviewWindow)
             && y.settleAt == was.now + was.settings.settlementWindow)
  }

  lemma UploadDelivers(db: Db, s: nat, link: string)
    ensures Delivers(db, UploadShoutout(db, s, link).db, UploadShoutout(db, s, link).reply, s, link)
  {
    if s < |db.shoutouts| { ShoutoutMoney.FeesClosed(db.shoutouts[s].corrections); }
  }

  /** A delivery not confirmed before is confirmed now, and due at once. */
  predicate Confirms(was: Db, now: Db, reply: Reply, s: nat, who: Confirmer) {
    && (reply != Done ==> now == was)
    && (reply == Done ==>
          && OnlyShoutout(was, now, s) && now.reports == was.reports
          && was.shoutouts[s].status == Delivered && was.shoutouts[s].confirmed.None?
          && now.shoutouts[s] == was.shoutouts[s].(confirmed := Some(who), settleAt := was.now))
  }

  lemma ConfirmationsConfirm(db: Db, fan: nat, s: nat)
    ensures Confirms(db, ConfirmShoutout(db, fan, s).db, ConfirmShoutout(db, fan, s).reply, s, ByFan)
    ensures ConfirmShoutout(db, fan, s).reply == Done <==>
              s < |db.shoutouts| && fan == db.shoutouts[s].fan && db.shoutouts[s].status == Delivered && db.shoutouts[s].confirmed.None?
    ensures Confirms(db, AutoConfirmShoutout(db, s).db, AutoConfirmShoutout(db, s).reply, s, ByTimer)
    ensures AutoConfirmShoutout(db, s).reply == Done <==> DueForAutoConfirm(db, s)
  {
  }

  /** A dispute stops the delivery from being confirmed, by anyone or the timer, and
      leaves an open report. */
  predicate Disputes(was: Db, now: Db, reply: Reply, s: nat) {
    && (reply == Done <==>
          s < |was.shoutouts| && was.shoutouts[s].status == Delivered && was.shoutouts[s].confirmed.None?)
    && (reply != Done ==> now == was)
    && (reply == Done ==>
          && OnlyShoutout(was, now, s)
          && now.shoutouts[s] == was.shoutouts[s].(status := IssueReported, disputed := true)
          && |now.reports| == |was.reports| + 1 && was.reports <= now.reports && OpenReportOn(now.reports, ShoutoutTarget(s))
          && !ConfirmShoutout(now, was.shoutouts[s].fan, s).reply.Done? && !AutoConfirmShoutout(now, s).reply.Done?)
  }

  lemma ReportDisputes(db: Db, s: nat)
    ensures Disputes(db, ReportShoutout(db, s).db, ReportShoutout(db, s).reply, s)
  {
    var now := ReportShoutout(db, s).db;
    if ReportShoutout(db, s).reply == Done {
      assert now.reports[|db.reports|] == Report(ShoutoutTarget(s), true);
    }
  }

  /** Reports on anything else stay as they are. */
  predicate OtherReportsStay(was: Db, now: Db, s: nat) {
    && |now.reports| == |was.reports|
    && forall i :: 0 <= i < |was.reports| ==>
         now.reports[i] == was.reports[i] || (was.reports[i].target == ShoutoutTarget(s) && now.reports[i] == was.reports[i].(open := false))
  }

  lemma ClosedReports(reports: seq<Report>, target: Target)
    ensures !OpenReportOn(CloseReports(reports, target), target)
    ensures |CloseReports(reports, target)| == |reports|
    ensures forall t :: t != target ==> (OpenReportOn(CloseReports(reports, target), t) <==> OpenReportOn(reports, t))
  {
    var closed := CloseReports(reports, target);
    forall t | t != target ensures OpenReportOn(closed, t) <==> OpenReportOn(reports, t) {
      if i :| 0 <= i < |reports| && reports[i].open && reports[i].target == t { assert closed[i] == reports[i]; }
      if i :| 0 <= i < |closed| && closed[i].open && closed[i].target == t { assert closed[i] == reports[i]; }
    }
  }

  /** The admin decides on an unconfirmed delivery: confirmed with no report left open,
      or back to the partner without using up the fan's free round. No money moves. */
  predicate Decides(was: Db, now: Db, reply: Reply, s: nat, approve: bool) {
    && (reply == Done <==>
          s < |was.shoutouts| && was.shoutouts[s].status in {Delivered, IssueReported} && was.shoutouts[s].confirmed.None?)
    && (reply != Done ==> now == was)
    && (reply == Done ==>
          && OnlyShoutout(was, now, s) && OtherReportsStay(was, now, s)
          && var x, y := was.shoutouts[s], now.shoutouts[s];
             && y == x.(status := y.status, confirmed := y.confirmed)
             && (approve ==> y.status == Delivered && y.confirmed == Some(ByAdmin)
                             && !OpenReportOn(now.reports, ShoutoutTarget(s)))
             && (!approve ==> y.status == AwaitingVideo && y.confirmed.None? && now.reports == was.reports))
  }

  lemma AdminDeliverDecides(db: Db, s: nat, approve: bool)
    ensures Decides(db, AdminDeliver(db, s, approve).db, AdminDeliver(db, s, approve).reply, s, approve)
  {
    ClosedReports(db.reports, ShoutoutTarget(s));
  }

  /** A dispute is settled: no report on it stays open, rework and dismissal move no
      money, dismissal gives a new review time, and refund ends the shout-out. */
  predicate Settles(was: Db, now: Db, reply: Reply, s: nat, verdict: Verdict) {
    && (reply == Done ==> s < |was.shoutouts| && was.shoutouts[s].status == IssueReported)
    && (verdict != RefundFan && s < |was.shoutouts| && was.shoutouts[s].status == IssueReported ==> reply == Done)
    && (reply != Done ==> now == was)
    && (reply == Done ==>
          && s < |was.shoutouts| == |now.shoutouts| && OtherReportsStay(was, now, s)
          && !OpenReportOn(now.reports, ShoutoutTarget(s))
          && (verdict != RefundFan ==> OnlyShoutout(was, now, s))
          && var x, y := was.shoutouts[s], now.shoutouts[s];
             match verdict
             case RefundFan => y == x.(status := RefundedByAdmin)
             case Rework => y == x.(status := AwaitingVideo)
             case Dismiss =>
               && y == x.(status := Delivered, reviewDeadline := y.reviewDeadline, settleAt := y.settleAt)
               && y.reviewDeadline == Some(was.now + was.settings.reviewWindow)
               && y.settleAt == was.now + was.settings.settlementWindow)
  }

  lemma ResolveSettles(db: Db, s: nat, verdict: Verdict)
    ensures Settles(db, ResolveDispute(db, s, verdict).db, ResolveDispute(db, s, verdict).reply, s, verdict)
  {
    hide Post, Earned, Fees;
    ClosedReports(db.reports, ShoutoutTarget(s));
  }
}
