/** The call machine: how one attempt may move, what every booking's attempts
    satisfy, and why a booking can only be paid for a call or by an admin.
 */
module CallRules {
  import opened Schema
  import opened Ledger
  import opened Tables
  import opened Bookings
  import opened Calls
  import opened Platform

  // ── How an attempt moves ─────────────────────────────────────────────────

  /** Heartbeats: presence once seen stays seen. */
  predicate OnlyBeats(x: Call, y: Call) {
    && y == x.(fanBeat := y.fanBeat, partnerBeat := y.partnerBeat, mediaConfirmed := y.mediaConfirmed)
    && (x.mediaConfirmed == Some(true) ==> y.mediaConfirmed == Some(true))
  }

  /** The booked seconds that other attempts have not delivered yet. */
  function TimeLeft(b: Booking, k: nat): int {
    Max(0, b.minutes * 60 - ConsumedSeconds(b.calls, k))
  }

  /** Joining grants exactly the time left. */
  predicate Joins(x: Call, y: Call, now: int, left: int) {
    && x.status == PartnerInitiated
    && y == x.(status := InProgress, startedAt := Some(now), deadline := Some(now + left), fanBeat := Some(now))
  }

  predicate Ends(x: Call, y: Call, now: int) {
    && IsActive(x.status) && IsTerminal(y.status)
    && (y.endedAt == Some(now) || (x.startedAt.Some? && y.endedAt == x.startedAt))
    && y == x.(status := y.status, endedAt := y.endedAt)
    && (y.status == CallCompleted ==> x.status == InProgress)
    && (y.status in {MissedNoJoin, MissedDeclined} ==> x.status == PartnerInitiated)
  }

  predicate Moves(x: Call, y: Call, now: int, left: int) {
    OnlyBeats(x, y) || Joins(x, y, now, left) || Ends(x, y, now)
  }

  /** What one call step does to a booking row. */
  ghost predicate RowMoves(b: Booking, c: Booking, now: int) {
    && c == b.(status := c.status, fanReady := c.fanReady, calls := c.calls)
    && |b.calls| <= |c.calls| <= |b.calls| + 1
    && (forall k :: 0 <= k < |b.calls| ==> Moves(b.calls[k], c.calls[k], now, TimeLeft(b, k)))
    && (|c.calls| > |b.calls| ==>
          && b.status == Booked && !RecentRing(b.calls, now)
          && c.calls[|b.calls|] == Call(PartnerInitiated, now, None, None, None, None, None, None))
    && c.status == (if b.status == Booked && Finishes(b, c) then Completed else b.status)
  }

  /** Some attempt has just completed. */
  ghost predicate Finishes(b: Booking, c: Booking)
    requires |b.calls| <= |c.calls|
  {
    exists k :: 0 <= k < |b.calls| && c.calls[k].status == CallCompleted && b.calls[k].status != CallCompleted
  }

  lemma {:induction false} ConsumedIsNonnegative(calls: seq<Call>, skip: nat)
    ensures ConsumedSeconds(calls, skip) >= 0
  {
    if |calls| > 0 { ConsumedIsNonnegative(calls[..|calls| - 1], skip); }
  }

  lemma WritingMoves(b: Booking, k: nat, c: Call, now: int)
    requires k < |b.calls| && b.minutes > 0 && Moves(b.calls[k], c, now, TimeLeft(b, k))
    ensures RowMoves(b, WithCall(b, k, c), now)
  {
    var next := WithCall(b, k, c);
    forall j | 0 <= j < |b.calls| ensures Moves(b.calls[j], next.calls[j], now, TimeLeft(b, j)) {
      assert j != k ==> OnlyBeats(b.calls[j], next.calls[j]);
    }
    assert next.calls[k] == c;
  }

  lemma NothingMoves(b: Booking, c: Booking, now: int)
    requires b.minutes > 0 && c == b.(fanReady := c.fanReady)
    ensures RowMoves(b, c, now)
  {
    forall j | 0 <= j < |b.calls| ensures Moves(b.calls[j], c.calls[j], now, TimeLeft(b, j)) {
      assert OnlyBeats(b.calls[j], c.calls[j]);
    }
  }

  lemma JoinMoves(db: Db, id: nat)
    requires id < |db.bookings| && db.bookings[id].minutes > 0
    ensures RowMoves(db.bookings[id], JoinCall(db, id).db.bookings[id], db.now)
  {
    hide RowMoves;
    var b := db.bookings[id];
    NothingMoves(b, b, db.now);
    match LatestActive(b.calls) {
      case None =>
      case Some(k) =>
        if b.calls[k].status == PartnerInitiated {
          var c := JoinedCall(b, k, db.now);
          WritingMoves(b, k, c, db.now);
        }
    }
  }

  function JoinedCall(b: Booking, k: nat, now: int): Call
    requires k < |b.calls|
  {
    b.calls[k].(status := InProgress, startedAt := Some(now), fanBeat := Some(now),
                deadline := Some(now + TimeLeft(b, k)))
  }

  lemma EndingMoves(db: Db, id: nat, k: nat, auto: bool, status: CallStatus)
    requires id < |db.bookings| && db.bookings[id].minutes > 0 && k < |db.bookings[id].calls|
    requires forall k :: 0 <= k < |db.bookings[id].calls| && db.bookings[id].calls[k].status == InProgress ==>
               db.bookings[id].calls[k].startedAt.Some?
    ensures RowMoves(db.bookings[id], CompleteCall(db, id, k, auto).db.bookings[id], db.now)
    ensures RowMoves(db.bookings[id], MarkMissed(db, id, k, status).db.bookings[id], db.now)
  {
    hide RowMoves, WithCall;
    var b := db.bookings[id];
    NothingMoves(b, b, db.now);
    var x := b.calls[k];
    if x.status == InProgress {
      WritingMoves(b, k, x.(status := DroppedTechnical, endedAt := x.startedAt), db.now);
      WritingMoves(b, k, x.(status := CallCompleted, endedAt := Some(db.now)), db.now);
    }
    if IsActive(x.status) && status in {MissedNoJoin, MissedDeclined, DroppedTechnical}
       && (status == DroppedTechnical || x.status == PartnerInitiated) {
      WritingMoves(b, k, x.(status := status, endedAt := Some(db.now)), db.now);
    }
    if x.status == InProgress {
      WritingMoves(b, k, x.(status := DroppedTechnical, endedAt := Some(db.now)), db.now);
    }
  }

  lemma BeatMoves(db: Db, id: nat, k: nat, byFan: bool, seen: Option<bool>)
    requires id < |db.bookings| && db.bookings[id].minutes > 0 && k < |db.bookings[id].calls|
    ensures RowMoves(db.bookings[id], Heartbeat(db, id, k, byFan, seen).db.bookings[id], db.now)
  {
    hide RowMoves, WithCall;
    var b := db.bookings[id];
    var c := b.calls[k];
    var noted := if seen.None? then c.mediaConfirmed else Some((c.mediaConfirmed == Some(true)) || seen.value);
    WritingMoves(b, k, c.(partnerBeat := Some(db.now)), db.now);
    WritingMoves(b, k, c.(fanBeat := Some(db.now), mediaConfirmed := noted), db.now);
  }

  lemma RingMoves(db: Db, id: nat)
    requires id < |db.bookings| && db.bookings[id].minutes > 0
    ensures RowMoves(db.bookings[id], InitiateCall(db, id).db.bookings[id], db.now)
    ensures RowMoves(db.bookings[id], SignalReady(db, id).db.bookings[id], db.now)
  {
    var b := db.bookings[id];
    NothingMoves(b, b, db.now);
    NothingMoves(b, b.(fanReady := true), db.now);
    assert forall j :: 0 <= j < |b.calls| ==> OnlyBeats(b.calls[j], b.calls[j]);
  }

  lemma SweepMoves(b: Booking, now: int)
    requires b.minutes > 0
    ensures RowMoves(b, SweptBooking(b, now), now)
  {
    var c := SweptBooking(b, now);
    forall j | 0 <= j < |b.calls| ensures Moves(b.calls[j], c.calls[j], now, TimeLeft(b, j)) {
      if RangOut(b.calls[j], now) { assert Ends(b.calls[j], c.calls[j], now); }
      else { assert OnlyBeats(b.calls[j], c.calls[j]); }
    }
  }

  /** Every call step moves every booking row, and every attempt of it, lawfully. */
  lemma StepMovesRows(db: Db, a: CallAction)
    requires CallsOk(db)
    ensures |StepCall(db, a).db.bookings| == |db.bookings|
    ensures forall i :: 0 <= i < |db.bookings| ==> RowMoves(db.bookings[i], StepCall(db, a).db.bookings[i], db.now)
  {
    hide RowMoves, JoinCall, Heartbeat, CompleteCall, MarkMissed, InitiateCall, SignalReady, SweptBooking;
    CallTouchesOne(db, a);
    forall i | 0 <= i < |db.bookings|
      ensures RowMoves(db.bookings[i], StepCall(db, a).db.bookings[i], db.now)
    {
      var b := db.bookings[i];
      assert AttemptsOk(b, db.now);
      NothingMoves(b, b, db.now);
      match a {
        case DoReady(id) => if i == id { RingMoves(db, i); }
        case DoInitiate(id) => if i == id { RingMoves(db, i); }
        case DoJoin(id) => if i == id { JoinMoves(db, i); }
        case DoBeat(id, k, byFan, seen) => if i == id && k < |b.calls| { BeatMoves(db, i, k, byFan, seen); }
        case DoComplete(id, k, auto) => if i == id && k < |b.calls| { EndingMoves(db, i, k, auto, MissedNoJoin); }
        case DoMiss(id, k, s) => if i == id && k < |b.calls| { EndingMoves(db, i, k, false, s); }
        case DoSweepRings => SweepMoves(b, db.now);
      }
    }
  }

  /** A call step on booking `id` writes no other booking. */
  lemma CallTouchesOne(db: Db, a: CallAction)
    ensures |StepCall(db, a).db.bookings| == |db.bookings|
    ensures !a.DoSweepRings? ==> forall i :: 0 <= i < |db.bookings| && i != a.booking ==>
              StepCall(db, a).db.bookings[i] == db.bookings[i]
    ensures ((a.DoBeat? || a.DoComplete? || a.DoMiss?)
             && a.booking < |db.bookings| && a.call >= |db.bookings[a.booking].calls|)
            ==> StepCall(db, a).db == db
  {
    hide LatestActive, ConsumedSeconds, WithCall, RecentRing;
  }

  // ── What every booking's attempts satisfy ────────────────────────────────

  predicate CallOk(c: Call, now: int, booked: int) {
    && c.initiatedAt <= now
    && (c.startedAt.Some? <==> c.deadline.Some?)
    && (c.startedAt.Some? ==> c.startedAt.value <= now && c.startedAt.value <= c.deadline.value <= c.startedAt.value + booked)
    && (c.status == PartnerInitiated ==> c.startedAt.None?)
    && (c.status in {InProgress, CallCompleted} ==> c.startedAt.Some?)
    && (c.status in {MissedNoJoin, MissedDeclined} ==> c.startedAt.None?)
    && (c.endedAt.Some? <==> IsTerminal(c.status))
    && (c.endedAt.Some? && c.startedAt.Some? ==> c.startedAt.value <= c.endedAt.value)
    && (c.endedAt.Some? ==> c.endedAt.value <= now)
  }

  /** Two attempts still ringing were placed at least a minute apart. */
  predicate RingsApart(calls: seq<Call>) {
    forall i, j :: 0 <= i < j < |calls| && calls[i].status == PartnerInitiated && calls[j].status == PartnerInitiated ==>
      calls[i].initiatedAt + 60 <= calls[j].initiatedAt
  }

  /** What one attempt had delivered by a moment. */
  function Share(c: Call, until: int): int {
    if c.status in {CallCompleted, DroppedTechnical} && c.endedAt.Some? && c.endedAt.value <= until
    then Max(0, CallSeconds(c)) else 0
  }

  /** What the attempts other than `skip` had delivered by a moment. */
  function DeliveredBy(calls: seq<Call>, skip: nat, until: int): int {
    if |calls| == 0 then 0
    else
      var n := |calls| - 1;
      DeliveredBy(calls[..n], skip, until) + if n == skip then 0 else Share(calls[n], until)
  }

  /** The deadline is the start plus the booked time less what other attempts had
      delivered when it started. An attempt that ended in that very second may or may
      not have been counted; every other one is settled. */
  predicate DeadlineOk(b: Booking, k: nat)
    requires k < |b.calls|
  {
    var x := b.calls[k];
    x.startedAt.Some? && x.deadline.Some? ==>
      var s := x.startedAt.value;
      s + Max(0, b.minutes * 60 - DeliveredBy(b.calls, k, s)) <= x.deadline.value
        <= s + Max(0, b.minutes * 60 - DeliveredBy(b.calls, k, s - 1))
  }

  predicate AttemptsOk(b: Booking, now: int) {
    && b.minutes > 0
    && (forall k :: 0 <= k < |b.calls| ==> DeadlineOk(b, k))
    && (forall k :: 0 <= k < |b.calls| ==> CallOk(b.calls[k], now, b.minutes * 60))
    && RingsApart(b.calls)
    && (b.status == Booked ==> !AnyCall(b.calls, CallCompleted))
  }

  /** A completed call, a call of at least the booked length, or an admin. */
  predicate Deserved(db: Db, i: nat)
    requires i < |db.bookings|
  {
    var b := db.bookings[i];
    || AnyCall(b.calls, CallCompleted)
    || LongestCall(b.calls) >= b.minutes * 60
    || AuditResolvePartial(i) in db.audit
    || AuditExpireBooking(i, Completed) in db.audit
  }

  ghost predicate CallsOk(db: Db) {
    && (forall i :: 0 <= i < |db.bookings| ==> AttemptsOk(db.bookings[i], db.now))
    && (forall i :: 0 <= i < |db.bookings| && db.bookings[i].status == Completed ==> Deserved(db, i))
  }

  // ── Call steps keep it ───────────────────────────────────────────────────

  lemma MovedCallOk(x: Call, y: Call, now: int, left: int, booked: int)
    requires CallOk(x, now, booked) && Moves(x, y, now, left) && 0 <= left <= booked
    ensures CallOk(y, now, booked)
    ensures CallSeconds(x) <= CallSeconds(y)
    ensures x.status == CallCompleted ==> y.status == CallCompleted
    ensures forall until :: until <= now ==> 0 <= Share(x, until) <= Share(y, until)
    ensures forall until :: until < now ==> Share(x, until) == Share(y, until)
  {
  }

  lemma {:induction false} DeliveredGrows(xs: seq<Call>, ys: seq<Call>, skip: nat, until: int)
    requires |xs| <= |ys| && forall n :: 0 <= n < |xs| ==> Share(xs[n], until) <= Share(ys[n], until)
    requires forall n :: |xs| <= n < |ys| ==> Share(ys[n], until) >= 0
    ensures DeliveredBy(xs, skip, until) <= DeliveredBy(ys, skip, until)
    decreases |ys|
  {
    if |xs| == |ys| {
      if |xs| > 0 { DeliveredGrows(xs[..|xs| - 1], ys[..|ys| - 1], skip, until); }
    } else {
      DeliveredGrows(xs, ys[..|ys| - 1], skip, until);
    }
  }

  lemma {:induction false} DeliveredSame(xs: seq<Call>, ys: seq<Call>, skip: nat, until: int)
    requires |xs| <= |ys| && forall n :: 0 <= n < |xs| ==> Share(xs[n], until) == Share(ys[n], until)
    requires forall n :: |xs| <= n < |ys| ==> Share(ys[n], until) == 0
    ensures DeliveredBy(xs, skip, until) == DeliveredBy(ys, skip, until)
    decreases |ys|
  {
    if |xs| == |ys| {
      if |xs| > 0 { DeliveredSame(xs[..|xs| - 1], ys[..|ys| - 1], skip, until); }
    } else {
      DeliveredSame(xs, ys[..|ys| - 1], skip, until);
    }
  }

  /** What has been delivered so far is what was delivered by now. */
  lemma {:induction false} DeliveredByNow(calls: seq<Call>, skip: nat, now: int, booked: int)
    requires forall n :: 0 <= n < |calls| ==> CallOk(calls[n], now, booked)
    ensures DeliveredBy(calls, skip, now) == ConsumedSeconds(calls, skip)
    ensures DeliveredBy(calls, skip, now - 1) <= ConsumedSeconds(calls, skip)
  {
    if |calls| > 0 { DeliveredByNow(calls[..|calls| - 1], skip, now, booked); }
  }

  lemma MovedDeadlineOk(b: Booking, c: Booking, now: int, k: nat)
    requires AttemptsOk(b, now) && RowMoves(b, c, now) && k < |c.calls|
    ensures DeadlineOk(c, k)
  {
    hide Share, Moves, RingsApart, DeliveredBy, ConsumedSeconds;
    if k < |b.calls| {
      var x, y := b.calls[k], c.calls[k];
      assert DeadlineOk(b, k) && CallOk(x, now, b.minutes * 60) && Moves(x, y, now, TimeLeft(b, k));
      forall n | 0 <= n < |c.calls|
        ensures forall until :: until <= now ==>
          0 <= Share(c.calls[n], until) && (n < |b.calls| ==> Share(b.calls[n], until) <= Share(c.calls[n], until))
        ensures forall until :: until < now ==>
          Share(c.calls[n], until) == if n < |b.calls| then Share(b.calls[n], until) else 0
      {
        if n < |b.calls| {
          ConsumedIsNonnegative(b.calls, n);
          MovedCallOk(b.calls[n], c.calls[n], now, TimeLeft(b, n), b.minutes * 60);
        } else {
          RingSharesNothing(c.calls[n], now);
        }
      }
      KeptOrJoined(x, y, now, TimeLeft(b, k));
      var start := if y.startedAt.Some? then y.startedAt.value else now;
      assert start <= now;
      DeliveredGrows(b.calls, c.calls, k, start);
      DeliveredSame(b.calls, c.calls, k, start - 1);
      DeliveredByNow(b.calls, k, now, b.minutes * 60);
    }
  }

  lemma RingSharesNothing(c: Call, now: int)
    requires c == Call(PartnerInitiated, now, None, None, None, None, None, None)
    ensures forall until :: Share(c, until) == 0
  {
  }

  lemma KeptOrJoined(x: Call, y: Call, now: int, left: int)
    requires Moves(x, y, now, left)
    ensures || (y.startedAt == x.startedAt && y.deadline == x.deadline)
            || (y.startedAt == Some(now) && y.deadline == Some(now + left))
  {
  }

  lemma {:induction false} LongestGrows(xs: seq<Call>, ys: seq<Call>)
    requires |xs| <= |ys| && forall k :: 0 <= k < |xs| ==> CallSeconds(xs[k]) <= CallSeconds(ys[k])
    ensures LongestCall(xs) <= LongestCall(ys)
    decreases |ys|
  {
    if |xs| == |ys| {
      if |xs| > 0 { LongestGrows(xs[..|xs| - 1], ys[..|ys| - 1]); }
    } else {
      LongestGrows(xs, ys[..|ys| - 1]);
    }
  }

  lemma MovedRowOk(b: Booking, c: Booking, now: int)
    requires AttemptsOk(b, now) && RowMoves(b, c, now)
    ensures AttemptsOk(c, now)
    ensures LongestCall(b.calls) <= LongestCall(c.calls)
    ensures AnyCall(b.calls, CallCompleted) ==> AnyCall(c.calls, CallCompleted)
    ensures c.status == Completed && b.status != Completed ==> AnyCall(c.calls, CallCompleted)
  {
    hide LongestCall, CallSeconds, CallOk, Moves, DeadlineOk;
    forall k | 0 <= k < |c.calls|
      ensures CallOk(c.calls[k], now, b.minutes * 60)
      ensures k < |b.calls| ==> CallSeconds(b.calls[k]) <= CallSeconds(c.calls[k])
      ensures k < |b.calls| && b.calls[k].status == CallCompleted ==> c.calls[k].status == CallCompleted
    {
      if k < |b.calls| {
        ConsumedIsNonnegative(b.calls, k);
        MovedCallOk(b.calls[k], c.calls[k], now, TimeLeft(b, k), b.minutes * 60);
      }
      else { NewRingOk(c.calls[k], now, b.minutes * 60); }
    }
    LongestGrows(b.calls, c.calls);
    RingsStayApart(b, c, now);
    forall k | 0 <= k < |c.calls| ensures DeadlineOk(c, k) { MovedDeadlineOk(b, c, now, k); }
    assert forall k :: 0 <= k < |b.calls| && b.calls[k].status == CallCompleted ==> c.calls[k].status == CallCompleted;
  }

  lemma NewRingOk(c: Call, now: int, booked: int)
    requires c == Call(PartnerInitiated, now, None, None, None, None, None, None)
    ensures CallOk(c, now, booked)
  {
  }

  lemma RingsStayApart(b: Booking, c: Booking, now: int)
    requires AttemptsOk(b, now) && RowMoves(b, c, now)
    ensures RingsApart(c.calls)
  {
    hide CallOk;
    forall i, j | 0 <= i < j < |c.calls| && c.calls[i].status == PartnerInitiated && c.calls[j].status == PartnerInitiated
      ensures c.calls[i].initiatedAt + 60 <= c.calls[j].initiatedAt
    {
      assert Moves(b.calls[i], c.calls[i], now, TimeLeft(b, i));
      assert b.calls[i].status == PartnerInitiated && b.calls[i].initiatedAt == c.calls[i].initiatedAt;
      if j < |b.calls| {
        assert Moves(b.calls[j], c.calls[j], now, TimeLeft(b, j));
        assert b.calls[j].status == PartnerInitiated;
      }
    }
  }

  lemma CallStepKeepsCalls(db: Db, a: CallAction)
    requires CallsOk(db)
    ensures CallsOk(StepCall(db, a).db)
  {
    hide RowMoves, AttemptsOk, StepCall, LongestCall, AnyCall;
    var next := StepCall(db, a).db;
    StepMovesRows(db, a);
    CallFrame(db, a);
    forall i | 0 <= i < |next.bookings|
      ensures AttemptsOk(next.bookings[i], next.now)
      ensures next.bookings[i].status == Completed ==> Deserved(next, i)
    {
      assert RowMoves(db.bookings[i], next.bookings[i], db.now);
      MovedRowOk(db.bookings[i], next.bookings[i], db.now);
      SameLength(db.bookings[i], next.bookings[i], db.now);
    }
  }

  lemma SameLength(b: Booking, c: Booking, now: int)
    requires RowMoves(b, c, now)
    ensures c.minutes == b.minutes
  {
  }

  // ── Booking steps and the clock keep it ──────────────────────────────────

  lemma SameAttempts(b: Booking, c: Booking, now: int)
    requires AttemptsOk(b, now) && c == b.(status := c.status, settleAt := c.settleAt)
    requires c.status != Booked || b.status == Booked
    ensures AttemptsOk(c, now)
  {
    hide CallOk, DeliveredBy;
    forall k | 0 <= k < |c.calls| ensures DeadlineOk(c, k) { assert DeadlineOk(b, k); }
  }

  /** One row changed its status, for a reason if the status is Completed. */
  lemma StatusChangeKeepsCalls(db: Db, next: Db, id: nat, row: Booking)
    requires CallsOk(db) && id < |db.bookings| && next.now == db.now
    requires next.bookings == db.bookings[id := row]
    requires row == db.bookings[id].(status := row.status, settleAt := row.settleAt)
    requires row.status != Booked || db.bookings[id].status == Booked
    requires forall x :: x in db.audit ==> x in next.audit
    requires row.status == Completed ==> Deserved(next, id)
    ensures CallsOk(next)
  {
    forall i | 0 <= i < |next.bookings|
      ensures AttemptsOk(next.bookings[i], next.now)
      ensures next.bookings[i].status == Completed ==> Deserved(next, i)
    {
      assert AttemptsOk(db.bookings[i], db.now);
      if i == id { SameAttempts(db.bookings[i], row, db.now); }
      else if db.bookings[i].status == Completed { assert Deserved(db, i); }
    }
  }

  lemma UnwindKeepsCalls(db: Db, id: nat, key: Key, status: BookingStatus)
    requires CallsOk(db) && id < |db.bookings| && status != Booked && status != Completed
    ensures CallsOk(Unwind(db, id, key, status).db)
  {
    hide CallsOk;
    if Post(db.bank, UnwindTxn(key, db.bookings[id])).Posted? {
      StatusChangeKeepsCalls(db, Unwind(db, id, key, status).db, id, db.bookings[id].(status := status));
    }
  }

  lemma AppendKeepsCalls(db: Db, next: Db, row: Booking)
    requires CallsOk(db) && next.now == db.now && next.audit == db.audit
    requires next.bookings == db.bookings + [row] && row.calls == [] && row.status == Booked && row.minutes > 0
    ensures CallsOk(next)
  {
    forall i | 0 <= i < |next.bookings|
      ensures AttemptsOk(next.bookings[i], next.now)
      ensures next.bookings[i].status == Completed ==> Deserved(next, i)
    {
      if i < |db.bookings| {
        assert AttemptsOk(db.bookings[i], db.now);
        if db.bookings[i].status == Completed { assert Deserved(db, i); }
      }
    }
  }

  lemma BookingStepKeepsCalls(db: Db, a: BookingAction)
    requires CallsOk(db)
    ensures CallsOk(StepBooking(db, a).db)
  {
    hide CallsOk, Post, Unwind, Earned, OpenCallReport, ResolvePartial, AdminExpireBooking, SettleBooking;
    var out := StepBooking(db, a);
    match a {
      case DoSetAvailability(_, _, _) => UnchangedCalls(db, out.db);
      case DoBook(_, _, _, _, _) =>
        if out.reply == Done { AppendKeepsCalls(db, out.db, out.db.bookings[|db.bookings|]); }
      case DoRefund(i) => if i < |db.bookings| { UnwindKeepsCalls(db, i, Refund(i), CancelledByFan); }
      case DoExpire(i) => ExpireKeepsCalls(db, i);
      case DoSettle(i) => SettleKeepsRows(db, i); UnchangedCalls(db, out.db);
      case DoResolvePartial(i, share, refund) => ResolveKeepsCalls(db, i, share, refund);
      case DoAdminExpire(i, s) => AdminKeepsCalls(db, i, s);
    }
  }

  lemma SettleKeepsRows(db: Db, i: nat)
    ensures var next := SettleBooking(db, i).db; next == db.(bank := next.bank, earnings := next.earnings)
  {
    hide Post, Earned, OpenCallReport;
  }

  lemma UnchangedCalls(db: Db, next: Db)
    requires CallsOk(db) && next.bookings == db.bookings && next.now >= db.now && next.audit == db.audit
    ensures CallsOk(next)
  {
    forall i | 0 <= i < |next.bookings|
      ensures AttemptsOk(next.bookings[i], next.now)
      ensures next.bookings[i].status == Completed ==> Deserved(next, i)
    {
      assert AttemptsOk(db.bookings[i], db.now);
      if db.bookings[i].status == Completed { assert Deserved(db, i); }
    }
  }

  lemma ExpireKeepsCalls(db: Db, i: nat)
    requires CallsOk(db)
    ensures CallsOk(ExpireBooking(db, i).db)
  {
    hide CallsOk, Unwind;
    if DueForExpiry(db, i) {
      var status := Classify(db.bookings[i]);
      var out := ExpireBooking(db, i);
      if status == Completed || status == RequiresAdminReview {
        StatusChangeKeepsCalls(db, out.db, i, out.db.bookings[i]);
      } else {
        UnwindKeepsCalls(db, i, Expire(i), status);
      }
    }
  }

  lemma ResolveKeepsCalls(db: Db, i: nat, share: int, refund: int)
    requires CallsOk(db)
    ensures CallsOk(ResolvePartial(db, i, share, refund).db)
  {
    hide CallsOk, Post, Earned;
    var out := ResolvePartial(db, i, share, refund);
    if out.reply == Done {
      assert AuditResolvePartial(i) in out.db.audit;
      StatusChangeKeepsCalls(db, out.db, i, out.db.bookings[i]);
    }
  }

  lemma AdminKeepsCalls(db: Db, i: nat, status: BookingStatus)
    requires CallsOk(db)
    ensures CallsOk(AdminExpireBooking(db, i, status).db)
  {
    hide CallsOk, Post;
    var out := AdminExpireBooking(db, i, status);
    if out.reply == Done {
      assert AuditExpireBooking(i, status) in out.db.audit;
      StatusChangeKeepsCalls(db, out.db, i, out.db.bookings[i]);
    }
  }

  lemma StepKeepsCalls(db: Db, a: Action)
    requires CallsOk(db)
    ensures CallsOk(Step(db, a).db)
  {
    hide CallsOk, StepBooking, StepCall, StepMessage, StepShoutout, StepMoney, StepWorld;
    match a {
      case OnBooking(x) => BookingStepKeepsCalls(db, x);
      case OnCall(x) => CallStepKeepsCalls(db, x);
      case OnMessage(x) => MessageFrame(db, x); UnchangedCalls(db, Step(db, a).db);
      case OnShoutout(x) => ShoutoutFrame(db, x); UnchangedCalls(db, Step(db, a).db);
      case OnMoney(x) => MoneyFrame(db, x); UnchangedCalls(db, Step(db, a).db);
      case OnWorld(x) => WorldFrame(db, x); UnchangedCalls(db, Step(db, a).db);
    }
  }

  // ── The time a join grants ───────────────────────────────────────────────

  /** Another attempt of the booking has delivered some time. */
  predicate OthersDelivered(calls: seq<Call>, skip: nat) {
    exists n :: 0 <= n < |calls| && n != skip && calls[n].status in {CallCompleted, DroppedTechnical} && CallSeconds(calls[n]) > 0
  }

  lemma {:induction false} NothingConsumedIff(calls: seq<Call>, skip: nat)
    ensures ConsumedSeconds(calls, skip) >= 0
    ensures ConsumedSeconds(calls, skip) == 0 <==> !OthersDelivered(calls, skip)
  {
    if |calls| > 0 {
      var init := calls[..|calls| - 1];
      NothingConsumedIff(init, skip);
      assert forall n :: 0 <= n < |init| ==> calls[n] == init[n];
    }
  }

  /** A join sets the deadline to start plus booked minutes if and only if no other
      attempt that completed or dropped delivered any time. */
  lemma JoinGrantsFullTimeIff(db: Db, i: nat, k: nat)
    requires i < |db.bookings| && db.bookings[i].minutes > 0
    requires LatestActive(db.bookings[i].calls) == Some(k) && db.bookings[i].calls[k].status == PartnerInitiated
    ensures var b := db.bookings[i]; var out := JoinCall(db, i);
      && out.reply == Done && i < |out.db.bookings| && k < |out.db.bookings[i].calls|
      && var y := out.db.bookings[i].calls[k];
         && y.startedAt == Some(db.now) && y.deadline == Some(db.now + TimeLeft(b, k))
         && (y.deadline == Some(db.now + b.minutes * 60) <==> !OthersDelivered(b.calls, k))
  {
    hide OthersDelivered, ConsumedSeconds;
    NothingConsumedIff(db.bookings[i].calls, k);
  }

  // ── Classification at day end ────────────────────────────────────────────

  lemma {:induction false} LongestReaches(calls: seq<Call>, seconds: int)
    requires seconds > 0
    ensures LongestCall(calls) >= seconds <==> exists k :: 0 <= k < |calls| && CallSeconds(calls[k]) >= seconds
  {
    if |calls| > 0 {
      var init := calls[..|calls| - 1];
      LongestReaches(init, seconds);
      assert forall k :: 0 <= k < |init| ==> calls[k] == init[k];
    }
  }

  /** The sweep refunds an overdue booking exactly when every attempt that ended
      stayed below three minutes and below the booked time. */
  lemma RefundsIffEveryCallWasShort(b: Booking)
    requires b.minutes > 0
    ensures IsExpired(Classify(b)) <==>
      forall k :: 0 <= k < |b.calls| ==> CallSeconds(b.calls[k]) < 180 && CallSeconds(b.calls[k]) < b.minutes * 60
    ensures Classify(b) == Completed <==> exists k :: 0 <= k < |b.calls| && CallSeconds(b.calls[k]) >= b.minutes * 60
  {
    LongestReaches(b.calls, 180);
    LongestReaches(b.calls, b.minutes * 60);
  }

  /** The order in which the attempts were made does not matter. */
  lemma ClassifyIgnoresOrder(b: Booking, c: Booking)
    requires c == b.(calls := c.calls) && multiset(b.calls) == multiset(c.calls) && b.minutes > 0
    ensures Classify(b) == Classify(c)
  {
    assert forall x :: x in b.calls <==> x in multiset(b.calls);
    assert forall x :: x in c.calls <==> x in multiset(c.calls);
    SameMembers(b.calls, c.calls, b.minutes * 60);
    SameMembers(b.calls, c.calls, 180);
  }

  lemma SameMembers(xs: seq<Call>, ys: seq<Call>, seconds: int)
    requires (forall x :: x in xs <==> x in ys) && seconds > 0
    ensures LongestCall(xs) >= seconds <==> LongestCall(ys) >= seconds
    ensures AnyTerminal(xs) == AnyTerminal(ys)
    ensures forall s :: AnyCall(xs, s) == AnyCall(ys, s)
  {
    OneWay(xs, ys, seconds);
    OneWay(ys, xs, seconds);
  }

  lemma OneWay(xs: seq<Call>, ys: seq<Call>, seconds: int)
    requires (forall x :: x in xs ==> x in ys) && seconds > 0
    ensures LongestCall(xs) >= seconds ==> LongestCall(ys) >= seconds
    ensures AnyTerminal(xs) ==> AnyTerminal(ys)
    ensures forall s :: AnyCall(xs, s) ==> AnyCall(ys, s)
  {
    LongestReaches(xs, seconds);
    LongestReaches(ys, seconds);
    assert forall k :: 0 <= k < |xs| ==> xs[k] in ys;
  }
}
