/** Call attempts of a booking and the triggers that carry them to its status. */
module Calls {
  import opened Schema
  import opened Ledger
  import opened Tables
  import opened Bookings

  predicate IsActive(s: CallStatus) { s == PartnerInitiated || s == InProgress }

  /** Writing an attempt fires the triggers: completion completes a booking that
      is still BOOKED, a miss or drop clears the fan's ready signal. */
  function WithCall(b: Booking, k: nat, c: Call): Booking
    requires k < |b.calls|
  {
    var next := b.(calls := b.calls[k := c]);
    if c.status == b.calls[k].status then next
    else if c.status == CallCompleted then
      next.(status := if b.status == Booked then Completed else b.status)
    else if c.status in {MissedNoJoin, MissedDeclined, DroppedTechnical} then next.(fanReady := false)
    else next
  }

  function SetCall(db: Db, id: nat, k: nat, c: Call): Db
    requires id < |db.bookings| && k < |db.bookings[id].calls|
  {
    db.(bookings := db.bookings[id := WithCall(db.bookings[id], k, c)])
  }

  function SignalReady(db: Db, id: nat): Out {
    if id >= |db.bookings| || db.bookings[id].status != Booked then Refuse(db, NotBookable)
    else Out(db.(bookings := db.bookings[id := db.bookings[id].(fanReady := true)]), Done)
  }

  predicate RecentRing(calls: seq<Call>, now: int) {
    exists i :: 0 <= i < |calls| && calls[i].status == PartnerInitiated && calls[i].initiatedAt > now - 60
  }

  function InitiateCall(db: Db, id: nat): Out {
    if id >= |db.bookings| || db.bookings[id].status != Booked then Refuse(db, NotBookable)
    else if RecentRing(db.bookings[id].calls, db.now) then Refuse(db, AlreadyInitiated)
    else
      var b := db.bookings[id];
      var c := Call(PartnerInitiated, db.now, None, None, None, None, None, None);
      Out(db.(bookings := db.bookings[id := b.(calls := b.calls + [c])]), Done)
  }

  /** The latest attempt that is ringing or live. */
  function LatestActive(calls: seq<Call>): (k: Option<nat>)
    ensures k.Some? ==> k.value < |calls| && IsActive(calls[k.value].status)
    ensures k.Some? ==> forall i :: k.value < i < |calls| ==> !IsActive(calls[i].status)
    ensures k.None? ==> forall i :: 0 <= i < |calls| ==> !IsActive(calls[i].status)
  {
    if |calls| == 0 then None
    else if IsActive(calls[|calls| - 1].status) then Some(|calls| - 1)
    else LatestActive(calls[..|calls| - 1])
  }

  /** booking_consumed_seconds: time delivered by ended attempts other than `skip`. */
  function ConsumedSeconds(calls: seq<Call>, skip: nat): int {
    if |calls| == 0 then 0
    else
      var n := |calls| - 1;
      var c := calls[n];
      ConsumedSeconds(calls[..n], skip)
      + if n != skip && c.status in {CallCompleted, DroppedTechnical} then Max(0, CallSeconds(c)) else 0
  }

  function JoinCall(db: Db, id: nat): Out {
    if id >= |db.bookings| then Refuse(db, NoActiveCall)
    else
      var b := db.bookings[id];
      match LatestActive(b.calls)
      case None => Refuse(db, NoActiveCall)
      case Some(k) =>
        if b.calls[k].status == InProgress then Out(db, Done)
        else
          var left := Max(0, b.minutes * 60 - ConsumedSeconds(b.calls, k));
          var c := b.calls[k].(status := InProgress, startedAt := Some(db.now),
                               deadline := Some(db.now + left), fanBeat := Some(db.now));
          Out(SetCall(db, id, k, c), Done)
  }

  /** A beat is accepted in any status. A first report of the creator's absence
      seeds `mediaConfirmed` with false; once true it stays true. */
  function Heartbeat(db: Db, id: nat, k: nat, byFan: bool, peerSeen: Option<bool>): Out {
    if id >= |db.bookings| || k >= |db.bookings[id].calls| then Refuse(db, NotFound)
    else
      var c := db.bookings[id].calls[k];
      var beat := if !byFan then c.(partnerBeat := Some(db.now))
                  else
                    var seen := if peerSeen.None? then c.mediaConfirmed
                                else Some((c.mediaConfirmed == Some(true)) || peerSeen.value);
                    c.(fanBeat := Some(db.now), mediaConfirmed := seen);
      Out(SetCall(db, id, k, beat), Done)
  }

  /** A call completes only when its deadline, less five seconds, has come or the
      sweep says so, and the creator was not reported missing throughout. */
  function CompleteCall(db: Db, id: nat, k: nat, auto: bool): Out {
    if id >= |db.bookings| || k >= |db.bookings[id].calls| || db.bookings[id].calls[k].status != InProgress
    then Refuse(db, NotInProgress)
    else
      var c := db.bookings[id].calls[k];
      if c.mediaConfirmed == Some(false) then
        Out(SetCall(db, id, k, c.(status := DroppedTechnical, endedAt := c.startedAt)), Done)
      else if auto || (c.deadline.Some? && db.now >= c.deadline.value - 5) then
        Out(SetCall(db, id, k, c.(status := CallCompleted, endedAt := Some(db.now))), Done)
      else
        Out(SetCall(db, id, k, c.(status := DroppedTechnical, endedAt := Some(db.now))), Done)
  }

  function MarkMissed(db: Db, id: nat, k: nat, status: CallStatus): Out {
    if status !in {MissedNoJoin, MissedDeclined, DroppedTechnical} then Refuse(db, InvalidStatus)
    else if id >= |db.bookings| || k >= |db.bookings[id].calls| || !IsActive(db.bookings[id].calls[k].status)
    then Refuse(db, NotActive)
    else
      var c := db.bookings[id].calls[k];
      if status != DroppedTechnical && c.status == InProgress then Refuse(db, AlreadyJoined)
      else Out(SetCall(db, id, k, c.(status := status, endedAt := Some(db.now))), Done)
  }

  predicate RangOut(c: Call, now: int) {
    c.status == PartnerInitiated && c.initiatedAt < now - 60 && c.startedAt.None?
  }

  function SweptCall(c: Call, now: int): Call {
    if RangOut(c, now) then c.(status := MissedNoJoin, endedAt := Some(now)) else c
  }

  predicate AnyRangOut(calls: seq<Call>, now: int) {
    exists i :: 0 <= i < |calls| && RangOut(calls[i], now)
  }

  function SweptBooking(b: Booking, now: int): Booking {
    b.(calls := seq(|b.calls|, i requires 0 <= i < |b.calls| => SweptCall(b.calls[i], now)),
       fanReady := b.fanReady && !AnyRangOut(b.calls, now))
  }

  /** cleanup_stalled_calls: one bulk update of every ring past its window. */
  function SweepRings(db: Db): Out {
    Out(db.(bookings := seq(|db.bookings|, i requires 0 <= i < |db.bookings| =>
                              SweptBooking(db.bookings[i], db.now))), Done)
  }

  /** rpc_admin_recover_call: drops the live attempt and marks the booking expired,
      without touching escrow or the partner's minutes. */
  function AdminRecoverCall(db: Db, id: nat): Out {
    if id >= |db.bookings| then Refuse(db, NotFound)
    else
      var b := db.bookings[id];
      if b.status !in {Booked, ExpiredTechnical, ExpiredPartnerNoShow} then Refuse(db, NotRecoverable)
      else
        var dropped := match LatestActive(b.calls)
                       case None => b
                       case Some(k) => WithCall(b, k, b.calls[k].(status := DroppedTechnical, endedAt := Some(db.now)));
        Out(db.(bookings := db.bookings[id := dropped.(status := ExpiredTechnical)]), Done)
  }
}
