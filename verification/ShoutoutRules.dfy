/** The discipline of shout-outs: one free round, one open round, and money that
    only a confirmed delivery releases.
 */
module ShoutoutRules {
  import opened Schema
  import opened Ledger
  import opened Tables
  import opened Shoutouts
  import opened Platform

  predicate ShoutoutRuleOk(r: Shoutout) {
    // the first round is the free one, every later one is paid
    && (forall k :: 0 <= k < |r.corrections| ==> (r.corrections[k].kind == FreeRound <==> k == 0))
    && (r.freeUsed <==> |r.corrections| > 0)
    // at most the newest round is open, and only while the partner owes a video
    && (forall k :: 0 <= k < |r.corrections| - 1 ==> r.corrections[k].resubmitted)
    && (r.status in {Delivered, IssueReported} ==> forall k :: 0 <= k < |r.corrections| ==> r.corrections[k].resubmitted)
    && (r.confirmed.Some? ==> r.status in {Delivered, RefundedByAdmin})
    && (r.status == Delivered ==> r.reviewDeadline.Some?)
    && (r.status == IssueReported ==> r.disputed && r.reviewDeadline.Some?)
  }

  ghost predicate ShoutoutRulesOk(db: Db) {
    forall s :: 0 <= s < |db.shoutouts| ==> ShoutoutRuleOk(db.shoutouts[s])
  }

  predicate IsOver(s: ShoutoutStatus) { s == RefundedByAdmin || s == ExpiredNoDelivery }

  /** Lawful moves of one shout-out. A confirmation is withdrawn by nothing but a
      refund; an ended or paid row is frozen; rounds are never rewritten. */
  predicate ShoutoutMoves(x: Shoutout, y: Shoutout, earned: bool) {
    && y.fan == x.fan && y.partner == x.partner && y.price == x.price
    && (IsOver(x.status) || earned ==> y == x)
    && (x.confirmed.Some? ==> y.confirmed == x.confirmed && y.corrections == x.corrections
                              && y.status in {Delivered, RefundedByAdmin})
    && |x.corrections| <= |y.corrections|
    && (forall k :: 0 <= k < |x.corrections| ==>
          && y.corrections[k] == x.corrections[k].(resubmitted := y.corrections[k].resubmitted)
          && (x.corrections[k].resubmitted ==> y.corrections[k].resubmitted))
    && (x.freeUsed ==> y.freeUsed) && (x.disputed ==> y.disputed)
  }

  ghost predicate AllMove(db: Db, next: Db) {
    && |db.shoutouts| <= |next.shoutouts|
    && forall s :: 0 <= s < |db.shoutouts| ==>
         ShoutoutMoves(db.shoutouts[s], next.shoutouts[s], Earned(db, ShoutoutItem(s)))
  }

  lemma OneMoves(db: Db, next: Db, s: nat, row: Shoutout)
    requires ShoutoutRulesOk(db) && s < |db.shoutouts| && next.shoutouts == db.shoutouts[s := row]
    requires ShoutoutRuleOk(row) && ShoutoutMoves(db.shoutouts[s], row, Earned(db, ShoutoutItem(s)))
    ensures ShoutoutRulesOk(next) && AllMove(db, next)
  {
    hide Earned;
    forall s | 0 <= s < |db.shoutouts| ensures ShoutoutMoves(db.shoutouts[s], db.shoutouts[s], Earned(db, ShoutoutItem(s))) {
      assert ShoutoutRuleOk(db.shoutouts[s]);
    }
  }

  /** An earned shout-out is a confirmed delivery: the only fact of the money
      invariant this discipline needs. */
  ghost predicate PaidIsConfirmed(db: Db) {
    forall s :: 0 <= s < |db.shoutouts| && Earned(db, ShoutoutItem(s)) ==>
      db.shoutouts[s].status == Delivered && db.shoutouts[s].confirmed.Some?
  }

  lemma ExistingStep(db: Db, a: ShoutoutAction)
    requires ShoutoutRulesOk(db) && PaidIsConfirmed(db) && !a.DoRequest? && !a.DoSettleShoutout?
    requires StepShoutout(db, a).reply == Done && a.shoutout < |db.shoutouts|
    ensures ShoutoutRulesOk(StepShoutout(db, a).db) && AllMove(db, StepShoutout(db, a).db)
  {
    hide StepShoutout, Earned, ShoutoutMoves;
    var s := a.shoutout;
    var r := db.shoutouts[s];
    assert ShoutoutRuleOk(r);
    RowStep(db, a);
    var row := StepShoutout(db, a).db.shoutouts[s];
    if FanSide(a) { FanRowRule(db, a); } else { AdminRowRule(db, a); }
    OneMoves(db, StepShoutout(db, a).db, s, row);
  }

  predicate FanSide(a: ShoutoutAction) {
    a.DoUpload? || a.DoConfirm? || a.DoAutoConfirm? || a.DoReport? || a.DoCorrect?
  }

  lemma RowStep(db: Db, a: ShoutoutAction)
    requires PaidIsConfirmed(db) && !a.DoRequest? && !a.DoSettleShoutout?
    requires StepShoutout(db, a).reply == Done && ShoutoutRuleOk(db.shoutouts[a.shoutout])
    ensures var row := StepShoutout(db, a).db.shoutouts[a.shoutout];
      && StepShoutout(db, a).db.shoutouts == db.shoutouts[a.shoutout := row]
      && ShoutoutMoves(db.shoutouts[a.shoutout], row, Earned(db, ShoutoutItem(a.shoutout)))
  {
    hide StepShoutout;
    if FanSide(a) { FanRowStep(db, a); } else { AdminRowStep(db, a); }
  }

  lemma FanRowStep(db: Db, a: ShoutoutAction)
    requires PaidIsConfirmed(db) && FanSide(a)
    requires StepShoutout(db, a).reply == Done && ShoutoutRuleOk(db.shoutouts[a.shoutout])
    ensures var row := StepShoutout(db, a).db.shoutouts[a.shoutout];
      && StepShoutout(db, a).db.shoutouts == db.shoutouts[a.shoutout := row]
      && ShoutoutMoves(db.shoutouts[a.shoutout], row, Earned(db, ShoutoutItem(a.shoutout)))
  {
    hide Post, HasKey, CloseReports, Fees;
  }

  lemma AdminRowStep(db: Db, a: ShoutoutAction)
    requires PaidIsConfirmed(db) && !FanSide(a) && !a.DoRequest? && !a.DoSettleShoutout?
    requires StepShoutout(db, a).reply == Done && ShoutoutRuleOk(db.shoutouts[a.shoutout])
    ensures var row := StepShoutout(db, a).db.shoutouts[a.shoutout];
      && StepShoutout(db, a).db.shoutouts == db.shoutouts[a.shoutout := row]
      && ShoutoutMoves(db.shoutouts[a.shoutout], row, Earned(db, ShoutoutItem(a.shoutout)))
  {
    hide Post, HasKey, CloseReports, Fees;
  }

  lemma FanRowRule(db: Db, a: ShoutoutAction)
    requires FanSide(a) && StepShoutout(db, a).reply == Done && ShoutoutRuleOk(db.shoutouts[a.shoutout])
    ensures ShoutoutRuleOk(StepShoutout(db, a).db.shoutouts[a.shoutout])
  {
    hide Post, HasKey, CloseReports, Fees, Earned;
  }

  lemma AdminRowRule(db: Db, a: ShoutoutAction)
    requires !FanSide(a) && !a.DoRequest? && !a.DoSettleShoutout?
    requires StepShoutout(db, a).reply == Done && ShoutoutRuleOk(db.shoutouts[a.shoutout])
    ensures ShoutoutRuleOk(StepShoutout(db, a).db.shoutouts[a.shoutout])
  {
    hide Post, HasKey, CloseReports, Fees, Earned;
  }

  lemma SameShoutouts(db: Db, next: Db)
    requires ShoutoutRulesOk(db) && next.shoutouts == db.shoutouts
    ensures ShoutoutRulesOk(next) && AllMove(db, next)
  {
    hide Earned;
    forall s | 0 <= s < |db.shoutouts| ensures ShoutoutMoves(db.shoutouts[s], db.shoutouts[s], Earned(db, ShoutoutItem(s))) {
      assert ShoutoutRuleOk(db.shoutouts[s]);
    }
  }

  lemma NewShoutout(db: Db, next: Db, row: Shoutout)
    requires ShoutoutRulesOk(db) && next.shoutouts == db.shoutouts + [row] && ShoutoutRuleOk(row)
    ensures ShoutoutRulesOk(next) && AllMove(db, next)
  {
    hide Earned;
    forall s | 0 <= s < |db.shoutouts| ensures ShoutoutMoves(db.shoutouts[s], db.shoutouts[s], Earned(db, ShoutoutItem(s))) {
      assert ShoutoutRuleOk(db.shoutouts[s]);
    }
  }

  lemma SettleKeepsShoutouts(db: Db, s: nat)
    ensures SettleShoutout(db, s).db.shoutouts == db.shoutouts
  {
    hide Post, Earned;
  }

  lemma StepKeepsShoutouts(db: Db, a: Action)
    requires ShoutoutRulesOk(db) && PaidIsConfirmed(db)
    ensures ShoutoutRulesOk(Step(db, a).db) && AllMove(db, Step(db, a).db)
  {
    hide ShoutoutRulesOk, PaidIsConfirmed, AllMove, StepBooking, StepCall, StepMessage, StepMoney, StepWorld, StepShoutout;
    var next := Step(db, a).db;
    match a {
      case OnShoutout(x) =>
        ShoutoutUnlessDone(db, x);
        if StepShoutout(db, x).reply != Done { SameShoutouts(db, next); }
        else { ShoutoutStepKeeps(db, x); }
      case OnBooking(x) => BookingFrame(db, x); SameShoutouts(db, next);
      case OnCall(x) => CallFrame(db, x); SameShoutouts(db, next);
      case OnMessage(x) => MessageFrame(db, x); SameShoutouts(db, next);
      case OnMoney(x) => MoneyFrame(db, x); SameShoutouts(db, next);
      case OnWorld(x) => WorldFrame(db, x); SameShoutouts(db, next);
    }
  }

  lemma ShoutoutStepKeeps(db: Db, a: ShoutoutAction)
    requires ShoutoutRulesOk(db) && PaidIsConfirmed(db) && StepShoutout(db, a).reply == Done
    ensures ShoutoutRulesOk(StepShoutout(db, a).db) && AllMove(db, StepShoutout(db, a).db)
  {
    hide ShoutoutRulesOk, PaidIsConfirmed, AllMove, SettleShoutout, Post;
    match a {
      case DoRequest(_, _, _, _) =>
        var next := StepShoutout(db, a).db;
        NewShoutout(db, next, next.shoutouts[|db.shoutouts|]);
      case DoSettleShoutout(s) =>
        SettleKeepsShoutouts(db, s);
        SameShoutouts(db, StepShoutout(db, a).db);
      case _ => ExistingStep(db, a);
    }
  }
}
