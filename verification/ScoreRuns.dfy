// The user score over runs of the service: bans and scores agree at every instant, how many late cancellations
// a player can afford, and points given back never exceed points taken.

module ScoreRuns {
  import opened Domain
  import opened Transactions
  import opened Invariant
  import opened Preservation
  import opened Protocol
  import opened Score

  /** At every instant from any reachable state on, a read shows a ban iff it shows a score at the floor. */
  lemma BanAndScoreAgree(s: Sys, steps: seq<Step>, u: Id, at: Time)
    requires Initial(s) && u in Run(s, steps).db.users
    ensures var st := Run(s, steps).db.users[u];
      && 0 <= EffectiveScore(st, at) <= 100
      && (Banned(st, at) <==> EffectiveScore(st, at) <= BAN_FLOOR)
      && (st.bannedUntil.Some? <==> st.score <= BAN_FLOOR)
  {
    InitialInv(s);
    RunKeeps(s, steps);
    BanIffFloor(Run(s, steps).db.users[u], at);
  }

  /** The step charges `u` for a late cancellation. */
  ghost predicate Charges(s: Sys, step: Step, u: Id) {
    && step.CancelBooking? && step.user == u && MonthAfter(s.now, step.monthEnd)
    && Cancel(s.db, s.now, step.bid, u, step.monthEnd).Commit? && IsLate(s.db.bookings[step.bid], s.now)
  }

  /** The step gives `u` the points of one late cancellation back. */
  ghost predicate Restores(s: Sys, step: Step, u: Id) {
    && step.Restore? && RestorePenalty(s.db, s.now, step.bid, step.owner).Commit?
    && s.db.bookings[step.bid].user == u
  }

  /** Charges less restorations of `u` over a run. */
  ghost function NetCharges(s: Sys, steps: seq<Step>, u: Id): int {
    if steps == [] then 0
    else
      var n := |steps| - 1;
      var before := Run(s, steps[..n]);
      NetCharges(s, steps[..n], u)
        + (if Charges(before, steps[n], u) then 1 else 0) - (if Restores(before, steps[n], u) then 1 else 0)
  }

  /** Neither a score nor what a cancellation cost differs between the two states. */
  predicate SameScores(a: DB, b: DB) {
    && b.users == a.users
    && (forall i :: i in a.bookings ==> i in b.bookings && SameCharge(a.bookings[i], b.bookings[i]))
    && (forall i :: i in b.bookings && i !in a.bookings ==> b.bookings[i].penalty == 0)
  }

  predicate SameCharge(a: Booking, b: Booking) {
    b.user == a.user && b.penalty == a.penalty && b.restoredAt == a.restoredAt
  }

  lemma HoldsLeaveScores(db: DB, now: Time, id: Id, b: Booking)
    requires b.penalty == 0
    ensures SameScores(db, InTx(db, CreateHold(db, now, id, b)))
  {
  }

  lemma ReleaseLeavesScores(db: DB, now: Time)
    ensures SameScores(db, InTx(db, ReleaseStaleHolds(db, now)))
  {
  }

  lemma PlayedLeavesScores(db: DB, now: Time)
    ensures SameScores(db, InTx(db, MarkPlayed(db, now)))
  {
  }

  lemma CheckoutLeavesScores(db: DB, now: Time, pid: Id, p: Payment)
    ensures SameScores(db,
      InTx(db, if p.provider == Cash then BookCash(db, now, pid, p) else CreatePayment(db, pid, p)))
  {
  }

  lemma CashLeavesScores(db: DB, now: Time, pid: Id, owner: Id, at: Time)
    ensures SameScores(db, InTx(db, MarkCashReceived(db, now, pid, owner, at)))
  {
  }

  lemma RefundLeavesScores(db: DB, now: Time, pid: Id, owner: Id)
    ensures SameScores(db, InTx(db, MarkRefunded(db, now, pid, owner)))
  {
  }

  lemma SettleLeavesScores(db: DB, now: Time, pid: Id, p: Payment)
    ensures SameScores(db, InTx(db, Settle(db, now, pid, p)))
  {
  }

  lemma OtherStepsLeaveScores(s: Sys, step: Step)
    requires Inv(s.db) && !step.CancelBooking? && !step.Restore?
    ensures SameScores(s.db, Apply(s, step).db)
  {
    StoreStep(s, step);
    if TxOf(s, step).Some? {
      match step
      case TakeHold(_, _, _, _, _, _, _, _) => HoldStepLeavesScores(s, step);
      case CheckoutCommit(k, pid) => CheckoutLeavesScores(s.db, s.now, pid, s.checkouts[k]);
      case CallbackCommit(c) => SettleLeavesScores(s.db, s.now, s.callbacks[c].pid, s.callbacks[c].p);
      case SweepHolds => ReleaseLeavesScores(s.db, s.now);
      case SweepPlayed => PlayedLeavesScores(s.db, s.now);
      case Approve(pid, owner) => ApproveDeclineIdle(s.db, s.now, pid, owner);
      case Decline(pid, owner) => ApproveDeclineIdle(s.db, s.now, pid, owner);
      case CashReceived(pid, owner, at) => CashLeavesScores(s.db, s.now, pid, owner, at);
      case RefundSent(pid, owner) => RefundLeavesScores(s.db, s.now, pid, owner);
    }
  }

  lemma HoldStepLeavesScores(s: Sys, step: Step)
    requires Inv(s.db) && step.TakeHold?
    ensures TxOf(s, step).Some? ==> SameScores(s.db, InTx(s.db, TxOf(s, step).value))
  {
    var h := NewHold(step.court, step.user, step.slot, step.price, step.note, step.at, step.window);
    if h.Ok? { HoldsLeaveScores(s.db, s.now, step.id, h.value); }
  }

  lemma CancelRow(s: Sys, step: Step, u: Id)
    requires step.CancelBooking? && u in s.db.users
    ensures u in Apply(s, step).db.users
    ensures Apply(s, step).db.users[u] == if Charges(s, step, u) then Charge(s.db.users[u], s.now, step.monthEnd)
      else s.db.users[u]
  {
  }

  lemma RestoreRow(s: Sys, step: Step, u: Id)
    requires SysInv(s) && step.Restore? && u in s.db.users
    ensures u in Apply(s, step).db.users
    ensures Apply(s, step).db.users[u] == if Restores(s, step, u) then GiveBack(s.db.users[u], PENALTY, s.now)
      else s.db.users[u]
  {
    if Restorable(s.db, step.bid, step.owner) {
      assert BookingRow(s.db, s.db.bookings[step.bid]);
    }
  }

  /** Only a charge or a restoration touches a user's row. */
  lemma UserRowStep(s: Sys, step: Step, u: Id)
    requires SysInv(s) && u in s.db.users
    ensures u in Apply(s, step).db.users
    ensures !Charges(s, step, u) && !Restores(s, step, u) ==> Apply(s, step).db.users[u] == s.db.users[u]
    ensures Charges(s, step, u) ==> Apply(s, step).db.users[u] == Charge(s.db.users[u], s.now, step.monthEnd)
    ensures Restores(s, step, u) ==> Apply(s, step).db.users[u] == GiveBack(s.db.users[u], PENALTY, s.now)
  {
    if step.CancelBooking? {
      CancelRow(s, step, u);
    } else if step.Restore? {
      RestoreRow(s, step, u);
    } else {
      OtherStepsLeaveScores(s, step);
    }
  }

  /**
   * One step between two instants without a ban: a charge costs 20, a restoration gives at most 20, nothing else moves.
   */
  lemma UnbannedStep(s: Sys, step: Step, u: Id)
    requires SysInv(s) && u in s.db.users
    requires !Banned(s.db.users[u], s.now)
    requires u in Apply(s, step).db.users && !Banned(Apply(s, step).db.users[u], Apply(s, step).now)
    ensures EffectiveScore(Apply(s, step).db.users[u], Apply(s, step).now)
      <= EffectiveScore(s.db.users[u], s.now)
        - (if Charges(s, step, u) then PENALTY else 0) + (if Restores(s, step, u) then PENALTY else 0)
  {
    UserRowStep(s, step, u);
    StoreStep(s, step);
    assert Sound(s.db.users[u]);
    if Charges(s, step, u) {
      ChargeSound(s.db.users[u], s.now, step.monthEnd);
    }
  }

  /** No ban on `u` is in force at any state of the run. */
  ghost predicate Unbanned(s: Sys, steps: seq<Step>, u: Id) {
    forall i :: 0 <= i <= |steps| ==>
      var t := Run(s, steps[..i]);
      u in t.db.users && !Banned(t.db.users[u], t.now)
  }

  lemma {:induction false} ScoreFalls(s: Sys, steps: seq<Step>, u: Id)
    requires SysInv(s) && u in s.db.users
    requires Unbanned(s, steps, u)
    ensures u in Run(s, steps).db.users
    ensures EffectiveScore(Run(s, steps).db.users[u], Run(s, steps).now)
      <= EffectiveScore(s.db.users[u], s.now) - PENALTY * NetCharges(s, steps, u)
  {
    if steps != [] {
      var n := |steps| - 1;
      var init := steps[..n];
      forall i | 0 <= i <= n ensures init[..i] == steps[..i] {
      }
      ScoreFalls(s, init, u);
      RunKeeps(s, init);
      assert steps[..|steps|] == steps && steps[..n] == init;
      UnbannedStep(Run(s, init), steps[n], u);
    }
  }

  /** While no ban is in force, late cancellations not given back cost 20 each out of a score that stays above 10. */
  lemma LateCancellationsAfforded(s: Sys, before: seq<Step>, steps: seq<Step>, u: Id)
    requires Initial(s)
    requires u in Run(s, before).db.users && Unbanned(Run(s, before), steps, u)
    ensures var t := Run(s, before);
      PENALTY * NetCharges(t, steps, u) < EffectiveScore(t.db.users[u], t.now) - BAN_FLOOR
    ensures var t := Run(s, before);
      && NetCharges(t, steps, u) <= 4
      && (EffectiveScore(t.db.users[u], t.now) == AFTER_BAN ==> NetCharges(t, steps, u) <= 1)
  {
    InitialInv(s);
    RunKeeps(s, before);
    var t := Run(s, before);
    ScoreFalls(t, steps, u);
    RunKeeps(t, steps);
    assert steps[..|steps|] == steps && steps[..0] == [];
    BanIffFloor(t.db.users[u], t.now);
    BanIffFloor(Run(t, steps).db.users[u], Run(t, steps).now);
  }

  // ------------------------------------------- points given back were taken

  /** Cancelled bookings of `u` whose penalty has not been given back. */
  ghost function Outstanding(db: DB, u: Id): set<Id> {
    set i | i in db.bookings && db.bookings[i].user == u && db.bookings[i].penalty > 0 &&
      db.bookings[i].restoredAt.None?
  }

  lemma CancelOutstanding(db: DB, now: Time, bid: Id, user: Id, monthEnd: Time, u: Id)
    requires BookingRows(db) && Cancel(db, now, bid, user, monthEnd).Commit?
    ensures var after := Cancel(db, now, bid, user, monthEnd).db;
      var charged := user == u && IsLate(db.bookings[bid], now);
      && bid !in Outstanding(db, u)
      && Outstanding(after, u) == Outstanding(db, u) + (if charged then {bid} else {})
  {
    assert BookingRow(db, db.bookings[bid]);
    assert Cancel(db, now, bid, user, monthEnd).db.bookings == db.bookings[bid := CancelledRow(db.bookings[bid], now)];
  }

  lemma RestoreOutstanding(db: DB, now: Time, bid: Id, owner: Id, u: Id)
    requires RestorePenalty(db, now, bid, owner).Commit?
    ensures var after := RestorePenalty(db, now, bid, owner).db; var hers := db.bookings[bid].user == u;
      && (bid in Outstanding(db, u) <==> hers)
      && Outstanding(after, u) == Outstanding(db, u) - {bid}
  {
    assert RestorePenalty(db, now, bid, owner).db.bookings
      == db.bookings[bid := db.bookings[bid].(restoredAt := Some(now))];
  }

  lemma CancelStep(s: Sys, step: Step, u: Id)
    requires SysInv(s) && step.CancelBooking?
    ensures Charges(s, step, u) ==> step.bid !in Outstanding(s.db, u)
    ensures Outstanding(Apply(s, step).db, u) == Outstanding(s.db, u) + (if Charges(s, step, u) then {step.bid} else {})
  {
    if MonthAfter(s.now, step.monthEnd) && Cancel(s.db, s.now, step.bid, step.user, step.monthEnd).Commit? {
      CancelOutstanding(s.db, s.now, step.bid, step.user, step.monthEnd, u);
    }
  }

  lemma RestoreStep(s: Sys, step: Step, u: Id)
    requires step.Restore?
    ensures Restores(s, step, u) ==> step.bid in Outstanding(s.db, u)
    ensures Outstanding(Apply(s, step).db, u)
      == Outstanding(s.db, u) - (if Restores(s, step, u) then {step.bid} else {})
  {
    if RestorePenalty(s.db, s.now, step.bid, step.owner).Commit? {
      RestoreOutstanding(s.db, s.now, step.bid, step.owner, u);
    }
  }

  /** The number of outstanding penalties rises with a charge, falls with a restoration, and otherwise stays. */
  lemma OutstandingStep(s: Sys, step: Step, u: Id)
    requires SysInv(s)
    ensures |Outstanding(Apply(s, step).db, u)|
      == |Outstanding(s.db, u)| + (if Charges(s, step, u) then 1 else 0) - (if Restores(s, step, u) then 1 else 0)
  {
    if step.CancelBooking? {
      CancelStep(s, step, u);
    } else if step.Restore? {
      RestoreStep(s, step, u);
    } else {
      OthersLeaveOutstanding(s, step, u);
    }
  }

  lemma OthersLeaveOutstanding(s: Sys, step: Step, u: Id)
    requires Inv(s.db) && !step.CancelBooking? && !step.Restore?
    ensures Outstanding(Apply(s, step).db, u) == Outstanding(s.db, u)
  {
    OtherStepsLeaveScores(s, step);
    SameScoresSameOutstanding(s.db, Apply(s, step).db, u);
  }

  lemma SameScoresSameOutstanding(a: DB, b: DB, u: Id)
    requires SameScores(a, b)
    ensures Outstanding(b, u) == Outstanding(a, u)
  {
    forall i | i in a.bookings ensures i in b.bookings && SameCharge(a.bookings[i], b.bookings[i]) {
    }
  }

  /** Charges less restorations are exactly the penalties still outstanding: each is given back at most once. */
  lemma {:induction false} ChargesAreOutstanding(s: Sys, steps: seq<Step>, u: Id)
    requires Initial(s)
    ensures NetCharges(s, steps, u) == |Outstanding(Run(s, steps).db, u)|
  {
    InitialInv(s);
    if steps == [] {
      assert Outstanding(s.db, u) == {};
    } else {
      var n := |steps| - 1;
      ChargesAreOutstanding(s, steps[..n], u);
      RunKeeps(s, steps[..n]);
      OutstandingStep(Run(s, steps[..n]), steps[n], u);
    }
  }
}
