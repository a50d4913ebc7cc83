// What a statement reads before it waits for a lock. The program's transactions run at the database's default level,
// read committed: a statement finds its rows in a snapshot, waits for the locks on them, looks at those rows again as
// they then are, and at everything else as it was. So a statement that tests rows it does not lock answers from two
// states. Anything at all may be committed between them.

module ReadCommitted {
  import opened Domain
  import opened Transactions
  import opened Invariant
  import opened Preservation
  import opened Protocol
  import opened Guarantees
  import opened LostMoney
  import opened Effects
  import opened Acts
  import Score
  import S = Sessions

  // --------------------------------------------- cancelling while money arrives

  /**
   * A cancellation whose first statement read `snap` and had its lock in `db`: the booking's own columns are tested
   * again under the lock, the payments are not. Later statements see what is committed by then.
   */
  function CancelAt(snap: DB, db: DB, begin: Time, bid: Id, user: Id, monthEnd: Time): Tx {
    if !Cancellable(snap, bid, user) then Abort(WhyNotCancelled(db, bid, user))
    else if bid !in db.bookings || db.bookings[bid].user != user || !db.bookings[bid].status.CanCancel()
    then Abort(WhyNotCancelled(db, bid, user))
    else WriteCancellation(db, begin, bid, user, monthEnd)
  }

  /** The step commits a right answer for a payment on the booking, and no other payment is kept for it. */
  ghost predicate KeepsOn(s: Sys, step: Step, bid: Id) {
    RecordsOn(s, step, bid) && !KeptByAnother(s.db.payments, bid, s.callbacks[step.c].pid)
  }

  ghost predicate KeptOn(s: Sys, steps: seq<Step>, bid: Id) {
    exists i :: 0 <= i < |steps| && KeepsOn(Run(s, steps[..i]), steps[i], bid)
  }

  /** A right answer leaves its money kept exactly when no other payment is and the booking is not cancelled. */
  lemma AnswerKeptIff(db: DB, now: Time, cb: Callback)
    requires Inv(db) && cb.Answered? && CallbackOk(db, cb) && RightAnswer(db.payments[cb.pid], cb.answer)
    requires Settle(db, now, cb.pid, cb.p).Commit?
    ensures var after := Settle(db, now, cb.pid, cb.p).db.payments; var bid := db.payments[cb.pid].booking;
      && OnlineVerified(after, cb.pid) && bid in db.bookings
      && (Kept(after[cb.pid]) <==> !KeptByAnother(db.payments, bid, cb.pid) && db.bookings[bid].status != Cancelled)
  {
    if db.payments[cb.pid].status == Verified {
      KeptOrFlagged(db, cb.pid);
    } else {
      NewMoneyKeptIff(db, now, cb.pid, cb.p);
    }
  }

  lemma NewMoneyKeptIff(db: DB, now: Time, pid: Id, p: Payment)
    requires Inv(db) && pid in db.payments && AnswerFor(db.payments[pid], p) && p.status == Verified
    requires !db.payments[pid].status.IsFinal() && Settle(db, now, pid, p).Commit?
    ensures var after := Settle(db, now, pid, p).db.payments; var bid := p.booking;
      && OnlineVerified(after, pid) && bid in db.bookings
      && (Kept(after[pid]) <==> !KeptByAnother(db.payments, bid, pid) && db.bookings[bid].status != Cancelled)
  {
    SettleVerified(db, now, pid, p);
    assert BookingRow(db, db.bookings[p.booking]);
  }

  lemma KeptOrFlagged(db: DB, k: Id)
    requires Inv(db) && OnlineVerified(db.payments, k)
    ensures var bid := db.payments[k].booking;
      && bid in db.bookings
      && (Kept(db.payments[k]) <==> !KeptByAnother(db.payments, bid, k) && db.bookings[bid].status != Cancelled)
  {
    var row := db.payments[k];
    assert PaymentRow(db.bookings, row);
    if Flagged(row) {
      assert Explained(db, row);
      if HasKept(db.payments, row.booking) {
        var j :| j in db.payments && db.payments[j].booking == row.booking && Kept(db.payments[j]);
        assert j != k;
      }
    } else {
      assert Claim(row);
    }
  }

  lemma StepKeptIff(t: Sys, step: Step, bid: Id)
    requires SysInv(t) && RecordsOn(t, step, bid)
    ensures var k := t.callbacks[step.c].pid; var after := Apply(t, step).db.payments;
      && OnlineVerified(after, k) && bid in t.db.bookings
      && (Kept(after[k]) <==> !KeptByAnother(t.db.payments, bid, k) && t.db.bookings[bid].status != Cancelled)
  {
    assert CallbackOk(t.db, t.callbacks[step.c]);
    StoreStep(t, step);
    AnswerKeptIff(t.db, t.now, t.callbacks[step.c]);
  }

  /** Whether verified money is kept does not change any more. */
  lemma KeptIsFrozen(a: DB, b: DB, k: Id)
    requires Evolves(a, b) && OnlineVerified(a.payments, k)
    ensures OnlineVerified(b.payments, k) && b.payments[k].booking == a.payments[k].booking
    ensures Kept(b.payments[k]) <==> Kept(a.payments[k])
  {
    assert PaymentEvolves(a.payments[k], b.payments[k]);
  }

  lemma NotCancelledBefore(a: DB, b: DB, bid: Id)
    requires Evolves(a, b) && bid in a.bookings && bid in b.bookings && b.bookings[bid].status != Cancelled
    ensures a.bookings[bid].status != Cancelled
  {
    assert BookingEvolves(a.bookings[bid], b.bookings[bid]);
  }

  /** What a step recorded for a booking that is not cancelled at the end: kept then, and kept at the end. */
  lemma KeptAfterIff(t: Sys, step: Step, end: DB, bid: Id)
    requires SysInv(t) && RecordsOn(t, step, bid) && Evolves(t.db, end) && Evolves(Apply(t, step).db, end)
    requires bid in end.bookings && end.bookings[bid].status != Cancelled
    ensures var k := t.callbacks[step.c].pid;
      && OnlineVerified(end.payments, k) && end.payments[k].booking == bid
      && (Kept(end.payments[k]) <==> KeepsOn(t, step, bid))
  {
    var k := t.callbacks[step.c].pid;
    StepKeptIff(t, step, bid);
    NotCancelledBefore(t.db, end, bid);
    KeptIsFrozen(Apply(t, step).db, end, k);
    SameBookingAcross(t.db, end, k);
  }

  lemma KeptToTheEndIff(s: Sys, steps: seq<Step>, i: nat, bid: Id)
    requires SysInv(s) && i < |steps| && RecordsOn(Run(s, steps[..i]), steps[i], bid)
    requires bid in Run(s, steps).db.bookings && Run(s, steps).db.bookings[bid].status != Cancelled
    ensures var t := Run(s, steps[..i]); var k := t.callbacks[steps[i].c].pid; var ps := Run(s, steps).db.payments;
      && OnlineVerified(ps, k) && ps[k].booking == bid
      && (Kept(ps[k]) <==> KeepsOn(t, steps[i], bid))
  {
    Midway(s, steps, i);
    Midway(s, steps, i + 1);
    NextState(s, steps, i);
    KeptAfterIff(Run(s, steps[..i]), steps[i], Run(s, steps).db, bid);
  }

  lemma NextState(s: Sys, steps: seq<Step>, i: nat)
    requires i < |steps|
    ensures Run(s, steps[..i + 1]) == Apply(Run(s, steps[..i]), steps[i])
  {
    assert steps[..i + 1][..i] == steps[..i];
  }

  /**
   * Online money kept for a booking that had none came from a right answer committed since, when nothing else was kept.
   */
  lemma KeptSinceIff(s: Sys, steps: seq<Step>, bid: Id)
    requires SysInv(s) && !HasOnlineVerified(s.db.payments, bid)
    requires bid in Run(s, steps).db.bookings && Run(s, steps).db.bookings[bid].status != Cancelled
    ensures HasOnlineKept(Run(s, steps).db.payments, bid) <==> KeptOn(s, steps, bid)
  {
    var ps := Run(s, steps).db.payments;
    if HasOnlineKept(ps, bid) {
      var k :| k in ps && ps[k].booking == bid && Kept(ps[k]) && ps[k].provider.IsOnline();
      RunKeeps(s, steps);
      if k in s.db.payments { SameBookingAcross(s.db, Run(s, steps).db, k); }
      var i := MoneyCameFrom(s, steps, k);
      KeptToTheEndIff(s, steps, i, bid);
    }
    if KeptOn(s, steps, bid) {
      var i :| 0 <= i < |steps| && KeepsOn(Run(s, steps[..i]), steps[i], bid);
      KeptToTheEndIff(s, steps, i, bid);
    }
  }

  lemma CancelledMoney(db: DB, begin: Time, bid: Id, user: Id, monthEnd: Time)
    requires Inv(db) && Score.MonthAfter(begin, monthEnd) && bid in db.bookings && db.bookings[bid].status.CanCancel()
    requires WriteCancellation(db, begin, bid, user, monthEnd).Commit?
    ensures var after := WriteCancellation(db, begin, bid, user, monthEnd).db;
      && bid in after.bookings && after.bookings[bid].status == Cancelled
      && (HasOnlineKept(after.payments, bid) <==> HasOnlineKept(db.payments, bid))
      && (Inv(after) <==> !HasOnlineKept(db.payments, bid))
  {
    var after := WriteCancellation(db, begin, bid, user, monthEnd).db;
    FailingKeepsKept(db.payments, bid);
    if HasOnlineKept(db.payments, bid) {
      KeptOnCancelled(after, bid);
    } else {
      WriteCancellationKeeps(db, begin, bid, user, monthEnd);
    }
  }

  lemma FailingKeepsKept(ps: map<Id, Payment>, bid: Id)
    ensures HasOnlineKept(FailInitiated(ps, bid), bid) <==> HasOnlineKept(ps, bid)
  {
    if HasOnlineKept(ps, bid) {
      var k :| k in ps && ps[k].booking == bid && Kept(ps[k]) && ps[k].provider.IsOnline();
      assert FailInitiated(ps, bid)[k] == ps[k];
    }
  }

  lemma KeptOnCancelled(db: DB, bid: Id)
    requires bid in db.bookings && db.bookings[bid].status == Cancelled && HasOnlineKept(db.payments, bid)
    ensures !Inv(db)
  {
    var k :| k in db.payments && db.payments[k].booking == bid && Kept(db.payments[k]) &&
      db.payments[k].provider.IsOnline();
    assert !PaymentRow(db.bookings, db.payments[k]);
  }

  /**
   * A cancellation that goes through leaves kept online money on a cancelled booking, and so breaks the invariant, if
   * and only if a right answer was committed between its snapshot and its lock, for a booking nothing else was kept
   * for. No other transaction in between can do it.
   */
  lemma PaidBookingIsCancelledIff(s: Sys, before: seq<Step>, between: seq<Step>,
                                  begin: Time, bid: Id, user: Id, monthEnd: Time)
    requires Initial(s) && Score.MonthAfter(begin, monthEnd)
    requires var snap := Run(s, before); CancelAt(snap.db, Run(snap, between).db, begin, bid, user, monthEnd).Commit?
    ensures var snap := Run(s, before);
      var after := CancelAt(snap.db, Run(snap, between).db, begin, bid, user, monthEnd).db;
      && bid in after.bookings && after.bookings[bid].status == Cancelled
      && (HasOnlineKept(after.payments, bid) <==> KeptOn(snap, between, bid))
      && (Inv(after) <==> !KeptOn(snap, between, bid))
  {
    var snap := Run(s, before);
    InitialInv(s);
    RunKeeps(s, before);
    RunKeeps(snap, between);
    KeptSinceIff(snap, between, bid);
    CancelledMoney(Run(snap, between).db, begin, bid, user, monthEnd);
  }

  /**
   * And it does what it would have done alone, at the instant it had its lock, if and only if no right answer for the
   * booking was committed in between: then a cancellation alone would have been refused.
   */
  lemma CancelIsSerialIff(s: Sys, before: seq<Step>, between: seq<Step>, begin: Time, bid: Id, user: Id, monthEnd: Time)
    requires Initial(s)
    requires var snap := Run(s, before); CancelAt(snap.db, Run(snap, between).db, begin, bid, user, monthEnd).Commit?
    ensures var snap := Run(s, before); var db := Run(snap, between).db;
      CancelAt(snap.db, db, begin, bid, user, monthEnd) == Cancel(db, begin, bid, user, monthEnd)
      <==> !RecordedOn(snap, between, bid)
  {
    InitialInv(s);
    RunKeeps(s, before);
    OnlineMoneySinceIff(Run(s, before), between, bid);
  }

  const ONE_BEGUN: map<Id, Payment> := map[1 := Begun(1)]

  /** A hold, a checkout, and a confirmation that has been heard and not yet written. */
  lemma ConfirmationIsHeard() returns (s: Sys, before: seq<Step>)
    ensures Initial(s)
    ensures Run(s, before) == HEARD
  {
    s, before := BothAreHeld();
    before := CheckoutIsDone(s, before, map[], 1);
    assert map[][1 := Begun(1)] == ONE_BEGUN;
    before := AnswerIsHeard(s, before, ONE_BEGUN, 1, COMPLETED);
  }

  const HEARD: Sys := Quiet(TWO_HOLDS, ONE_BEGUN).(callbacks := map[0 := Answered(1, Told(1, COMPLETED), COMPLETED)])

  /** The store once it is written. */
  const PAID: DB :=
    Store(TWO_HOLDS[1 := TWO_HOLDS[1].(status := Confirmed, hold := None)], ONE_BEGUN[1 := Told(1, COMPLETED)])

  lemma ConfirmationIsWritten()
    ensures Settle(HEARD.db, BEGIN, 1, Told(1, COMPLETED)) == Commit(PAID)
  {
    var db := HEARD.db;
    assert Told(1, COMPLETED) == Begun(1).(status := Verified, ref := "pidx", verifiedAt := Some(BEGIN));
    assert !KeptByAnother(db.payments, 1, 1);
    assert ApplyToBooking(db, 1, 1) == (db.(bookings := PAID.bookings), None);
    assert !RefTaken(db.payments, 1, Khalti, "pidx") && !TxnTaken(db.payments, 1, 1);
  }

  /** Writing it keeps the money: nothing else was kept for the booking. */
  lemma ConfirmationIsKept()
    ensures Run(HEARD, [CallbackCommit(0)]).db == PAID && KeptOn(HEARD, [CallbackCommit(0)], 1)
  {
    var step := CallbackCommit(0);
    ConfirmationIsWritten();
    StoreStep(HEARD, step);
    assert Records(HEARD, step, 1);
    assert KeepsOn(HEARD, step, 1);
    assert [step][..0] == [] && KeepsOn(Run(HEARD, [step][..0]), [step][0], 1);
  }

  lemma BookingIsCancelled()
    ensures CancelAt(HEARD.db, PAID, BEGIN, 1, 0, BEGIN + 30 * DAY).Commit?
  {
    assert Cancellable(HEARD.db, 1, 0);
  }

  /** Here it is: a cancellation that looked before the confirmation was written, and cancels the paid booking. */
  lemma PaidBookingIsCancelled() returns (s: Sys, before: seq<Step>, between: seq<Step>)
    ensures Initial(s)
    ensures var snap := Run(s, before);
      var tx := CancelAt(snap.db, Run(snap, between).db, BEGIN, 1, 0, BEGIN + 30 * DAY);
      && tx.Commit? && 1 in tx.db.bookings && tx.db.bookings[1].status == Cancelled
      && HasOnlineKept(tx.db.payments, 1) && !Inv(tx.db)
  {
    s, before := ConfirmationIsHeard();
    between := [CallbackCommit(0)];
    ConfirmationIsKept();
    BookingIsCancelled();
    PaidBookingIsCancelledIff(s, before, between, BEGIN, 1, 0, BEGIN + 30 * DAY);
  }

  // -------------------------------------------------- sweeping while money arrives

  /** The janitor's sweep, its holds found in `snap` and locked in `db`. */
  function SweepAt(snap: DB, db: DB, now: Time): DB {
    var ids := set i | i in db.bookings && Stale(snap, i, now) && db.bookings[i].HoldExpired(now);
    db.(bookings := map i | i in db.bookings :: if i in ids then Released(db.bookings[i]) else db.bookings[i],
        payments := map k | k in db.payments ::
          if db.payments[k].status == Initiated && db.payments[k].booking in ids
          then db.payments[k].(status := Failed) else db.payments[k])
  }

  /**
   * The sweep tests payments it does not lock as well, but it needs no more than it has: whatever was committed in
   * between, it keeps the invariant, and cancels exactly the pending holds that had run out in its snapshot and still
   * have when it has its lock. All of them are unpaid.
   */
  lemma SweepIsSafe(s: Sys, before: seq<Step>, between: seq<Step>, now: Time, i: Id)
    requires Initial(s) && i in Run(Run(s, before), between).db.bookings
    ensures var snap := Run(s, before); var db := Run(snap, between).db; var after := SweepAt(snap.db, db, now);
      && Good(db, after) && i in after.bookings
      && after.bookings[i] == (
           if i in snap.db.bookings && RanOut(snap.db.bookings[i], now) && RanOut(db.bookings[i], now)
           then db.bookings[i].(status := Cancelled, hold := None) else db.bookings[i])
      && (after.bookings[i] != db.bookings[i] ==> Stale(db, i, now))
  {
    var snap := Run(s, before);
    InitialInv(s);
    RunKeeps(s, before);
    RunKeeps(snap, between);
    SweepKeeps(snap.db, Run(snap, between).db, now);
    LapsedIsUnpaid(Run(snap, between).db, i, now);
    if i in snap.db.bookings { LapsedIsUnpaid(snap.db, i, now); }
  }

  lemma SweepKeeps(snap: DB, db: DB, now: Time)
    requires Inv(db)
    ensures Good(db, SweepAt(snap, db, now))
  {
    var after := SweepAt(snap, db, now);
    var failed := db.(payments := after.payments);
    FailsKeep(db, after.payments);
    MovesKeep(failed, after.bookings);
    GoodThen(db, failed, after);
  }

  // --------------------------------------------------- two charges at once

  /** A charge whose statement read `read` and, having waited, overwrites `locked`: what it writes comes from `read`. */
  function ChargeAt(read: Score.Standing, locked: Score.Standing, now: Time, monthEnd: Time): Score.Standing {
    Score.Charge(read, now, monthEnd)
  }

  function GiveBackAt(read: Score.Standing, locked: Score.Standing, penalty: nat, now: Time): Score.Standing {
    Score.GiveBack(read, penalty, now)
  }

  /** Where the score stands after a charge. */
  function Lowered(st: Score.Standing, now: Time): int {
    var charged := Score.EffectiveScore(st, now) - Score.PENALTY;
    if charged < 0 then 0 else charged
  }

  /**
   * It is the charge it would have been alone if and only if both rows leave the same score. Either way it is sound.
   */
  lemma ChargeIsSerialIff(read: Score.Standing, locked: Score.Standing, now: Time, monthEnd: Time)
    requires Score.Sound(read) && Score.Sound(locked) && Score.MonthAfter(now, monthEnd)
    ensures Score.Sound(ChargeAt(read, locked, now, monthEnd))
    ensures ChargeAt(read, locked, now, monthEnd) == Score.Charge(locked, now, monthEnd)
      <==> Lowered(read, now) == Lowered(locked, now)
  {
  }

  /** Of two late cancellations that read the same row, one charge is lost if and only if the score was above 20. */
  lemma SecondChargeIsLostIff(st: Score.Standing, now: Time, monthEnd: Time)
    requires Score.Sound(st) && Score.MonthAfter(now, monthEnd)
    ensures var first := Score.Charge(st, now, monthEnd);
      ChargeAt(st, first, now, monthEnd) != Score.Charge(first, now, monthEnd)
      <==> Score.EffectiveScore(st, now) > Score.PENALTY
  {
    var first := Score.Charge(st, now, monthEnd);
    Score.ChargeSound(st, now, monthEnd);
    ChargeIsSerialIff(st, first, now, monthEnd);
  }

  /** Of two restorations that read the same row, one is lost if and only if the score was below 80. */
  lemma SecondGiveBackIsLostIff(st: Score.Standing, now: Time)
    requires Score.Sound(st)
    ensures var first := Score.GiveBack(st, Score.PENALTY, now);
      GiveBackAt(st, first, Score.PENALTY, now) != Score.GiveBack(first, Score.PENALTY, now)
      <==> Score.EffectiveScore(st, now) < 100 - Score.PENALTY
  {
  }

  // ---------------------------------------- signing out everywhere while refreshing

  /** All open tokens of a user, found in `snap` and revoked in `t` if they are still open. */
  function RevokeAllAt(snap: S.Table, t: S.Table, user: Id, now: Time): S.Table {
    map i | i in t ::
      if i in S.Open(snap, user) && i in S.Open(t, user) then t[i].(revoked := Some(now)) else t[i]
  }

  /** Some call of the run issued the token in row `i`. */
  ghost predicate IssuedIn(t: S.Table, es: seq<S.Event>, i: Id)
    decreases |es|
  {
    es != [] &&
    (((es[0].call.Login? || es[0].call.Refresh?) && S.Serve(t, es[0]).0 && es[0].id == i)
     || IssuedIn(S.Serve(t, es[0]).1, es[1..], i))
  }

  /** No row id is drawn twice. */
  predicate FreshIds(t: S.Table, es: seq<S.Event>) {
    forall k | 0 <= k < |es| :: es[k].id !in t
  }

  lemma ServeRow(t: S.Table, e: S.Event, i: Id)
    requires i in S.Serve(t, e).1
    ensures ((e.call.Login? || e.call.Refresh?) && S.Serve(t, e).0 && e.id == i)
      || (i in t && S.Serve(t, e).1[i].user == t[i].user && (t[i].revoked.Some? ==> S.Serve(t, e).1[i].revoked.Some?))
  {
  }

  /** Every row at the end was issued on the way, or was there, of the same user, and not more open than now. */
  lemma {:induction false} RowCameFrom(t: S.Table, es: seq<S.Event>, i: Id)
    requires i in S.Run(t, es)
    ensures IssuedIn(t, es, i)
      || (i in t && S.Run(t, es)[i].user == t[i].user && (t[i].revoked.Some? ==> S.Run(t, es)[i].revoked.Some?))
    decreases |es|
  {
    if es != [] {
      RowCameFrom(S.Serve(t, es[0]).1, es[1..], i);
      if i in S.Serve(t, es[0]).1 { ServeRow(t, es[0], i); }
    }
  }

  lemma {:induction false} IssuedIsFresh(t: S.Table, es: seq<S.Event>, i: Id, ids: set<Id>)
    requires IssuedIn(t, es, i) && forall k | 0 <= k < |es| :: es[k].id !in ids
    ensures i !in ids
    decreases |es|
  {
    if es[0].id != i || !S.Serve(t, es[0]).0 || !(es[0].call.Login? || es[0].call.Refresh?) {
      assert forall k | 0 <= k < |es[1..]| :: es[1..][k] == es[k + 1];
      IssuedIsFresh(S.Serve(t, es[0]).1, es[1..], i, ids);
    }
  }

  /** What signing out everywhere leaves open is exactly what was issued between its snapshot and its locks. */
  lemma RevokeAllLeaves(snap: S.Table, es: seq<S.Event>, user: Id, now: Time)
    requires FreshIds(snap, es)
    ensures var t := S.Run(snap, es);
      S.Open(RevokeAllAt(snap, t, user, now), user) == set i | i in S.Open(t, user) && IssuedIn(snap, es, i)
  {
    var t := S.Run(snap, es);
    forall i | i in S.Open(t, user) ensures i !in S.Open(snap, user) <==> IssuedIn(snap, es, i) {
      RowCameFrom(snap, es, i);
      if IssuedIn(snap, es, i) { IssuedIsFresh(snap, es, i, snap.Keys); }
    }
  }

  /** So it ends every session of the user if and only if no token of his, still open, was issued in between. */
  lemma EverySessionEndsIff(snap: S.Table, es: seq<S.Event>, user: Id, now: Time)
    requires FreshIds(snap, es)
    ensures var t := S.Run(snap, es);
      S.Open(RevokeAllAt(snap, t, user, now), user) == {} <==> forall i | i in S.Open(t, user) :: !IssuedIn(snap, es, i)
  {
    RevokeAllLeaves(snap, es, user, now);
    var t := S.Run(snap, es);
    forall i | i in S.Open(t, user) && IssuedIn(snap, es, i)
      ensures i in S.Open(RevokeAllAt(snap, t, user, now), user)
    {
    }
  }

  /** Any refresh that commits in between does it: the session it renewed outlives signing out everywhere. */
  lemma RefreshOutlivesSigningOut(snap: S.Table, e: S.Event, user: Id, now: Time, at: Time)
    requires S.Unique(snap) && e.call.Refresh? && S.Serve(snap, e).0 && at < e.now + e.ttl
    requires S.Serve(snap, e).1[e.id].user == user
    ensures e.id in S.Sessions(RevokeAllAt(snap, S.Serve(snap, e).1, user, now), user, at)
  {
  }
}
