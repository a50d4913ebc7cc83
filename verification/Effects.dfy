// What each transaction does to the rows it is about, and that it does nothing to the others, on stores that satisfy
// the invariant. Several of the conditions the statements test turn out to be settled by the invariant, so these say
// less than the statements and mean the same.

module Effects {
  import opened Domain
  import opened Transactions
  import opened Invariant
  import opened Preservation
  import opened Protocol
  import opened Guarantees
  import Score
  import Janitor

  lemma LapsedIsUnpaid(db: DB, i: Id, now: Time)
    requires Inv(db) && i in db.bookings
    ensures Stale(db, i, now) <==> db.bookings[i].HoldExpired(now)
  {
    if db.bookings[i].status == Pending {
      forall k | k in db.payments && db.payments[k].booking == i ensures db.payments[k].status != Verified {
        assert PaymentRow(db.bookings, db.payments[k]);
      }
    }
  }

  /** A granted hold cancels the lapsed holds under its slot, and nothing else; there is never a paid one among them. */
  lemma HoldTouchesOnlyLapsed(db: DB, now: Time, id: Id, b: Booking, i: Id)
    requires Inv(db) && CreateHold(db, now, id, b).Commit? && i in db.bookings
    ensures var after := CreateHold(db, now, id, b).db;
      && i in after.bookings && after.payments == db.payments && after.users == db.users
      && after.bookings[i] ==
         if db.bookings[i].court == b.court && db.bookings[i].slot.Overlaps(b.slot) && db.bookings[i].HoldExpired(now)
         then Released(db.bookings[i])
         else db.bookings[i]
  {
    LapsedIsUnpaid(db, i, now);
  }

  /** The sweep cancels every lapsed hold, and no other booking. */
  lemma SweepReleasesTheLapsed(db: DB, now: Time, i: Id)
    requires Inv(db) && i in db.bookings
    ensures var after := InTx(db, ReleaseStaleHolds(db, now));
      && i in after.bookings
      && after.bookings[i] == if db.bookings[i].HoldExpired(now) then Released(db.bookings[i]) else db.bookings[i]
  {
    LapsedIsUnpaid(db, i, now);
  }

  /** And it fails every payment begun on such a hold, and no other. */
  lemma SweepFailsTheirPayments(db: DB, now: Time, k: Id)
    requires Inv(db) && k in db.payments
    ensures var after := InTx(db, ReleaseStaleHolds(db, now)); var p := db.payments[k];
      && k in after.payments && p.booking in db.bookings
      && after.payments[k] == if p.status == Initiated && db.bookings[p.booking].HoldExpired(now)
        then p.(status := Failed) else p
  {
    assert PaymentRow(db.bookings, db.payments[k]);
    LapsedIsUnpaid(db, db.payments[k].booking, now);
  }

  /** After a pass no lapsed hold and no finished game is left, and no payment begun on a hold it released is open. */
  lemma PassLeavesNothingOver(db: DB, released: Time, played: Time)
    requires Inv(db)
    ensures var after := Janitor.Pass(db, released, played);
      && (forall i :: i in after.bookings ==>
           !after.bookings[i].HoldExpired(released) && !Played(after.bookings[i], played))
      && (forall k :: k in db.payments && db.bookings[db.payments[k].booking].HoldExpired(released) ==>
           k in after.payments && after.payments[k].status != Initiated)
  {
    var swept := InTx(db, ReleaseStaleHolds(db, released));
    forall i | i in db.bookings ensures i in swept.bookings && !swept.bookings[i].HoldExpired(released) {
      SweepReleasesTheLapsed(db, released, i);
    }
    forall k | k in db.payments && db.bookings[db.payments[k].booking].HoldExpired(released)
      ensures k in swept.payments && swept.payments[k].status != Initiated
    {
      SweepFailsTheirPayments(db, released, k);
    }
  }

  // --------------------------------------------- when a sweep makes a difference

  function ConfirmedIn(bs: map<Id, Booking>, bid: Id): map<Id, Booking>
    requires bid in bs
  {
    if bs[bid].status == Pending then bs[bid := bs[bid].(status := Confirmed, hold := None)] else bs
  }

  /** What a right answer does to the bookings: it confirms a hold, lapsed or not, and touches nothing else. */
  lemma MoneyConfirms(db: DB, now: Time, pid: Id, p: Payment)
    requires Inv(db) && pid in db.payments && AnswerFor(db.payments[pid], p) && p.status == Verified
    requires db.payments[pid].status != Verified && !RefTaken(db.payments, pid, p.provider, p.ref)
    ensures p.booking in db.bookings
    ensures InTx(db, Settle(db, now, pid, p)).bookings == ConfirmedIn(db.bookings, p.booking)
  {
    assert PaymentRow(db.bookings, db.payments[pid]);
    if db.bookings[p.booking].status == Pending { PendingKeepsNothing(db, p.booking); }
    SettleVerified(db, now, pid, p);
  }

  /** Nobody can tell the two tables apart by what is taken, from `since` on. */
  ghost predicate TakenAlike(a: map<Id, Booking>, b: map<Id, Booking>, since: Time) {
    forall court, slot, at :: since <= at ==> (Taken(a, court, slot, at) <==> Taken(b, court, slot, at))
  }

  predicate RowsAlike(a: Booking, b: Booking, at: Time) {
    a.court == b.court && a.slot == b.slot && (a.Blocks(at) <==> b.Blocks(at))
  }

  ghost predicate BlocksAlike(a: map<Id, Booking>, b: map<Id, Booking>, since: Time) {
    a.Keys == b.Keys && forall i, at :: i in a && since <= at ==> RowsAlike(a[i], b[i], at)
  }

  lemma BlockedAlikeTakenAlike(a: map<Id, Booking>, b: map<Id, Booking>, since: Time)
    requires BlocksAlike(a, b, since)
    ensures TakenAlike(a, b, since)
  {
    forall court, slot, at | since <= at ensures Taken(a, court, slot, at) <==> Taken(b, court, slot, at) {
      if Taken(a, court, slot, at) {
        var i :| i in a && a[i].court == court && a[i].slot.Overlaps(slot) && a[i].Blocks(at);
        assert RowsAlike(a[i], b[i], at);
      }
      if Taken(b, court, slot, at) {
        var i :| i in b && b[i].court == court && b[i].slot.Overlaps(slot) && b[i].Blocks(at);
        assert RowsAlike(a[i], b[i], at);
      }
    }
  }

  lemma SweptBlocksAlike(a: DB, b: DB, now: Time, later: Time)
    requires Janitor.Swept(a, b, now) && now <= later
    ensures BlocksAlike(a.bookings, b.bookings, later)
  {
    forall i, at | i in a.bookings && later <= at ensures RowsAlike(a.bookings[i], b.bookings[i], at) {
      Janitor.SameBlocking(a, b, now, at, i);
    }
  }

  /** A hold that is confirmed in one table and was released in the other shows: nothing else can block its slot. */
  lemma ReleasedShows(a: DB, b: DB, now: Time, later: Time, bid: Id)
    requires Inv(a) && Janitor.Swept(a, b, now) && bid in a.bookings
    requires a.bookings[bid].status == Pending && b.bookings[bid].status == Cancelled
    ensures !TakenAlike(a.bookings[bid := a.bookings[bid].(status := Confirmed, hold := None)], b.bookings, later)
  {
    var row := a.bookings[bid];
    var x := a.bookings[bid := row.(status := Confirmed, hold := None)];
    assert BookingRow(a, row);
    assert x[bid].Blocks(later) && x[bid].slot.Overlaps(row.slot);
    assert Taken(x, row.court, row.slot, later);
    forall j | j in b.bookings && b.bookings[j].court == row.court && b.bookings[j].slot.Overlaps(row.slot)
      ensures !b.bookings[j].Blocks(later)
    {
      assert Janitor.SweptRow(a.bookings[j], b.bookings[j], now);
      assert j != bid ==> !Clash(a.bookings[j], row);
    }
  }

  lemma SameMoney(a: DB, b: DB, now: Time, pid: Id, p: Payment)
    requires Janitor.Swept(a, b, now) && pid in a.payments && AnswerFor(a.payments[pid], p)
    requires a.payments[pid].status != Verified && !RefTaken(a.payments, pid, p.provider, p.ref)
    ensures pid in b.payments && AnswerFor(b.payments[pid], p) && b.payments[pid].status != Verified
    ensures !RefTaken(b.payments, pid, p.provider, p.ref)
  {
    assert forall k | k in b.payments ::
      b.payments[k].provider == a.payments[k].provider && b.payments[k].ref == a.payments[k].ref;
  }

  /**
   * A right answer tells a swept store from an unswept one, by what it then shows as taken, if and only if a sweep had
   * released the hold it is for: the unswept store confirms it, the swept one returns the money.
   */
  lemma MoneySeesTheSweepIff(a: DB, b: DB, now: Time, later: Time, pid: Id, p: Payment)
    requires Inv(a) && Inv(b) && Janitor.Swept(a, b, now) && now <= later
    requires pid in a.payments && AnswerFor(a.payments[pid], p) && p.status == Verified
    requires a.payments[pid].status != Verified && !RefTaken(a.payments, pid, p.provider, p.ref)
    ensures p.booking in a.bookings && p.booking in b.bookings
    ensures TakenAlike(InTx(a, Settle(a, later, pid, p)).bookings, InTx(b, Settle(b, later, pid, p)).bookings, later)
      <==> !(a.bookings[p.booking].HoldExpired(now) && b.bookings[p.booking].status == Cancelled)
  {
    SameMoney(a, b, now, pid, p);
    MoneyConfirms(a, later, pid, p);
    MoneyConfirms(b, later, pid, p);
    var bid := p.booking;
    assert Janitor.SweptRow(a.bookings[bid], b.bookings[bid], now);
    if a.bookings[bid].HoldExpired(now) && b.bookings[bid].status == Cancelled {
      ReleasedShows(a, b, now, later, bid);
    } else {
      SweptBlocksAlike(a, b, now, later);
      ConfirmedAlike(a.bookings, b.bookings, later, bid);
    }
  }

  lemma ConfirmedAlike(a: map<Id, Booking>, b: map<Id, Booking>, since: Time, bid: Id)
    requires BlocksAlike(a, b, since) && bid in a && (a[bid].status == Pending <==> b[bid].status == Pending)
    ensures TakenAlike(ConfirmedIn(a, bid), ConfirmedIn(b, bid), since)
  {
    var x, y := ConfirmedIn(a, bid), ConfirmedIn(b, bid);
    forall i, at | i in x && since <= at ensures RowsAlike(x[i], y[i], at) {
      assert RowsAlike(a[i], b[i], at);
    }
    BlockedAlikeTakenAlike(x, y, since);
  }

  /**
   * A cancelled booking stays cancelled through every later step of a run, with the instant and the price of its
   * cancellation. No cash is ever due for it again, and online money that still arrives for it is flagged.
   */
  lemma CancelledForGood(s: Sys, steps: seq<Step>, i: nat, j: nat, bid: Id, k: Id)
    requires Initial(s) && i <= j <= |steps|
    requires var a := Run(s, steps[..i]).db; bid in a.bookings && a.bookings[bid].status == Cancelled
    ensures var a, b := Run(s, steps[..i]).db, Run(s, steps[..j]).db;
      && bid in b.bookings && b.bookings[bid].status == Cancelled
      && b.bookings[bid].cancelledAt == a.bookings[bid].cancelledAt
      && b.bookings[bid].penalty == a.bookings[bid].penalty
      && (k in b.payments && b.payments[k].booking == bid ==>
           !OpenCash(b.payments[k]) && (OnlineVerified(b.payments, k) ==> Flagged(b.payments[k])))
  {
    RowsEvolve(s, steps, i, j);
    var a, b := Run(s, steps[..i]).db, Run(s, steps[..j]).db;
    assert BookingEvolves(a.bookings[bid], b.bookings[bid]);
    if k in b.payments && b.payments[k].booking == bid {
      assert PaymentRow(b.bookings, b.payments[k]);
    }
  }

  /**
   * Exactly what may be cancelled at any point of a run: the caller's own booking, pending or confirmed, unless some
   * committed callback carried a right answer for a payment on it.
   */
  lemma CancelAllowedIff(s: Sys, steps: seq<Step>, bid: Id, user: Id, monthEnd: Time)
    requires Initial(s)
    ensures var t := Run(s, steps);
      Cancel(t.db, t.now, bid, user, monthEnd).Commit? <==>
        && bid in t.db.bookings && t.db.bookings[bid].user == user && t.db.bookings[bid].status.CanCancel()
        && !RecordedOn(s, steps, bid)
  {
    InitialInv(s);
    RunKeeps(s, steps);
    OnlineMoneySinceIff(s, steps, bid);
    var db := Run(s, steps).db;
    if bid in db.bookings { assert BookingRow(db, db.bookings[bid]); }
  }

  /**
   * The domain has its own rule about who may cancel when. Transaction and rule agree on a booking if and only if it
   * is not the caller's to cancel, or it has begun exactly when there is online money on it.
   */
  lemma CancelFollowsTheRuleIff(db: DB, now: Time, bid: Id, user: Id, monthEnd: Time)
    requires Inv(db) && bid in db.bookings
    ensures var b := db.bookings[bid];
      (Cancel(db, now, bid, user, monthEnd).Commit? <==> CanBeCancelledBy(b, user, now).None?)
      <==> (b.user == user && b.status.CanCancel() ==> (HasOnlineVerified(db.payments, bid) <==> b.slot.start < now))
    ensures var b := db.bookings[bid];
      !(b.user == user && b.status.CanCancel()) ==>
        Cancel(db, now, bid, user, monthEnd) == Abort(CanBeCancelledBy(b, user, now).value)
  {
    assert BookingRow(db, db.bookings[bid]);
  }

  /** An hour into a game the rule says no, and the transaction cancels the booking and charges for it. */
  lemma StartedBookingIsCancelled()
    ensures var b := Booking(0, 0, Slot(10 * HOUR, 12 * HOUR), 900, false, "", Confirmed, None, None, 0, None);
      var db := DB(map[1 := b], map[], map[0 := Score.Fresh()], map[0 := 9]);
      var now := 11 * HOUR;
      && Inv(db) && CanBeCancelledBy(b, 0, now) == Some(Conflict)
      && Cancel(db, now, 1, 0, now + 30 * DAY)
         == Commit(db.(bookings := map[1 := b.(status := Cancelled, cancelledAt := Some(now), penalty := 20)],
                       users := map[0 := Score.Standing(80, None)]))
  {
  }

  /** What a verified payment row becomes. */
  function Recorded(row: Payment, p: Payment, refund: Option<Refund>): Payment {
    row.(status := Verified, ref := p.ref, raw := p.raw, verifiedAt := p.verifiedAt, refund := refund)
  }

  /** The player paid twice: the second payment is recorded whole and flagged, and nothing else changes. */
  lemma SecondPaymentIsFlagged(db: DB, now: Time, pid: Id, p: Payment)
    requires Inv(db) && pid in db.payments && AnswerFor(db.payments[pid], p) && p.status == Verified
    requires db.payments[pid].status != Verified && KeptByAnother(db.payments, p.booking, pid)
    requires !RefTaken(db.payments, pid, p.provider, p.ref)
    ensures Settle(db, now, pid, p)
      == Commit(db.(payments := db.payments[pid := Recorded(db.payments[pid], p, Some(Refund(now, AlreadyPaid)))]))
  {
    assert PaymentRow(db.bookings, db.payments[pid]);
    SettleVerified(db, now, pid, p);
  }

  /** Money for a booking to be paid at the venue: the online payment is kept and the debt at the venue is closed. */
  lemma OnlineReplacesCash(db: DB, now: Time, pid: Id, p: Payment, k: Id)
    requires Inv(db) && pid in db.payments && AnswerFor(db.payments[pid], p) && p.status == Verified
    requires db.payments[pid].status != Verified && !RefTaken(db.payments, pid, p.provider, p.ref)
    requires k in db.payments && db.payments[k].booking == p.booking && OpenCash(db.payments[k])
    ensures Settle(db, now, pid, p) == Commit(db.(payments :=
      db.payments[k := db.payments[k].(status := Failed)][pid := Recorded(db.payments[pid], p, None)]))
  {
    assert PaymentRow(db.bookings, db.payments[k]);
    assert Claim(db.payments[k]);
    assert !KeptByAnother(db.payments, p.booking, pid);
    assert forall j :: j in db.payments && j != k && db.payments[j].booking == p.booking ==> !Claim(db.payments[j]);
    assert CloseCash(db.payments, p.booking) == db.payments[k := db.payments[k].(status := Failed)];
    SettleVerified(db, now, pid, p);
  }

  /**
   * What the venue collects: the debt, if it is open; cash closed by an online payment or a cancellation stays closed.
   */
  lemma CashIsCollected(db: DB, now: Time, pid: Id, owner: Id, at: Time)
    requires Inv(db) && OwnedCash(db, pid, owner).Ok?
    ensures pid in db.payments
    ensures MarkCashReceived(db, now, pid, owner, at) == if db.payments[pid].status == Initiated
      then Commit(db.(payments := db.payments[pid := db.payments[pid].(status := Verified, verifiedAt := Some(at))]))
      else Commit(db)
  {
    MarkCashReceivedKeeps(db, now, pid, owner, at);
    assert PaymentRow(db.bookings, db.payments[pid]);
  }

  /** Saying it twice changes nothing, whenever it is said. */
  lemma CashIsCollectedOnce(db: DB, now: Time, later: Time, pid: Id, owner: Id, at: Time, again: Time)
    requires Inv(db) && OwnedCash(db, pid, owner).Ok?
    ensures var after := InTx(db, MarkCashReceived(db, now, pid, owner, at));
      InTx(after, MarkCashReceived(after, later, pid, owner, again)) == after
  {
    CashIsCollected(db, now, pid, owner, at);
  }
}
