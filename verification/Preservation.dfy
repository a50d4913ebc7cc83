// Every transaction keeps the coupled invariant and respects the evolution of rows, with the consequences
// that make the database's own backstops unreachable.

module Preservation {
  import opened Domain
  import opened Transactions
  import opened Invariant
  import Score

  // ---------------------------------------------------------------- holds

  /** A hold as the service builds it. */
  predicate NewRow(b: Booking) {
    b.status == Pending && b.hold.Some? && b.cancelledAt.None? && b.penalty == 0 && b.restoredAt.None?
  }

  lemma ReleaseMoves(db: DB, court: Id, slot: Slot, now: Time)
    requires Inv(db)
    ensures Good(db, db.(bookings := ReleaseOverlapping(db, court, slot, now)))
  {
    MovesKeep(db, ReleaseOverlapping(db, court, slot, now));
  }

  /** Releasing lapsed holds changes nobody's view of what is taken. */
  lemma ReleaseKeepsTaken(db: DB, court: Id, slot: Slot, now: Time, c: Id, s: Slot)
    ensures Taken(ReleaseOverlapping(db, court, slot, now), c, s, now) <==> Taken(db.bookings, c, s, now)
  {
    var bs := ReleaseOverlapping(db, court, slot, now);
    forall i | i in bs ensures bs[i].Blocks(now) <==> db.bookings[i].Blocks(now) {
    }
    if Taken(bs, c, s, now) {
      var i :| i in bs && bs[i].court == c && bs[i].slot.Overlaps(s) && bs[i].Blocks(now);
      assert db.bookings[i].Blocks(now);
    }
    if Taken(db.bookings, c, s, now) {
      var i :| i in db.bookings && db.bookings[i].court == c && db.bookings[i].slot.Overlaps(s) &&
        db.bookings[i].Blocks(now);
      assert bs[i].Blocks(now);
    }
  }

  /** Once lapsed holds are released and nothing blocks, nothing the exclusion constraint counts is left either. */
  lemma PreCheckSuffices(db: DB, now: Time, b: Booking)
    requires Inv(db)
    requires !Taken(ReleaseOverlapping(db, b.court, b.slot, now), b.court, b.slot, now)
    ensures !Excluded(ReleaseOverlapping(db, b.court, b.slot, now), b)
  {
    var bs := ReleaseOverlapping(db, b.court, b.slot, now);
    forall i | i in bs ensures !Clash(bs[i], b) {
      if Clash(bs[i], b) {
        assert BookingRow(db, db.bookings[i]);
        assert !bs[i].Blocks(now) && Stale(db, i, now) by {
          forall k | k in db.payments && db.payments[k].booking == i ensures db.payments[k].status != Verified {
            assert PaymentRow(db.bookings, db.payments[k]);
          }
        }
      }
    }
  }

  /** Exactly when a hold is granted; the exclusion constraint is never the reason it is not. */
  lemma HoldGrantedIff(db: DB, now: Time, id: Id, b: Booking)
    requires Inv(db)
    ensures CreateHold(db, now, id, b).Commit? <==>
      !Taken(db.bookings, b.court, b.slot, now) && id !in db.bookings && BookingChecks(b)
      && b.court in db.owners && b.user in db.users
    ensures Taken(db.bookings, b.court, b.slot, now) ==> CreateHold(db, now, id, b) == Abort(Conflict)
    ensures CreateHold(db, now, id, b) == Abort(Conflict) ==> Taken(db.bookings, b.court, b.slot, now)
  {
    ReleaseKeepsTaken(db, b.court, b.slot, now, b.court, b.slot);
    if !Taken(db.bookings, b.court, b.slot, now) {
      PreCheckSuffices(db, now, b);
    }
  }

  lemma CreateHoldKeeps(db: DB, now: Time, id: Id, b: Booking)
    requires Inv(db) && NewRow(b)
    ensures Good(db, InTx(db, CreateHold(db, now, id, b)))
  {
    var tx := CreateHold(db, now, id, b);
    if tx.Commit? {
      var released := db.(bookings := ReleaseOverlapping(db, b.court, b.slot, now));
      ReleaseMoves(db, b.court, b.slot, now);
      InsertKeeps(released, id, b);
      GoodThen(db, released, tx.db);
    }
  }

  // ------------------------------------------------------------- lifecycle

  /** Once the open payments of a booking without kept online money have failed, its row may move to cancelled. */
  lemma CancelMoves(db: DB, now: Time, bid: Id)
    requires bid in db.bookings && db.bookings[bid].status.CanCancel() && !HasOnlineKept(db.payments, bid)
    ensures OnlyFails(db.payments, FailInitiated(db.payments, bid))
    ensures Moves(db.(payments := FailInitiated(db.payments, bid)),
      db.bookings[bid := CancelledRow(db.bookings[bid], now)])
  {
    var ps := FailInitiated(db.payments, bid);
    assert !HasOpenCash(ps, bid) && !HasOnlineKept(ps, bid);
  }

  /** The booking's half of a cancellation: its open payments fail, then the row is cancelled. */
  lemma CancelRowKeeps(db: DB, now: Time, bid: Id)
    requires Inv(db) && bid in db.bookings && db.bookings[bid].status.CanCancel() && !HasOnlineKept(db.payments, bid)
    ensures Good(db, db.(payments := FailInitiated(db.payments, bid),
                         bookings := db.bookings[bid := CancelledRow(db.bookings[bid], now)]))
  {
    var failed := db.(payments := FailInitiated(db.payments, bid));
    var bs := db.bookings[bid := CancelledRow(db.bookings[bid], now)];
    CancelMoves(db, now, bid);
    FailsKeep(db, failed.payments);
    MovesKeep(failed, bs);
    GoodThen(db, failed, failed.(bookings := bs));
  }

  /** What a cancellation writes is sound as long as no online money is kept for the booking. */
  lemma WriteCancellationKeeps(db: DB, now: Time, bid: Id, user: Id, monthEnd: Time)
    requires Inv(db) && Score.MonthAfter(now, monthEnd)
    requires bid in db.bookings && db.bookings[bid].status.CanCancel() && !HasOnlineKept(db.payments, bid)
    ensures Good(db, InTx(db, WriteCancellation(db, now, bid, user, monthEnd)))
  {
    var tx := WriteCancellation(db, now, bid, user, monthEnd);
    if tx.Commit? {
      var b := db.bookings[bid];
      var cancelled := db.(payments := FailInitiated(db.payments, bid),
                           bookings := db.bookings[bid := CancelledRow(b, now)]);
      CancelRowKeeps(db, now, bid);
      if IsLate(b, now) {
        assert Score.Sound(db.users[user]);
        Score.ChargeSound(db.users[user], now, monthEnd);
        UserKeeps(cancelled, user, Score.Charge(db.users[user], now, monthEnd));
        GoodThen(db, cancelled, tx.db);
      }
    } else {
      GoodRefl(db);
    }
  }

  lemma CancelKeeps(db: DB, now: Time, bid: Id, user: Id, monthEnd: Time)
    requires Inv(db) && Score.MonthAfter(now, monthEnd)
    ensures Good(db, InTx(db, Cancel(db, now, bid, user, monthEnd)))
  {
    if Cancellable(db, bid, user) {
      WriteCancellationKeeps(db, now, bid, user, monthEnd);
    } else {
      GoodRefl(db);
    }
  }

  lemma RestorePenaltyKeeps(db: DB, now: Time, bid: Id, owner: Id)
    requires Inv(db)
    ensures Good(db, InTx(db, RestorePenalty(db, now, bid, owner)))
  {
    var tx := RestorePenalty(db, now, bid, owner);
    if tx.Commit? {
      var b := db.bookings[bid];
      assert BookingRow(db, b);
      var marked := db.(bookings := db.bookings[bid := b.(restoredAt := Some(now))]);
      MovesKeep(db, marked.bookings);
      assert Score.Sound(db.users[b.user]);
      Score.GiveBackSound(db.users[b.user], b.penalty, now);
      UserKeeps(marked, b.user, Score.GiveBack(db.users[b.user], b.penalty, now));
      GoodThen(db, marked, tx.db);
    }
  }

  lemma MarkPlayedKeeps(db: DB, now: Time)
    requires Inv(db)
    ensures Good(db, InTx(db, MarkPlayed(db, now)))
  {
    MovesKeep(db, MarkPlayed(db, now).db.bookings);
  }

  lemma ReleaseStaleHoldsKeeps(db: DB, now: Time)
    requires Inv(db)
    ensures Good(db, InTx(db, ReleaseStaleHolds(db, now)))
  {
    var after := ReleaseStaleHolds(db, now).db;
    var failed := db.(payments := after.payments);
    FailsKeep(db, after.payments);
    MovesKeep(failed, after.bookings);
    GoodThen(db, failed, after);
  }

  // -------------------------------------------------------------- payments

  /** A payment row as checkout builds it: for a known booking, at that booking's price. */
  predicate Intent(db: DB, p: Payment) {
    && p.booking in db.bookings && p.amount == db.bookings[p.booking].price && p.amount > 0
    && p.status == Initiated && p.ref == "" && p.verifiedAt.None? && p.refund.None? && p.refundedAt.None?
  }

  lemma CreatePaymentKeeps(db: DB, pid: Id, p: Payment)
    requires Inv(db) && Intent(db, p) && p.provider.IsOnline()
    ensures Good(db, InTx(db, CreatePayment(db, pid, p)))
  {
    if pid !in db.payments {
      PutKeeps(db, pid, p);
    }
  }

  /** The gateway's answer, on a copy of the payment the callback loaded earlier. */
  predicate AnswerFor(row: Payment, p: Payment) {
    && p.booking == row.booking && p.provider == row.provider && row.provider.IsOnline()
    && p.amount == row.amount && p.txn == row.txn
    && p.status != Refunded && (p.status == Verified <==> p.verifiedAt.Some?)
  }

  lemma ApplyKeeps(db: DB, pid: Id, bid: Id)
    requires Inv(db) && bid in db.bookings && pid in db.payments && db.payments[pid].booking == bid
    requires db.payments[pid].provider.IsOnline()
    ensures Good(db, ApplyToBooking(db, pid, bid).0)
    ensures ApplyToBooking(db, pid, bid).0.payments.Keys == db.payments.Keys
    ensures ApplyToBooking(db, pid, bid).0.payments[pid] == db.payments[pid]
  {
    GoodRefl(db);
    if KeptByAnother(db.payments, bid, pid) {
    } else if db.bookings[bid].status == Pending {
      MovesKeep(db, ApplyToBooking(db, pid, bid).0.bookings);
    } else {
      FailsKeep(db, CloseCash(db.payments, bid));
    }
  }

  /** Why the row written after `ApplyToBooking` competes with nothing. */
  lemma ApplyClears(db: DB, pid: Id, bid: Id, k: Id)
    requires Inv(db) && bid in db.bookings && pid in db.payments && db.payments[pid].booking == bid
    requires ApplyToBooking(db, pid, bid).1.None?
    requires k in ApplyToBooking(db, pid, bid).0.payments && k != pid
    ensures Claim(ApplyToBooking(db, pid, bid).0.payments[k]) ==>
      ApplyToBooking(db, pid, bid).0.payments[k].booking != bid
  {
    assert PaymentRow(db.bookings, db.payments[k]);
  }

  /** What `Settle` writes when the money moved. */
  function SettledRow(db: DB, now: Time, pid: Id, p: Payment): Payment
    requires pid in db.payments && p.booking in db.bookings
  {
    var reason := ApplyToBooking(db, pid, p.booking).1;
    db.payments[pid].(status := Verified, ref := p.ref, raw := p.raw, verifiedAt := p.verifiedAt,
      refund := if reason.Some? then Some(Refund(now, reason.value)) else None)
  }

  lemma SettledRowOk(db: DB, now: Time, pid: Id, p: Payment)
    requires Inv(db) && pid in db.payments && AnswerFor(db.payments[pid], p)
    requires p.status == Verified && !db.payments[pid].status.IsFinal()
    ensures p.booking in db.bookings
    ensures PutOk(ApplyToBooking(db, pid, p.booking).0, pid, SettledRow(db, now, pid, p))
  {
    assert PaymentRow(db.bookings, db.payments[pid]);
    ApplyKeeps(db, pid, p.booking);
    SettledRowFits(db, now, pid, p);
    if ApplyToBooking(db, pid, p.booking).1.None? {
      var applied := ApplyToBooking(db, pid, p.booking).0;
      forall k | k in applied.payments && k != pid && Claim(applied.payments[k])
        ensures applied.payments[k].booking != p.booking
      {
        ApplyClears(db, pid, p.booking, k);
      }
    }
  }

  /** The row written for money that moved fits the booking as the money has left it. */
  lemma SettledRowFits(db: DB, now: Time, pid: Id, p: Payment)
    requires Inv(db) && pid in db.payments && AnswerFor(db.payments[pid], p)
    requires p.status == Verified && !db.payments[pid].status.IsFinal() && p.booking in db.bookings
    ensures var (applied, reason) := ApplyToBooking(db, pid, p.booking); var row := SettledRow(db, now, pid, p);
      && PaymentRow(applied.bookings, row) && PaymentEvolves(db.payments[pid], row)
      && (reason.Some? ==> applied == db && !Claim(row))
      && (reason.Some? ==> db.bookings[p.booking].status == Cancelled || KeptByAnother(db.payments, p.booking, pid))
  {
    assert PaymentRow(db.bookings, db.payments[pid]);
    assert BookingRow(db, db.bookings[p.booking]);
  }

  lemma SettleIsPut(db: DB, now: Time, pid: Id, p: Payment)
    requires pid in db.payments && p.booking in db.bookings && p.status == Verified &&
      !db.payments[pid].status.IsFinal()
    ensures Settle(db, now, pid, p)
      == PutPayment(ApplyToBooking(db, pid, p.booking).0, pid, SettledRow(db, now, pid, p))
  {
  }

  /** A right answer is written, whatever became of the booking, unless its reference is on another payment already. */
  lemma SettleVerified(db: DB, now: Time, pid: Id, p: Payment)
    requires Inv(db) && pid in db.payments && AnswerFor(db.payments[pid], p)
    requires p.status == Verified && !db.payments[pid].status.IsFinal()
    ensures Good(db, InTx(db, Settle(db, now, pid, p)))
    ensures Settle(db, now, pid, p).Commit? <==> !RefTaken(db.payments, pid, p.provider, p.ref)
    ensures Settle(db, now, pid, p).Commit? ==>
      p.booking in db.bookings && Settle(db, now, pid, p).db
        == ApplyToBooking(db, pid, p.booking).0.(payments :=
          ApplyToBooking(db, pid, p.booking).0.payments[pid := SettledRow(db, now, pid, p)])
  {
    SettledRowOk(db, now, pid, p);
    SettleIsPut(db, now, pid, p);
    SettleByPut(db, ApplyToBooking(db, pid, p.booking).0, pid, p.booking, SettledRow(db, now, pid, p));
  }

  lemma SettleByPut(db: DB, applied: DB, pid: Id, bid: Id, row: Payment)
    requires Inv(db) && bid in db.bookings && pid in db.payments && db.payments[pid].booking == bid
    requires db.payments[pid].provider.IsOnline() && row.txn == db.payments[pid].txn
    requires applied == ApplyToBooking(db, pid, bid).0 && PutOk(applied, pid, row)
    ensures Good(db, InTx(db, PutPayment(applied, pid, row)))
    ensures PutPayment(applied, pid, row).Commit? <==> !RefTaken(db.payments, pid, row.provider, row.ref)
    ensures PutPayment(applied, pid, row).Commit? ==>
      PutPayment(applied, pid, row).db == applied.(payments := applied.payments[pid := row])
  {
    ApplyKeeps(db, pid, bid);
    PutKeeps(applied, pid, row);
    ApplySameKeys(db, pid, bid, row);
    if PutPayment(applied, pid, row).Commit? {
      GoodThen(db, applied, PutPayment(applied, pid, row).db);
    } else {
      GoodRefl(db);
    }
  }

  lemma GoodRefl(db: DB)
    requires Inv(db)
    ensures Good(db, db)
  {
  }

  lemma ApplySameKeys(db: DB, pid: Id, bid: Id, row: Payment)
    requires bid in db.bookings && pid in db.payments && KeysUnique(db.payments) && row.txn == db.payments[pid].txn
    ensures RefTaken(ApplyToBooking(db, pid, bid).0.payments, pid, row.provider, row.ref)
      <==> RefTaken(db.payments, pid, row.provider, row.ref)
    ensures !TxnTaken(ApplyToBooking(db, pid, bid).0.payments, pid, row.txn)
  {
    var ps := ApplyToBooking(db, pid, bid).0.payments;
    forall k | k in ps
      ensures k in db.payments && ps[k].ref == db.payments[k].ref && ps[k].provider == db.payments[k].provider &&
        ps[k].txn == db.payments[k].txn
    {
    }
    if RefTaken(db.payments, pid, row.provider, row.ref) {
      var k :| k in db.payments && k != pid && db.payments[k].provider == row.provider && db.payments[k].ref == row.ref;
      assert k in ps && ps[k].ref == row.ref;
    }
  }

  lemma SettleKeeps(db: DB, now: Time, pid: Id, p: Payment)
    requires Inv(db) && (pid in db.payments ==> AnswerFor(db.payments[pid], p))
    ensures Good(db, InTx(db, Settle(db, now, pid, p)))
  {
    if pid in db.payments && !db.payments[pid].status.IsFinal() {
      var row := db.payments[pid];
      if p.status == Verified {
        SettleVerified(db, now, pid, p);
      } else if row.status != Failed {
        assert PaymentRow(db.bookings, row);
        PutKeeps(db, pid, row.(status := p.status, ref := p.ref, raw := p.raw));
      }
    }
  }

  lemma ConfirmCashKeeps(db: DB, now: Time, bid: Id)
    requires Inv(db)
    ensures Good(db, InTx(db, ConfirmCash(db, now, bid)))
  {
    if ConfirmCash(db, now, bid).Commit? {
      MovesKeep(db, ConfirmCash(db, now, bid).db.bookings);
    }
  }

  lemma PendingHasNoClaim(db: DB, bid: Id)
    requires Inv(db) && bid in db.bookings && db.bookings[bid].status == Pending
    ensures forall k | k in db.payments && db.payments[k].booking == bid :: !Claim(db.payments[k])
    ensures !HasOpenCash(db.payments, bid)
  {
    forall k | k in db.payments && db.payments[k].booking == bid ensures !Claim(db.payments[k]) {
      assert PaymentRow(db.bookings, db.payments[k]);
    }
  }

  lemma CashPutOk(db: DB, now: Time, pid: Id, p: Payment)
    requires Inv(db) && Intent(db, p) && p.provider == Cash && pid !in db.payments
    requires db.bookings[p.booking].status == Pending && ConfirmCash(db, now, p.booking).Commit?
    ensures PutOk(ConfirmCash(db, now, p.booking).db, pid, p)
  {
    PendingHasNoClaim(db, p.booking);
  }

  /** Insert and confirm are swapped here: with the booking confirmed first, every state on the way is sound. */
  lemma BookCashKeeps(db: DB, now: Time, pid: Id, p: Payment)
    requires Inv(db) && Intent(db, p) && p.provider == Cash
    ensures Good(db, InTx(db, BookCash(db, now, pid, p)))
  {
    GoodRefl(db);
    if BookCash(db, now, pid, p).Commit? && db.bookings[p.booking].status == Pending {
      PendingHasNoClaim(db, p.booking);
      ConfirmCashKeeps(db, now, p.booking);
      CashPutOk(db, now, pid, p);
      var confirmed := ConfirmCash(db, now, p.booking).db;
      PutKeeps(confirmed, pid, p);
      assert BookCash(db, now, pid, p).db == PutPayment(confirmed, pid, p).db;
      GoodThen(db, confirmed, BookCash(db, now, pid, p).db);
    }
  }

  /** Cash bookings are confirmed when they are made, so approving and declining no longer change anything. */
  lemma ApproveDeclineIdle(db: DB, now: Time, pid: Id, owner: Id)
    requires Inv(db)
    ensures InTx(db, ApproveCash(db, now, pid, owner)) == db
    ensures InTx(db, DeclineCash(db, pid, owner)) == db
  {
    if OwnedCash(db, pid, owner).Ok? {
      assert PaymentRow(db.bookings, db.payments[pid]);
    }
  }

  /** An open cash payment can always be collected by its venue, and never over another payment kept for the booking. */
  lemma MarkCashReceivedKeeps(db: DB, now: Time, pid: Id, owner: Id, at: Time)
    requires Inv(db)
    ensures Good(db, InTx(db, MarkCashReceived(db, now, pid, owner, at)))
    ensures OwnedCash(db, pid, owner).Ok? ==> MarkCashReceived(db, now, pid, owner, at).Commit?
  {
    if OwnedCash(db, pid, owner).Ok? {
      var p := db.payments[pid];
      assert PaymentRow(db.bookings, p);
      if p.status == Initiated {
        var row := p.(status := Verified, verifiedAt := Some(at));
        assert Claim(p);
        PutKeeps(db, pid, row);
        assert !RefTaken(db.payments, pid, row.provider, row.ref) && !TxnTaken(db.payments, pid, row.txn);
      }
    }
  }

  lemma MarkRefundedKeeps(db: DB, now: Time, pid: Id, owner: Id)
    requires Inv(db)
    ensures Good(db, InTx(db, MarkRefunded(db, now, pid, owner)))
  {
    if MarkRefunded(db, now, pid, owner).Commit? {
      var p := db.payments[pid];
      assert PaymentRow(db.bookings, p) && Explained(db, p);
      if db.bookings[p.booking].status != Cancelled {
        assert HasKept(db.payments, p.booking) && !Kept(p);
      }
      PutKeeps(db, pid, p.(refundedAt := Some(now)));
    }
  }
}
