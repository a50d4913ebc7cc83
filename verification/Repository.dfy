// The repositories as they run: each method issues its statements one after another against tables it updates
// in place, and puts everything back when it fails part way. Each is proved to do what the transaction of the
// same name says, so every guarantee proved about those transactions is a guarantee about these methods.

module Repository {
  import opened Domain
  import D = Domain
  import T = Transactions
  import opened Score

  /** A payment in the service's hands, between loading it and writing it back. */
  class LoadedPayment {
    var p: Payment

    constructor (p: Payment)
      ensures this.p == p
    {
      this.p := p;
    }

    /** Applies a gateway answer; says whether the booking should now be confirmed. */
    method Verify(r: GatewayResult, now: Time) returns (confirm: bool, e: Option<Error>)
      modifies this
      ensures (p, e) == D.Verify(old(p), r, now)
      ensures confirm <==> !old(p).status.IsFinal() && RightAnswer(old(p), r)
      ensures confirm ==> p.status == Verified && p.verifiedAt == Some(now) && e.None?
    {
      if p.status.IsFinal() { return false, None; }
      if r.txn.Some? && r.txn.value != p.txn { return false, Some(Internal); }
      if !r.verified {
        p := p.(status := Failed, raw := r.raw, ref := r.ref);
        return false, None;
      }
      if r.amount != p.amount {
        p := p.(status := Failed, raw := r.raw, ref := r.ref);
        return false, Some(Conflict);
      }
      p := p.(status := Verified, ref := r.ref, raw := r.raw, verifiedAt := Some(now));
      return true, None;
    }
  }

  class Tables {
    var bookings: map<Id, Booking>
    var payments: map<Id, Payment>
    var users: map<Id, Standing>
    const owners: map<Id, Id>

    constructor (users: map<Id, Standing>, owners: map<Id, Id>)
      ensures View() == T.DB(map[], map[], users, owners)
    {
      this.users, this.owners, bookings, payments := users, owners, map[], map[];
    }

    function View(): T.DB
      reads this
    {
      T.DB(bookings, payments, users, owners)
    }

    /** The method that started from `before` and answered `e` did exactly what `tx` says. */
    ghost predicate Did(before: T.DB, tx: T.Tx, e: Option<Error>)
      reads this
    {
      && View() == T.InTx(before, tx)
      && (e.None? <==> tx.Commit?)
      && (e.Some? ==> tx == T.Abort(e.value))
    }

    method Rollback(before: T.DB)
      requires before.owners == owners
      modifies this
      ensures View() == before
    {
      bookings, payments, users := before.bookings, before.payments, before.users;
    }

    // ------------------------------------------------------------ bookings

    method CreateHold(now: Time, id: Id, b: Booking) returns (e: Option<Error>)
      modifies this
      ensures Did(old(View()), T.CreateHold(old(View()), now, id, b), e)
    {
      var before := View();
      bookings := T.ReleaseOverlapping(View(), b.court, b.slot, now);
      if T.Taken(bookings, b.court, b.slot, now) {
        Rollback(before);
        return Some(Conflict);
      }
      e := InsertBooking(id, b);
      if e.Some? {
        Rollback(before);
      }
    }

    /** The insert, past the primary key, the checks, the exclusion constraint and the foreign keys. */
    method InsertBooking(id: Id, b: Booking) returns (e: Option<Error>)
      modifies this
      ensures payments == old(payments) && users == old(users)
      ensures e.None? ==> bookings == old(bookings)[id := b]
      ensures e.Some? ==> bookings == old(bookings)
      ensures e == if id in old(bookings) then Some(Internal)
                   else if !T.BookingChecks(b) then Some(Invalid)
                   else if b.status.IsLive() && T.Excluded(old(bookings), b) then Some(Conflict)
                   else if b.court !in owners || b.user !in old(users) then Some(NotFound)
                   else None
    {
      if id in bookings { return Some(Internal); }
      if !T.BookingChecks(b) { return Some(Invalid); }
      if b.status.IsLive() && T.Excluded(bookings, b) { return Some(Conflict); }
      if b.court !in owners || b.user !in users { return Some(NotFound); }
      bookings := bookings[id := b];
      e := None;
    }

    method Cancel(now: Time, bid: Id, user: Id, monthEnd: Time)
      returns (e: Option<Error>, late: bool, standing: Standing)
      modifies this
      ensures Did(old(View()), T.Cancel(old(View()), now, bid, user, monthEnd), e)
      ensures e.None? ==>
        bid in old(bookings) &&
        (late <==> old(bookings)[bid].status == Confirmed && old(bookings)[bid].slot.start - now < 5 * HOUR)
      ensures e.None? && late ==> user in users && standing == users[user]
      ensures e.None? && !late ==>
        user in users && standing == Standing(EffectiveScore(users[user], now), ActiveBan(users[user], now))
    {
      var before := View();
      late, standing := false, Fresh();
      var target := set i | i in bookings && i == bid && bookings[i].user == user && bookings[i].status.CanCancel()
                            && !T.HasOnlineVerified(payments, i);
      if target == {} {
        assert bid !in target;
        return Some(T.WhyNotCancelled(View(), bid, user)), late, standing;
      }
      assert bid in target by {
        var i :| i in target;
      }
      late := bookings[bid].status == Confirmed && bookings[bid].slot.start - now < LATE_WINDOW;
      bookings := bookings[bid := bookings[bid].(status := Cancelled, hold := None, cancelledAt := Some(now),
                                                 penalty := if late then PENALTY else 0)];
      payments := map k | k in payments ::
        if payments[k].booking == bid && payments[k].status == Initiated then payments[k].(status := Failed)
          else payments[k];
      if user !in users {
        Rollback(before);
        return Some(Internal), late, standing;
      }
      if !late {
        standing := Standing(EffectiveScore(users[user], now), ActiveBan(users[user], now));
        return None, late, standing;
      }
      var score := EffectiveScore(users[user], now) - PENALTY;
      if score < 0 { score := 0; }
      users := users[user := Standing(score, if score <= BAN_FLOOR then Some(monthEnd) else None)];
      standing := users[user];
      e := None;
    }

    method RestorePenalty(now: Time, bid: Id, owner: Id) returns (e: Option<Error>)
      modifies this
      ensures Did(old(View()), T.RestorePenalty(old(View()), now, bid, owner), e)
    {
      if !T.OwnedBy(View(), bid, owner) { return Some(NotFound); }
      var b := bookings[bid];
      if b.status != Cancelled || b.penalty == 0 || b.restoredAt.Some? { return Some(Conflict); }
      bookings := bookings[bid := b.(restoredAt := Some(now))];
      if b.user in users {
        var score := EffectiveScore(users[b.user], now) + b.penalty;
        if score > 100 { score := 100; }
        users := users[b.user := Standing(score, if score > BAN_FLOOR then None else ActiveBan(users[b.user], now))];
      }
      e := None;
    }

    method MarkPlayed(now: Time) returns (count: nat)
      modifies this
      ensures View() == T.InTx(old(View()), T.MarkPlayed(old(View()), now))
      ensures count == |set i | i in old(bookings) && T.Played(old(bookings)[i], now)|
    {
      var played := set i | i in bookings && bookings[i].status == Confirmed && bookings[i].slot.end <= now;
      assert played == set i | i in old(bookings) && T.Played(old(bookings)[i], now);
      bookings := map i | i in bookings :: if i in played then bookings[i].(status := Completed) else bookings[i];
      count := |played|;
    }

    method ReleaseStaleHolds(now: Time) returns (count: nat)
      modifies this
      ensures View() == T.InTx(old(View()), T.ReleaseStaleHolds(old(View()), now))
      ensures count == |set i | i in old(bookings) && T.Stale(old(View()), i, now)|
    {
      var ids := set i | i in bookings && T.Stale(View(), i, now);
      assert ids == set i | i in old(bookings) && T.Stale(old(View()), i, now);
      bookings := map i | i in bookings :: if i in ids then T.Released(bookings[i]) else bookings[i];
      count := |ids|;
      if count == 0 {
        assert T.ReleaseStaleHolds(old(View()), now).db.bookings == old(bookings);
        assert T.ReleaseStaleHolds(old(View()), now).db.payments == old(payments);
        return;
      }
      payments := map k | k in payments ::
        if payments[k].booking in ids && payments[k].status == Initiated then payments[k].(status := Failed)
          else payments[k];
    }

    // ------------------------------------------------------------ payments

    method CreatePayment(pid: Id, p: Payment) returns (e: Option<Error>)
      modifies this
      ensures Did(old(View()), T.CreatePayment(old(View()), pid, p), e)
    {
      if pid in payments { return Some(Conflict); }
      e := PutPayment(pid, p);
      if e.Some? && T.TxnTaken(payments, pid, p.txn) {
        e := Some(Conflict);
      }
    }

    /** One row written past every constraint on the table, or nothing. */
    method PutPayment(pid: Id, row: Payment) returns (e: Option<Error>)
      modifies this
      ensures Did(old(View()), T.PutPayment(old(View()), pid, row), e)
    {
      if !T.PaymentChecks(row) || row.booking !in bookings { return Some(Internal); }
      if T.RefTaken(payments, pid, row.provider, row.ref) { return Some(Internal); }
      if T.TxnTaken(payments, pid, row.txn) { return Some(Internal); }
      if T.Kept(row) && T.KeptByAnother(payments, row.booking, pid) { return Some(Internal); }
      payments := payments[pid := row];
      e := None;
    }

    method ConfirmHold(bid: Id) returns (e: Option<Error>)
      modifies this
      ensures Did(old(View()), T.ConfirmHold(old(View()), bid), e)
    {
      if bid in bookings && bookings[bid].status == Pending {
        bookings := bookings[bid := bookings[bid].(status := Confirmed, hold := None)];
        return None;
      }
      if bid !in bookings { return Some(NotFound); }
      e := if bookings[bid].status == Confirmed then None else Some(Conflict);
    }

    method ApplyToBooking(pid: Id, bid: Id) returns (reason: Option<RefundReason>)
      requires bid in bookings
      modifies this
      ensures View() == T.ApplyToBooking(old(View()), pid, bid).0 && reason == T.ApplyToBooking(old(View()), pid, bid).1
    {
      var status := bookings[bid].status;
      var alreadyPaid := T.KeptByAnother(payments, bid, pid);
      reason := None;
      if alreadyPaid {
        reason := Some(AlreadyPaid);
      } else if status == Pending {
        var confirmed := ConfirmHold(bid);
        assert confirmed.None? && View() == T.InTx(old(View()), T.ConfirmHold(old(View()), bid));
      } else if status == Confirmed || status == Completed {
        payments := map k | k in payments ::
          if payments[k].booking == bid && payments[k].provider == Cash && payments[k].status == Initiated
          then payments[k].(status := Failed) else payments[k];
        assert payments == T.CloseCash(old(payments), bid);
      } else {
        reason := Some(BookingGone(status));
      }
    }

    method Settle(now: Time, pid: Id, p: Payment) returns (e: Option<Error>, stored: Option<Payment>)
      modifies this
      ensures Did(old(View()), T.Settle(old(View()), now, pid, p), e)
      ensures e.None? ==> pid in payments && stored == Some(payments[pid])
    {
      var before := View();
      if pid !in payments { return Some(NotFound), None; }
      var row := payments[pid];
      if row.status.IsFinal() { return None, Some(row); }
      if p.status != Verified {
        if row.status == Failed { return None, Some(row); }
        e := PutPayment(pid, row.(status := p.status, ref := p.ref, raw := p.raw));
        stored := if e.None? then Some(payments[pid]) else None;
        return;
      }
      if p.booking !in bookings { return Some(Internal), None; }
      var reason := ApplyToBooking(pid, p.booking);
      var refund := if reason.Some? then Some(Refund(now, reason.value)) else None;
      e := PutPayment(pid,
        row.(status := Verified, ref := p.ref, raw := p.raw, verifiedAt := p.verifiedAt, refund := refund));
      if e.Some? {
        Rollback(before);
        return e, None;
      }
      stored := Some(payments[pid]);
    }

    method ConfirmCash(now: Time, bid: Id) returns (e: Option<Error>)
      modifies this
      ensures Did(old(View()), T.ConfirmCash(old(View()), now, bid), e)
    {
      if bid in bookings && bookings[bid].status == Pending && bookings[bid].hold.Some? &&
        bookings[bid].hold.value > now {
        bookings := bookings[bid := bookings[bid].(status := Confirmed, hold := None)];
        return None;
      }
      if bid !in bookings { return Some(Internal); }
      match bookings[bid].status {
        case Confirmed => e := None;
        case Completed => e := None;
        case _ => e := Some(Conflict);
      }
    }

    method BookCash(now: Time, pid: Id, p: Payment) returns (e: Option<Error>)
      modifies this
      ensures Did(old(View()), T.BookCash(old(View()), now, pid, p), e)
    {
      if p.booking !in bookings { return Some(NotFound); }
      var b := bookings[p.booking];
      var existing := T.HasOpenCash(payments, p.booking);
      if existing && b.status == Confirmed { return None; }
      if b.status != Pending || b.hold.None? || b.hold.value <= now { return Some(Conflict); }
      if !existing {
        if pid in payments { return Some(Internal); }
        e := PutPayment(pid, p);
        if e.Some? { return Some(Internal); }
      }
      e := ConfirmCash(now, p.booking);
      assert e.None?;  // the booking is pending and its hold still runs
    }

    method ApproveCash(now: Time, pid: Id, owner: Id) returns (e: Option<Error>)
      modifies this
      ensures Did(old(View()), T.ApproveCash(old(View()), now, pid, owner), e)
    {
      var p := T.OwnedCash(View(), pid, owner);
      if p.Err? { return Some(p.error); }
      if p.value.status != Initiated && p.value.status != Verified { return Some(Conflict); }
      e := ConfirmCash(now, p.value.booking);
    }

    method DeclineCash(pid: Id, owner: Id) returns (e: Option<Error>)
      modifies this
      ensures Did(old(View()), T.DeclineCash(old(View()), pid, owner), e)
    {
      var before := View();
      var p := T.OwnedCash(View(), pid, owner);
      if p.Err? { return Some(p.error); }
      if p.value.status == Failed { return None; }
      if p.value.status != Initiated { return Some(Conflict); }
      var bid := p.value.booking;
      if bid !in bookings || bookings[bid].status != Pending { return Some(Conflict); }
      bookings := bookings[bid := T.Released(bookings[bid])];
      e := PutPayment(pid, p.value.(status := Failed));
      if e.Some? {
        Rollback(before);
      }
    }

    method MarkCashReceived(now: Time, pid: Id, owner: Id, at: Time) returns (e: Option<Error>)
      modifies this
      ensures Did(old(View()), T.MarkCashReceived(old(View()), now, pid, owner, at), e)
    {
      var before := View();
      var p := T.OwnedCash(View(), pid, owner);
      if p.Err? { return Some(p.error); }
      if p.value.status.IsSettled() { return None; }
      e := ConfirmCash(now, p.value.booking);
      if e.Some? { return; }
      e := PutPayment(pid, p.value.(status := Verified, verifiedAt := Some(at)));
      if e.Some? {
        Rollback(before);
      }
    }

    method MarkRefunded(now: Time, pid: Id, owner: Id) returns (e: Option<Error>)
      modifies this
      ensures Did(old(View()), T.MarkRefunded(old(View()), now, pid, owner), e)
    {
      if pid !in payments || !T.OwnedBy(View(), payments[pid].booking, owner)
         || payments[pid].refund.None? || payments[pid].refundedAt.Some? {
        return Some(NotFound);
      }
      e := PutPayment(pid, payments[pid].(refundedAt := Some(now)));
    }
  }
}
