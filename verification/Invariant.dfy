// The coupled invariant of the booking and payment tables, how rows may evolve, and the proof that every
// transaction keeps the one and respects the other. The proof goes through six shapes of change: bookings
// moving on, payments failing, one payment row written, one booking inserted, and one user row replaced.

module Invariant {
  import opened Domain
  import opened Transactions
  import Score

  // ------------------------------------------------------------- invariant

  predicate BookingRow(db: DB, b: Booking) {
    && (b.status == Pending <==> b.hold.Some?)
    && b.status != NoShow
    && b.slot.start < b.slot.end
    && b.user in db.users && b.court in db.owners
    && (b.penalty > 0 ==> b.status == Cancelled && b.penalty == Score.PENALTY)
    && (b.restoredAt.Some? ==> b.penalty > 0)
  }

  predicate BookingRows(db: DB) {
    forall i :: i in db.bookings ==> BookingRow(db, db.bookings[i])
  }

  /** No two bookings on one court that are neither cancelled nor a no-show share an instant. */
  predicate NoOverlap(bs: map<Id, Booking>) {
    forall i, j :: i in bs && j in bs && i != j ==> !Clash(bs[i], bs[j])
  }

  predicate Stands(b: Booking) { b.status == Confirmed || b.status == Completed }

  predicate PaymentRow(bs: map<Id, Booking>, p: Payment) {
    && PaymentChecks(p) && p.status != Refunded
    && p.booking in bs && p.amount == bs[p.booking].price
    && (p.status == Verified ==> bs[p.booking].status != Pending)
    && (OpenCash(p) ==> Stands(bs[p.booking]))
    && (Kept(p) && p.provider.IsOnline() ==> Stands(bs[p.booking]))
    && (Flagged(p) ==> p.provider.IsOnline())
  }

  predicate PaymentRows(db: DB) {
    forall i :: i in db.payments ==> PaymentRow(db.bookings, db.payments[i])
  }

  /** The payment stands for the price of its booking: money kept for it, or cash still to be collected. */
  predicate Claim(p: Payment) { Kept(p) || OpenCash(p) }

  predicate OneClaim(ps: map<Id, Payment>) {
    forall i, j :: i in ps && j in ps && i != j && Claim(ps[i]) && Claim(ps[j]) ==> ps[i].booking != ps[j].booking
  }

  predicate Explained(db: DB, p: Payment) {
    p.booking in db.bookings && (db.bookings[p.booking].status == Cancelled || HasKept(db.payments, p.booking))
  }

  predicate FlagsExplained(db: DB) {
    forall i :: i in db.payments && Flagged(db.payments[i]) ==> Explained(db, db.payments[i])
  }

  predicate KeysUnique(ps: map<Id, Payment>) {
    && (forall i, j :: i in ps && j in ps && i != j ==> ps[i].txn != ps[j].txn)
    && (forall i, j :: i in ps && j in ps && i != j && ps[i].ref != "" && ps[i].provider == ps[j].provider
          ==> ps[i].ref != ps[j].ref)
  }

  predicate UsersSound(users: map<Id, Score.Standing>) {
    forall u :: u in users ==> Score.Sound(users[u])
  }

  predicate Inv(db: DB) {
    && BookingRows(db) && NoOverlap(db.bookings)
    && PaymentRows(db) && OneClaim(db.payments) && FlagsExplained(db) && KeysUnique(db.payments)
    && UsersSound(db.users)
  }

  // -------------------------------------------------------------- evolution

  predicate CanBecome(a: BookingStatus, b: BookingStatus) {
    a == b || (a == Pending && b != NoShow) || (a == Confirmed && (b == Completed || b == Cancelled))
  }

  /** What a booking row keeps for good. */
  predicate BookingEvolves(a: Booking, b: Booking) {
    && b.court == a.court && b.user == a.user && b.slot == a.slot && b.price == a.price && b.isPeak == a.isPeak &&
      b.note == a.note
    && CanBecome(a.status, b.status)
    && (a.status == Cancelled ==> b.penalty == a.penalty && b.cancelledAt == a.cancelledAt)
    && (a.restoredAt.Some? ==> b.restoredAt == a.restoredAt)
  }

  function Rank(s: PaymentStatus): nat {
    match s case Initiated => 0 case Failed => 1 case Verified => 2 case Refunded => 3
  }

  /** Status only climbs, and a verified row is frozen but for the venue saying it sent the money back, once. */
  predicate PaymentEvolves(a: Payment, b: Payment) {
    && b.booking == a.booking && b.provider == a.provider && b.amount == a.amount && b.txn == a.txn
    && Rank(a.status) <= Rank(b.status)
    && (a.status == Verified ==> b == a.(refundedAt := b.refundedAt))
    && (a.refundedAt.Some? ==> b.refundedAt == a.refundedAt)
  }

  predicate Evolves(a: DB, b: DB) {
    && b.owners == a.owners && b.users.Keys == a.users.Keys
    && (forall i :: i in a.bookings ==> i in b.bookings && BookingEvolves(a.bookings[i], b.bookings[i]))
    && (forall i :: i in a.payments ==> i in b.payments && PaymentEvolves(a.payments[i], b.payments[i]))
  }

  lemma EvolvesTransitive(a: DB, b: DB, c: DB)
    requires Evolves(a, b) && Evolves(b, c)
    ensures Evolves(a, c)
  {
    forall i | i in a.bookings ensures i in c.bookings && BookingEvolves(a.bookings[i], c.bookings[i]) {
      assert BookingEvolves(a.bookings[i], b.bookings[i]) && BookingEvolves(b.bookings[i], c.bookings[i]);
    }
    forall i | i in a.payments ensures i in c.payments && PaymentEvolves(a.payments[i], c.payments[i]) {
      assert PaymentEvolves(a.payments[i], b.payments[i]) && PaymentEvolves(b.payments[i], c.payments[i]);
    }
  }

  /** A step from `a` that keeps the invariant and respects the evolution of every row. */
  predicate Good(a: DB, b: DB) { Inv(b) && Evolves(a, b) }

  lemma GoodThen(a: DB, b: DB, c: DB)
    requires Good(a, b) && Good(b, c)
    ensures Good(a, c)
  {
    EvolvesTransitive(a, b, c);
  }

  // ------------------------------------------------------- shapes of change

  /** One row moving on in its life, given which payments are on it. */
  predicate MoveOk(ps: map<Id, Payment>, bid: Id, a: Booking, b: Booking) {
    || b == a
    || (a.status == Pending && b == Released(a))
    || (a.status == Pending && b == a.(status := Confirmed, hold := None))
    || (a.status == Confirmed && b == a.(status := Completed))
    || (a.status.CanCancel() && !HasOpenCash(ps, bid) && !HasOnlineKept(ps, bid)
        && b == a.(status := Cancelled, hold := None, cancelledAt := b.cancelledAt, penalty := b.penalty)
        && (b.penalty == 0 || b.penalty == Score.PENALTY))
    || (a.status == Cancelled && a.penalty > 0 && a.restoredAt.None? && b == a.(restoredAt := b.restoredAt))
  }

  predicate Moves(db: DB, bs: map<Id, Booking>) {
    bs.Keys == db.bookings.Keys && forall i :: i in bs ==> MoveOk(db.payments, i, db.bookings[i], bs[i])
  }

  lemma MoveKeepsRow(db: DB, bs: map<Id, Booking>, i: Id)
    requires BookingRows(db) && Moves(db, bs) && i in bs
    ensures BookingRow(db.(bookings := bs), bs[i]) && BookingEvolves(db.bookings[i], bs[i])
    ensures bs[i].status.IsLive() ==> db.bookings[i].status.IsLive()
  {
    assert BookingRow(db, db.bookings[i]) && MoveOk(db.payments, i, db.bookings[i], bs[i]);
  }

  lemma MoveKeepsPayment(db: DB, bs: map<Id, Booking>, k: Id)
    requires PaymentRows(db) && FlagsExplained(db) && Moves(db, bs) && k in db.payments
    ensures PaymentRow(bs, db.payments[k])
    ensures Flagged(db.payments[k]) ==> Explained(db.(bookings := bs), db.payments[k])
  {
    var p := db.payments[k];
    assert PaymentRow(db.bookings, p);
    assert MoveOk(db.payments, p.booking, db.bookings[p.booking], bs[p.booking]);
    assert Flagged(p) ==> Explained(db, p);
  }

  lemma MovesKeep(db: DB, bs: map<Id, Booking>)
    requires Inv(db) && Moves(db, bs)
    ensures Good(db, db.(bookings := bs))
  {
    var after := db.(bookings := bs);
    forall i | i in bs ensures BookingRow(after, bs[i]) && BookingEvolves(db.bookings[i], bs[i]) {
      MoveKeepsRow(db, bs, i);
    }
    forall i, j | i in bs && j in bs && i != j ensures !Clash(bs[i], bs[j]) {
      MoveKeepsRow(db, bs, i);
      MoveKeepsRow(db, bs, j);
      assert !Clash(db.bookings[i], db.bookings[j]);
    }
    forall k | k in db.payments
      ensures PaymentRow(bs, db.payments[k]) && (Flagged(db.payments[k]) ==> Explained(after, db.payments[k]))
    {
      MoveKeepsPayment(db, bs, k);
    }
  }

  /** Some initiated payments fail; nothing else changes. */
  predicate OnlyFails(a: map<Id, Payment>, b: map<Id, Payment>) {
    b.Keys == a.Keys && forall i :: i in a ==>
      b[i] == a[i] || (a[i].status == Initiated && b[i] == a[i].(status := Failed))
  }

  lemma FailsKeepPairs(a: map<Id, Payment>, b: map<Id, Payment>)
    requires OneClaim(a) && KeysUnique(a) && OnlyFails(a, b)
    ensures OneClaim(b) && KeysUnique(b)
  {
    forall i | i in b ensures (Claim(b[i]) ==> Claim(a[i])) && b[i] == a[i].(status := b[i].status) {
    }
  }

  lemma FailsKeepRow(db: DB, ps: map<Id, Payment>, i: Id)
    requires PaymentRows(db) && FlagsExplained(db) && OnlyFails(db.payments, ps) && i in ps
    ensures PaymentRow(db.bookings, ps[i]) && PaymentEvolves(db.payments[i], ps[i])
    ensures Flagged(ps[i]) ==> Explained(db.(payments := ps), ps[i])
  {
    assert PaymentRow(db.bookings, db.payments[i]);
    if Flagged(ps[i]) {
      assert ps[i] == db.payments[i] && Explained(db, db.payments[i]);
      if HasKept(db.payments, ps[i].booking) {
        var k :| k in db.payments && db.payments[k].booking == ps[i].booking && Kept(db.payments[k]);
        assert ps[k] == db.payments[k];
      }
    }
  }

  lemma FailsKeep(db: DB, ps: map<Id, Payment>)
    requires Inv(db) && OnlyFails(db.payments, ps)
    ensures Good(db, db.(payments := ps))
  {
    var after := db.(payments := ps);
    FailsKeepPairs(db.payments, ps);
    forall i | i in ps
      ensures PaymentRow(db.bookings, ps[i]) && PaymentEvolves(db.payments[i], ps[i]) &&
        (Flagged(ps[i]) ==> Explained(after, ps[i]))
    {
      FailsKeepRow(db, ps, i);
    }
    forall i | i in db.bookings ensures BookingRow(after, db.bookings[i]) {
      assert BookingRow(db, db.bookings[i]);
    }
  }

  /** A row that may be written under `pid`: it continues the row there, and it does not compete for its booking. */
  predicate PutOk(db: DB, pid: Id, row: Payment) {
    && PaymentRow(db.bookings, row)
    && (pid in db.payments ==> PaymentEvolves(db.payments[pid], row))
    && (Claim(row) ==> forall i :: i in db.payments && i != pid && Claim(db.payments[i]) ==>
      db.payments[i].booking != row.booking)
    && (Flagged(row) ==> db.bookings[row.booking].status == Cancelled || KeptByAnother(db.payments, row.booking, pid))
  }

  lemma PutKeeps(db: DB, pid: Id, row: Payment)
    requires Inv(db) && PutOk(db, pid, row)
    ensures Good(db, InTx(db, PutPayment(db, pid, row)))
    ensures PutPayment(db, pid, row).Abort?
      <==> RefTaken(db.payments, pid, row.provider, row.ref) || TxnTaken(db.payments, pid, row.txn)
  {
    assert !(Kept(row) && KeptByAnother(db.payments, row.booking, pid));
    if !RefTaken(db.payments, pid, row.provider, row.ref) && !TxnTaken(db.payments, pid, row.txn) {
      PutKeepsPairs(db, pid, row);
      PutKeepsRows(db, pid, row);
      PutEvolves(db, pid, row);
    } else {
      MoreRowsEvolve(db, db);
    }
  }

  lemma PutKeepsRows(db: DB, pid: Id, row: Payment)
    requires Inv(db) && PutOk(db, pid, row)
    ensures var after := db.(payments := db.payments[pid := row]);
      BookingRows(after) && PaymentRows(after) && FlagsExplained(after)
  {
    var after := db.(payments := db.payments[pid := row]);
    forall i | i in db.bookings ensures BookingRow(after, db.bookings[i]) {
      assert BookingRow(db, db.bookings[i]);
    }
    forall i | i in after.payments && Flagged(after.payments[i]) ensures Explained(after, after.payments[i]) {
      FlagStaysExplained(db, pid, row, i);
    }
  }

  lemma PutEvolves(db: DB, pid: Id, row: Payment)
    requires pid in db.payments ==> PaymentEvolves(db.payments[pid], row)
    ensures Evolves(db, db.(payments := db.payments[pid := row]))
  {
  }

  lemma PutKeepsPairs(db: DB, pid: Id, row: Payment)
    requires OneClaim(db.payments) && KeysUnique(db.payments) && PutOk(db, pid, row)
    requires !RefTaken(db.payments, pid, row.provider, row.ref) && !TxnTaken(db.payments, pid, row.txn)
    ensures OneClaim(db.payments[pid := row]) && KeysUnique(db.payments[pid := row])
  {
  }

  lemma FlagStaysExplained(db: DB, pid: Id, row: Payment, i: Id)
    requires Inv(db) && PutOk(db, pid, row)
    requires i == pid || i in db.payments
    requires Flagged(db.payments[pid := row][i])
    ensures Explained(db.(payments := db.payments[pid := row]), db.payments[pid := row][i])
  {
    var ps := db.payments[pid := row];
    var bid := ps[i].booking;
    if i != pid {
      assert Explained(db, db.payments[i]);
    }
    if db.bookings[bid].status != Cancelled {
      var k :| k in db.payments && db.payments[k].booking == bid && Kept(db.payments[k]) && (i == pid ==> k != pid);
      assert k == pid ==> PaymentEvolves(db.payments[pid], row);
      assert k in ps && Kept(ps[k]) && ps[k].booking == bid;
    }
  }

  lemma InsertKeepsPayments(db: DB, id: Id, b: Booking)
    requires PaymentRows(db) && FlagsExplained(db) && id !in db.bookings
    ensures PaymentRows(db.(bookings := db.bookings[id := b])) && FlagsExplained(db.(bookings := db.bookings[id := b]))
  {
    var after := db.(bookings := db.bookings[id := b]);
    forall k | k in db.payments
      ensures PaymentRow(after.bookings, db.payments[k]) &&
        (Flagged(db.payments[k]) ==> Explained(after, db.payments[k]))
    {
      assert PaymentRow(db.bookings, db.payments[k]);
      assert Flagged(db.payments[k]) ==> Explained(db, db.payments[k]);
    }
  }

  /** Rows that are all still there as they were have evolved. */
  lemma MoreRowsEvolve(a: DB, b: DB)
    requires b.owners == a.owners && b.users.Keys == a.users.Keys
    requires forall i :: i in a.bookings ==> i in b.bookings && b.bookings[i] == a.bookings[i]
    requires forall i :: i in a.payments ==> i in b.payments && b.payments[i] == a.payments[i]
    ensures Evolves(a, b)
  {
  }

  lemma InsertKeepsRows(db: DB, id: Id, b: Booking)
    requires BookingRows(db) && NoOverlap(db.bookings) && id !in db.bookings
    requires BookingRow(db, b) && !Excluded(db.bookings, b)
    ensures BookingRows(db.(bookings := db.bookings[id := b])) && NoOverlap(db.bookings[id := b])
  {
    var bs := db.bookings[id := b];
    forall i | i in bs ensures BookingRow(db.(bookings := bs), bs[i]) {
      if i != id { assert BookingRow(db, db.bookings[i]); }
    }
    forall i, j | i in bs && j in bs && i != j ensures !Clash(bs[i], bs[j]) {
      if i == id { assert !Clash(bs[j], bs[i]); }
    }
  }

  lemma InsertKeeps(db: DB, id: Id, b: Booking)
    requires Inv(db) && id !in db.bookings
    requires BookingRow(db, b) && !Excluded(db.bookings, b)
    ensures Good(db, db.(bookings := db.bookings[id := b]))
  {
    InsertKeepsRows(db, id, b);
    InsertKeepsPayments(db, id, b);
    MoreRowsEvolve(db, db.(bookings := db.bookings[id := b]));
  }

  lemma UserKeeps(db: DB, u: Id, st: Score.Standing)
    requires Inv(db) && u in db.users && Score.Sound(st)
    ensures Good(db, db.(users := db.users[u := st]))
  {
    var after := db.(users := db.users[u := st]);
    assert after.users.Keys == db.users.Keys;
    forall i | i in db.bookings ensures BookingRow(after, db.bookings[i]) {
      assert BookingRow(db, db.bookings[i]);
    }
    forall k | k in db.payments && Flagged(db.payments[k]) ensures Explained(after, db.payments[k]) {
      assert Explained(db, db.payments[k]);
    }
  }
}
