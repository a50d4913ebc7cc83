// What every action of the running service does to the stored columns: when it acts, what it writes, and what it
// leaves. Nothing here is said through the predicates and row builders the transactions are written with.

module Acts {
  import opened Domain
  import opened Transactions
  import opened Invariant
  import opened Preservation
  import opened Protocol
  import opened Guarantees
  import opened Effects
  import Score

  // -------------------------------------------------------------- callbacks

  /** A payment through eSewa or Khalti that can still be verified: begun, or failed. */
  predicate Open(p: Payment) {
    (p.provider == Esewa || p.provider == Khalti) && (p.status == Initiated || p.status == Failed)
  }

  predicate Confirms(p: Payment, answer: GatewayResult) {
    answer.verified && answer.amount == p.amount && (answer.txn == None || answer.txn == Some(p.txn))
  }

  predicate RefFree(ps: map<Id, Payment>, pid: Id, provider: Provider, ref: string) {
    ref == "" || forall k | k in ps && k != pid :: !(ps[k].provider == provider && ps[k].ref == ref)
  }

  /** Another verified payment on the booking that is not flagged to be returned. */
  predicate PaidByAnother(ps: map<Id, Payment>, bid: Id, pid: Id) {
    exists k | k in ps :: k != pid && ps[k].booking == bid && ps[k].status == Verified && ps[k].refund == None
  }

  function Callback3(c: Id, txn: Id, provider: Provider, answer: GatewayResult, at: Time): seq<Step> {
    [CallbackRead(c, txn, provider), CallbackAnswer(c, Some(answer), at), CallbackCommit(c)]
  }

  lemma RunOfThree(t: Sys, x: Step, y: Step, z: Step)
    ensures Run(t, [x, y, z]) == Apply(Apply(Apply(t, x), y), z)
  {
    assert [x, y, z][..2] == [x, y] && [x, y][..1] == [x] && [x][..0] == [];
    assert Run(t, [x]) == Apply(t, x);
    assert Run(t, [x, y]) == Apply(Run(t, [x]), y);
  }

  lemma RunThree(s: Sys, steps: seq<Step>, x: Step, y: Step, z: Step)
    ensures Run(s, steps + [x, y, z]) == Apply(Apply(Apply(Run(s, steps), x), y), z)
  {
    RunSplit(s, steps, [x, y, z]);
    RunOfThree(Run(s, steps), x, y, z);
  }

  lemma FoundByTransaction(db: DB, pid: Id)
    requires Inv(db) && pid in db.payments
    ensures ByTransaction(db.payments, db.payments[pid].txn) == Some(pid)
  {
    var txn := db.payments[pid].txn;
    assert forall i | i in db.payments && db.payments[i].txn == txn :: i == pid;
  }

  /** A callback on an open payment is taken up, put to the gateway's answer, and settled. */
  lemma OpenIsTakenUp(t: Sys, c: Id, pid: Id, answer: GatewayResult, at: Time)
    requires SysInv(t) && pid in t.db.payments && Open(t.db.payments[pid])
    requires t.db.payments[pid].status == Initiated || Confirms(t.db.payments[pid], answer)
    ensures var p := t.db.payments[pid];
      var u := Apply(Apply(t, CallbackRead(c, p.txn, p.provider)), CallbackAnswer(c, Some(answer), at));
      && u.db == t.db && u.now == t.now && c in u.callbacks
      && u.callbacks[c] == Answered(pid, Verify(p, answer, at).0, answer)
  {
    OpenIsRead(t, c, pid);
  }

  lemma OpenIsRead(t: Sys, c: Id, pid: Id)
    requires SysInv(t) && pid in t.db.payments && Open(t.db.payments[pid])
    ensures var p := t.db.payments[pid];
      Apply(t, CallbackRead(c, p.txn, p.provider)) == t.(callbacks := t.callbacks[c := Loaded(pid, p)])
  {
    FoundByTransaction(t.db, pid);
  }

  lemma VerifiedAnswer(p: Payment, answer: GatewayResult, at: Time)
    requires Open(p) && Confirms(p, answer)
    ensures Verify(p, answer, at).0
      == p.(status := Verified, ref := answer.ref, raw := answer.raw, verifiedAt := Some(at))
  {
  }

  /** What a settled right answer leaves in the payments and bookings it is about. */
  lemma SettleActs(db: DB, now: Time, pid: Id, answer: GatewayResult, at: Time)
    requires Inv(db) && pid in db.payments && Open(db.payments[pid]) && Confirms(db.payments[pid], answer)
    requires RefFree(db.payments, pid, db.payments[pid].provider, answer.ref)
    ensures var p := db.payments[pid];
      var after := InTx(db, Settle(db, now, pid, Verify(p, answer, at).0));
      && pid in after.payments && p.booking in db.bookings && p.booking in after.bookings
      && after.payments[pid] == p.(status := Verified, ref := answer.ref, raw := answer.raw, verifiedAt := Some(at),
                                   refund := after.payments[pid].refund)
      && (after.payments[pid].refund.None? <==>
           db.bookings[p.booking].status != Cancelled && !PaidByAnother(db.payments, p.booking, pid))
      && (after.payments[pid].refund.Some? ==> after.payments[pid].refund.value.dueAt == now)
      && after.bookings == (if db.bookings[p.booking].status == Pending
           then db.bookings[p.booking := db.bookings[p.booking].(status := Confirmed, hold := None)] else db.bookings)
  {
    var p := db.payments[pid];
    VerifiedAnswer(p, answer, at);
    MoneyConfirms(db, now, pid, Verify(p, answer, at).0);
    MoneyIsWritten(db, now, pid, Verify(p, answer, at).0);
  }

  lemma MoneyIsWritten(db: DB, now: Time, pid: Id, p: Payment)
    requires Inv(db) && pid in db.payments && Open(db.payments[pid]) && AnswerFor(db.payments[pid], p)
    requires p.status == Verified && !RefTaken(db.payments, pid, p.provider, p.ref)
    ensures var after := InTx(db, Settle(db, now, pid, p)).payments; var row := db.payments[pid];
      && pid in after && p.booking in db.bookings
      && after[pid] == row.(status := Verified, ref := p.ref, raw := p.raw, verifiedAt := p.verifiedAt,
                            refund := after[pid].refund)
      && (after[pid].refund.None? <==>
           db.bookings[p.booking].status != Cancelled && !PaidByAnother(db.payments, p.booking, pid))
      && (after[pid].refund.Some? ==> after[pid].refund.value.dueAt == now)
  {
    SettleVerified(db, now, pid, p);
    ReturnedIff(db, pid, p.booking);
  }

  lemma ReturnedIff(db: DB, pid: Id, bid: Id)
    requires Inv(db) && bid in db.bookings
    ensures ApplyToBooking(db, pid, bid).1.None?
      <==> db.bookings[bid].status != Cancelled && !PaidByAnother(db.payments, bid, pid)
  {
    assert BookingRow(db, db.bookings[bid]);
    assert PaidByAnother(db.payments, bid, pid) <==> KeptByAnother(db.payments, bid, pid);
  }

  /**
   * At any point of any run, a right answer for an eSewa or Khalti payment that is begun or failed is taken up and
   * recorded, if its reference is on no other payment of the provider: the payment is verified with this reference and
   * this evidence, a pending booking is confirmed, and the money is kept unless the booking is cancelled or paid for.
   */
  lemma RightAnswerIsRecorded(s: Sys, steps: seq<Step>, c: Id, pid: Id, answer: GatewayResult, at: Time)
    requires Initial(s)
    requires var ps := Run(s, steps).db.payments;
      && pid in ps && Open(ps[pid]) && Confirms(ps[pid], answer) && RefFree(ps, pid, ps[pid].provider, answer.ref)
    ensures var t := Run(s, steps); var p := t.db.payments[pid];
      var after := Run(s, steps + Callback3(c, p.txn, p.provider, answer, at)).db;
      && pid in after.payments && p.booking in t.db.bookings && p.booking in after.bookings
      && after.payments[pid].status == Verified && after.payments[pid].ref == answer.ref
      && after.payments[pid].raw == answer.raw && after.payments[pid].verifiedAt == Some(at)
      && (after.payments[pid].refund.None? <==>
           t.db.bookings[p.booking].status != Cancelled && !PaidByAnother(t.db.payments, p.booking, pid))
      && (t.db.bookings[p.booking].status == Pending ==>
           after.bookings[p.booking].status == Confirmed && after.bookings[p.booking].hold == None)
  {
    InitialInv(s);
    RunKeeps(s, steps);
    var t := Run(s, steps);
    var p := t.db.payments[pid];
    var x, y, z := CallbackRead(c, p.txn, p.provider), CallbackAnswer(c, Some(answer), at), CallbackCommit(c);
    RunThree(s, steps, x, y, z);
    OpenIsTakenUp(t, c, pid, answer, at);
    StoreStep(Apply(Apply(t, x), y), z);
    SettleActs(t.db, t.now, pid, answer, at);
  }

  /**
   * A callback for an unknown transaction, another provider, cash or a final payment leaves the tables as they were.
   */
  lemma OtherCallbacksAreIgnored(s: Sys, steps: seq<Step>, c: Id, txn: Id, provider: Provider,
                                 answer: GatewayResult, at: Time)
    requires Initial(s) && c !in Run(s, steps).callbacks
    requires var ps := Run(s, steps).db.payments;
      forall k | k in ps && ps[k].txn == txn ::
        ps[k].provider != provider || ps[k].provider == Cash || ps[k].status == Verified || ps[k].status == Refunded
    ensures Run(s, steps + Callback3(c, txn, provider, answer, at)).db == Run(s, steps).db
  {
    RunThree(s, steps, CallbackRead(c, txn, provider), CallbackAnswer(c, Some(answer), at), CallbackCommit(c));
  }

  /**
   * An answer that is not right is recorded against a payment just begun, and says nothing more about one that failed.
   */
  lemma WrongAnswerFails(s: Sys, steps: seq<Step>, c: Id, pid: Id, answer: GatewayResult, at: Time)
    requires Initial(s) && c !in Run(s, steps).callbacks
    requires var ps := Run(s, steps).db.payments;
      && pid in ps && Open(ps[pid]) && !Confirms(ps[pid], answer) && RefFree(ps, pid, ps[pid].provider, answer.ref)
    ensures var t := Run(s, steps); var p := t.db.payments[pid];
      Run(s, steps + Callback3(c, p.txn, p.provider, answer, at)).db
      == if p.status == Initiated && (answer.txn == None || answer.txn == Some(p.txn))
         then t.db.(payments := t.db.payments[pid := p.(status := Failed, ref := answer.ref, raw := answer.raw)])
         else t.db
  {
    InitialInv(s);
    RunKeeps(s, steps);
    var t := Run(s, steps);
    var p := t.db.payments[pid];
    var x, y, z := CallbackRead(c, p.txn, p.provider), CallbackAnswer(c, Some(answer), at), CallbackCommit(c);
    RunThree(s, steps, x, y, z);
    FoundByTransaction(t.db, pid);
    if p.status == Initiated {
      OpenIsTakenUp(t, c, pid, answer, at);
      StoreStep(Apply(Apply(t, x), y), z);
      WrongIsWritten(t.db, t.now, pid, answer, at);
    } else {
      WrongIsDropped(t, c, pid, answer, at);
    }
  }

  lemma WrongIsWritten(db: DB, now: Time, pid: Id, answer: GatewayResult, at: Time)
    requires Inv(db) && pid in db.payments && Open(db.payments[pid]) && db.payments[pid].status == Initiated
    requires !Confirms(db.payments[pid], answer) && RefFree(db.payments, pid, db.payments[pid].provider, answer.ref)
    ensures var p := db.payments[pid];
      InTx(db, Settle(db, now, pid, Verify(p, answer, at).0))
      == if answer.txn == None || answer.txn == Some(p.txn)
         then db.(payments := db.payments[pid := p.(status := Failed, ref := answer.ref, raw := answer.raw)])
         else db
  {
    var p := db.payments[pid];
    assert PaymentRow(db.bookings, p);
    assert db.payments[pid := p] == db.payments;
    assert !TxnTaken(db.payments, pid, p.txn);
  }

  lemma WrongIsDropped(t: Sys, c: Id, pid: Id, answer: GatewayResult, at: Time)
    requires SysInv(t) && pid in t.db.payments && Open(t.db.payments[pid]) && t.db.payments[pid].status == Failed
    requires !Confirms(t.db.payments[pid], answer)
    ensures var p := t.db.payments[pid];
      Apply(Apply(Apply(t, CallbackRead(c, p.txn, p.provider)), CallbackAnswer(c, Some(answer), at)),
        CallbackCommit(c)).db
      == t.db
  {
    var p := t.db.payments[pid];
    FoundByTransaction(t.db, pid);
    assert Verify(p, answer, at).0.status == Failed;
    assert c !in Apply(Apply(t, CallbackRead(c, p.txn, p.provider)), CallbackAnswer(c, Some(answer), at)).callbacks;
  }

  // -------------------------------------------------- cancelling and restoring

  /** The score a read shows: a ban that is over leaves 50. */
  function ScoreNow(st: Score.Standing, now: Time): int {
    if st.bannedUntil.Some? && st.bannedUntil.value <= now then 50 else st.score
  }

  predicate PaidOnline(ps: map<Id, Payment>, bid: Id) {
    exists k | k in ps ::
      ps[k].booking == bid && (ps[k].provider == Esewa || ps[k].provider == Khalti) && ps[k].status == Verified
  }

  /** A confirmed booking let go less than five hours before it starts. */
  predicate LetGoLate(b: Booking, now: Time) {
    b.status == Confirmed && b.slot.start - now < 5 * HOUR
  }

  /** The points a late cancellation takes: 20, down to 0; at 10 or less the player is banned until `monthEnd`. */
  predicate Charged(before: Score.Standing, after: Score.Standing, now: Time, monthEnd: Time) {
    var e := ScoreNow(before, now);
    && after.score == (if e >= 20 then e - 20 else 0)
    && after.bannedUntil == (if after.score <= 10 then Some(monthEnd) else None)
  }

  /** Every payment begun on the booking has failed; every other row is as it was. */
  predicate BegunHaveFailed(before: map<Id, Payment>, after: map<Id, Payment>, bid: Id) {
    before.Keys == after.Keys && forall k | k in before ::
      after[k] == before[k].(status := if before[k].booking == bid && before[k].status == Initiated then Failed
                                       else before[k].status)
  }

  predicate MayCancel(db: DB, bid: Id, user: Id) {
    && bid in db.bookings && db.bookings[bid].user == user
    && (db.bookings[bid].status == Pending || db.bookings[bid].status == Confirmed) && !PaidOnline(db.payments, bid)
  }

  lemma AllowedToCancel(db: DB, now: Time, bid: Id, user: Id, monthEnd: Time)
    requires Inv(db)
    ensures Cancel(db, now, bid, user, monthEnd).Commit? <==> MayCancel(db, bid, user)
    ensures !MayCancel(db, bid, user) ==>
      Cancel(db, now, bid, user, monthEnd)
      == Abort(if bid in db.bookings && db.bookings[bid].user == user then Conflict else NotFound)
  {
    assert PaidOnline(db.payments, bid) <==> HasOnlineVerified(db.payments, bid);
    if bid in db.bookings { assert BookingRow(db, db.bookings[bid]); }
  }

  /**
   * What a player's cancellation does, at any point of any run. It is refused, and changes nothing, unless the booking
   * is his, pending or confirmed, and has no verified online payment. Otherwise the row is cancelled at this instant
   * and its open payments fail. It costs 20 points exactly when the booking was confirmed and less than five hours off;
   * else no points and no change to the player. Nobody else's row changes.
   */
  lemma CancelActs(t: Sys, bid: Id, user: Id, monthEnd: Time)
    requires SysInv(t) && t.now + 28 * DAY <= monthEnd <= t.now + 31 * DAY
    ensures var before, after := t.db, Apply(t, CancelBooking(bid, user, monthEnd)).db;
      if !MayCancel(before, bid, user) then after == before
      else
        && bid in before.bookings && user in before.users && user in after.users
        && var b := before.bookings[bid]; var late := LetGoLate(b, t.now);
           && after.bookings == before.bookings[bid := b.(status := Cancelled, hold := None, cancelledAt := Some(t.now),
                                                         penalty := if late then 20 else 0)]
           && BegunHaveFailed(before.payments, after.payments, bid)
           && after.users == before.users[user := after.users[user]]
           && (if late then Charged(before.users[user], after.users[user], t.now, monthEnd)
               else after.users[user] == before.users[user])
  {
    StoreStep(t, CancelBooking(bid, user, monthEnd));
    AllowedToCancel(t.db, t.now, bid, user, monthEnd);
    if Cancel(t.db, t.now, bid, user, monthEnd).Commit? {
      assert BookingRow(t.db, t.db.bookings[bid]);
      assert t.db.users[user := t.db.users[user]] == t.db.users;
    }
  }

  /** A charge bans exactly when it leaves 10 or less, and exactly for the instants before `monthEnd`. */
  lemma ChargeBans(before: Score.Standing, after: Score.Standing, now: Time, monthEnd: Time, at: Time)
    requires Charged(before, after, now, monthEnd)
    ensures Score.Banned(after, at) <==> ScoreNow(before, now) <= 30 && at < monthEnd
  {
  }

  /** The venue is the owner's. */
  predicate Owns(db: DB, bid: Id, owner: Id) {
    bid in db.bookings && db.bookings[bid].court in db.owners && db.owners[db.bookings[bid].court] == owner
  }

  /** The points given back: 20, up to 100; above 10 no ban is left, and below it the ban in force stays. */
  predicate GivenBack(before: Score.Standing, after: Score.Standing, now: Time) {
    var e := ScoreNow(before, now);
    && after.score == (if e + 20 <= 100 then e + 20 else 100)
    && after.bannedUntil == (if after.score > 10 then None
                             else if before.bannedUntil.Some? && before.bannedUntil.value > now then before.bannedUntil
                             else None)
  }

  /**
   * Points come back exactly once, at the word of the owner of the venue, for a cancellation that cost points; anybody
   * else, any other booking and any second time changes nothing.
   */
  lemma RestoreActs(t: Sys, bid: Id, owner: Id)
    requires SysInv(t)
    ensures var before, after := t.db, Apply(t, Restore(bid, owner)).db;
      if Owns(before, bid, owner) && before.bookings[bid].status == Cancelled && before.bookings[bid].penalty > 0 &&
         before.bookings[bid].restoredAt == None
      then
        && var b := before.bookings[bid];
           && b.user in before.users && b.user in after.users
           && after.bookings == before.bookings[bid := b.(restoredAt := Some(t.now))]
           && after.payments == before.payments
           && after.users == before.users[b.user := after.users[b.user]]
           && GivenBack(before.users[b.user], after.users[b.user], t.now)
      else
        && after == before
        && RestorePenalty(before, t.now, bid, owner) == Abort(if Owns(before, bid, owner) then Conflict else NotFound)
  {
    StoreStep(t, Restore(bid, owner));
    if bid in t.db.bookings { assert BookingRow(t.db, t.db.bookings[bid]); }
  }

  // ------------------------------------------------------------------- sweeps

  predicate RanOut(b: Booking, now: Time) {
    b.status == Pending && b.hold.Some? && b.hold.value <= now
  }

  /** The sweep cancels exactly the pending holds that ran out, fails what was begun on them, and leaves the rest. */
  lemma SweepHoldsActs(t: Sys)
    requires SysInv(t)
    ensures var before, after := t.db, Apply(t, SweepHolds).db;
      && after.users == before.users && after.bookings.Keys == before.bookings.Keys
      && after.payments.Keys == before.payments.Keys
      && (forall i | i in before.bookings ::
           after.bookings[i] == if RanOut(before.bookings[i], t.now)
                                then before.bookings[i].(status := Cancelled, hold := None) else before.bookings[i])
      && (forall k | k in before.payments :: before.payments[k].booking in before.bookings)
      && (forall k | k in before.payments ::
           after.payments[k] == if before.payments[k].status == Initiated &&
                                   RanOut(before.bookings[before.payments[k].booking], t.now)
                                then before.payments[k].(status := Failed) else before.payments[k])
  {
    StoreStep(t, SweepHolds);
    forall i | i in t.db.bookings ensures Stale(t.db, i, t.now) <==> RanOut(t.db.bookings[i], t.now) {
      LapsedIsUnpaid(t.db, i, t.now);
    }
    forall k | k in t.db.payments ensures t.db.payments[k].booking in t.db.bookings {
      assert PaymentRow(t.db.bookings, t.db.payments[k]);
    }
  }

  /** The other sweep completes exactly the confirmed bookings that have ended. */
  lemma SweepPlayedActs(t: Sys)
    ensures var before, after := t.db, Apply(t, SweepPlayed).db;
      && after.users == before.users && after.payments == before.payments && after.bookings.Keys == before.bookings.Keys
      && (forall i | i in before.bookings ::
           after.bookings[i] == if before.bookings[i].status == Confirmed && before.bookings[i].slot.end <= t.now
                                then before.bookings[i].(status := Completed) else before.bookings[i])
  {
    StoreStep(t, SweepPlayed);
  }

  // ----------------------------------------------------------------- checkouts

  /** Whom a checkout is granted, and what it is for: the player's own pending or confirmed booking, at its price. */
  lemma CheckoutReadActs(t: Sys, k: Id, bid: Id, user: Id, provider: Provider, txn: Id)
    ensures var after := Apply(t, CheckoutRead(k, bid, user, provider, txn));
      && after.db == t.db
      && after.checkouts ==
         if bid in t.db.bookings && t.db.bookings[bid].user == user && t.db.bookings[bid].price > 0 &&
            (t.db.bookings[bid].status == Pending || t.db.bookings[bid].status == Confirmed)
         then t.checkouts[k :=
           Payment(bid, provider, t.db.bookings[bid].price, Initiated, txn, "", "", None, None, None)]
         else t.checkouts
  {
  }

  predicate TxnFree(ps: map<Id, Payment>, txn: Id) {
    forall k | k in ps :: ps[k].txn != txn
  }

  /** An online checkout records its payment, unless its identifiers are in use, and touches no booking. */
  lemma OnlineCheckoutActs(t: Sys, k: Id, pid: Id)
    requires SysInv(t) && k in t.checkouts && t.checkouts[k].provider != Cash
    ensures var p := t.checkouts[k]; var before, after := t.db, Apply(t, CheckoutCommit(k, pid)).db;
      if pid !in before.payments && TxnFree(before.payments, p.txn)
      then after == before.(payments := before.payments[pid := p])
      else after == before && CreatePayment(before, pid, p) == Abort(Conflict)
  {
    var p := t.checkouts[k];
    assert Intent(t.db, p);
    StoreStep(t, CheckoutCommit(k, pid));
    assert pid !in t.db.payments ==> (TxnTaken(t.db.payments, pid, p.txn) <==> !TxnFree(t.db.payments, p.txn));
  }

  predicate CashDue(ps: map<Id, Payment>, bid: Id) {
    exists k | k in ps :: ps[k].booking == bid && ps[k].provider == Cash && ps[k].status == Initiated
  }

  /**
   * A cash checkout confirms a hold that still runs and records the debt. A confirmed booking whose debt is recorded is
   * granted as it stands. Anything else is refused, and nothing changes.
   */
  lemma CashCheckoutActs(t: Sys, k: Id, pid: Id)
    requires SysInv(t) && k in t.checkouts && t.checkouts[k].provider == Cash
    ensures var p := t.checkouts[k]; var before, after := t.db, Apply(t, CheckoutCommit(k, pid)).db;
      && p.booking in before.bookings
      && var b := before.bookings[p.booking]; var tx := BookCash(before, t.now, pid, p);
         if b.status == Pending && b.hold.Some? && b.hold.value > t.now then
           if pid !in before.payments && TxnFree(before.payments, p.txn)
           then tx.Commit? &&
             after == before.(bookings := before.bookings[p.booking := b.(status := Confirmed, hold := None)],
                                 payments := before.payments[pid := p])
           else after == before && tx == Abort(Internal)
         else
           after == before
           && tx == if b.status == Confirmed && CashDue(before.payments, p.booking) then Commit(before)
             else Abort(Conflict)
  {
    var p := t.checkouts[k];
    assert Intent(t.db, p);
    StoreStep(t, CheckoutCommit(k, pid));
    BookCashActs(t.db, t.now, pid, p);
  }

  lemma BookCashActs(db: DB, now: Time, pid: Id, p: Payment)
    requires Inv(db) && Intent(db, p) && p.provider == Cash
    ensures var b := db.bookings[p.booking];
      BookCash(db, now, pid, p)
      == if b.status == Pending && b.hold.Some? && b.hold.value > now then
           if pid !in db.payments && TxnFree(db.payments, p.txn)
           then Commit(db.(bookings := db.bookings[p.booking := b.(status := Confirmed, hold := None)],
                           payments := db.payments[pid := p]))
           else Abort(Internal)
         else if b.status == Confirmed && CashDue(db.payments, p.booking) then Commit(db) else Abort(Conflict)
  {
    assert BookingRow(db, db.bookings[p.booking]);
    if db.bookings[p.booking].status == Pending { PendingHasNoClaim(db, p.booking); }
    assert HasOpenCash(db.payments, p.booking) <==> CashDue(db.payments, p.booking);
    assert pid !in db.payments ==> (TxnTaken(db.payments, pid, p.txn) <==> !TxnFree(db.payments, p.txn));
  }

  // ------------------------------------------------------------ the venue's side

  predicate OwnsPayment(db: DB, pid: Id, owner: Id) {
    pid in db.payments && Owns(db, db.payments[pid].booking, owner)
  }

  /** Cash is collected by the owner, once; nobody else, and no payment through a gateway, can be collected. */
  lemma CashReceivedActs(t: Sys, pid: Id, owner: Id, at: Time)
    requires SysInv(t)
    ensures var before, after := t.db, Apply(t, CashReceived(pid, owner, at)).db;
      var tx := MarkCashReceived(before, t.now, pid, owner, at);
      if !OwnsPayment(before, pid, owner) then after == before && tx == Abort(NotFound)
      else if before.payments[pid].provider != Cash then after == before && tx == Abort(Conflict)
      else tx.Commit? && after == (if before.payments[pid].status == Initiated
        then before.(payments :=
          before.payments[pid := before.payments[pid].(status := Verified, verifiedAt := Some(at))])
        else before)
  {
    StoreStep(t, CashReceived(pid, owner, at));
    if OwnedCash(t.db, pid, owner).Ok? { CashIsCollected(t.db, t.now, pid, owner, at); }
  }

  /** A return is recorded by the owner, once, for a payment flagged to be returned; otherwise nothing changes. */
  lemma RefundSentActs(t: Sys, pid: Id, owner: Id)
    requires SysInv(t)
    ensures var before, after := t.db, Apply(t, RefundSent(pid, owner)).db;
      if OwnsPayment(before, pid, owner) && before.payments[pid].refund.Some? && before.payments[pid].refundedAt == None
      then after == before.(payments := before.payments[pid := before.payments[pid].(refundedAt := Some(t.now))])
      else after == before && MarkRefunded(before, t.now, pid, owner) == Abort(NotFound)
  {
    StoreStep(t, RefundSent(pid, owner));
    if OwnsPayment(t.db, pid, owner) && t.db.payments[pid].refund.Some? && t.db.payments[pid].refundedAt == None {
      RefundIsWritten(t.db, t.now, pid, owner);
    }
  }

  lemma RefundIsWritten(db: DB, now: Time, pid: Id, owner: Id)
    requires Inv(db) && OwnsPayment(db, pid, owner)
    requires db.payments[pid].refund.Some? && db.payments[pid].refundedAt == None
    ensures MarkRefunded(db, now, pid, owner)
      == Commit(db.(payments := db.payments[pid := db.payments[pid].(refundedAt := Some(now))]))
  {
    var p := db.payments[pid];
    assert PaymentRow(db.bookings, p);
    assert !RefTaken(db.payments, pid, p.provider, p.ref) && !TxnTaken(db.payments, pid, p.txn);
  }

  /** Who gets which answer to approving and declining cash, which change nothing. */
  lemma ApproveDeclineAnswers(t: Sys, pid: Id, owner: Id)
    requires SysInv(t)
    ensures Apply(t, Approve(pid, owner)).db == t.db && Apply(t, Decline(pid, owner)).db == t.db
    ensures !OwnsPayment(t.db, pid, owner) ==>
      ApproveCash(t.db, t.now, pid, owner) == Abort(NotFound) && DeclineCash(t.db, pid, owner) == Abort(NotFound)
    ensures OwnsPayment(t.db, pid, owner) ==>
      var p := t.db.payments[pid]; var b := t.db.bookings[p.booking];
      && ApproveCash(t.db, t.now, pid, owner) == (
           if p.provider == Cash && (p.status == Initiated || p.status == Verified) &&
              (b.status == Confirmed || b.status == Completed)
           then Commit(t.db) else Abort(Conflict))
      && DeclineCash(t.db, pid, owner)
        == (if p.provider == Cash && p.status == Failed then Commit(t.db) else Abort(Conflict))
  {
    StoreStep(t, Approve(pid, owner));
    StoreStep(t, Decline(pid, owner));
    ApproveDeclineIdle(t.db, t.now, pid, owner);
    if OwnsPayment(t.db, pid, owner) {
      assert PaymentRow(t.db.bookings, t.db.payments[pid]);
      assert BookingRow(t.db, t.db.bookings[t.db.payments[pid].booking]);
    }
  }
}
