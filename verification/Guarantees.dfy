// What holds over every run of the service: no double booking, payments that only climb, verification exactly by a
// committed right answer, transfers on record exactly when they can be, and paid bookings that stay.

module Guarantees {
  import opened Domain
  import opened Transactions
  import opened Invariant
  import opened Preservation
  import opened Protocol

  // ------------------------------------------------------- double booking

  /** In every reachable state no two bookings that are neither cancelled nor a no-show overlap on a court. */
  lemma NoDoubleBooking(s: Sys, steps: seq<Step>, i: Id, j: Id)
    requires Initial(s) && i != j
    requires i in Run(s, steps).db.bookings && j in Run(s, steps).db.bookings
    ensures !Clash(Run(s, steps).db.bookings[i], Run(s, steps).db.bookings[j])
  {
    InitialInv(s);
    RunKeeps(s, steps);
  }

  lemma PendingKeepsNothing(db: DB, bid: Id)
    requires Inv(db) && bid in db.bookings && db.bookings[bid].status == Pending
    ensures !HasKept(db.payments, bid)
  {
    forall k | k in db.payments && db.payments[k].booking == bid ensures !Kept(db.payments[k]) {
      assert PaymentRow(db.bookings, db.payments[k]);
    }
  }

  lemma LateMoneyConfirms(db: DB, now: Time, pid: Id, p: Payment)
    requires Inv(db) && pid in db.payments && AnswerFor(db.payments[pid], p) && p.status == Verified
    requires db.payments[pid].status != Verified && p.booking in db.bookings && db.bookings[p.booking].HoldExpired(now)
    ensures var tx := Settle(db, now, pid, p);
      && (tx.Commit? <==> !RefTaken(db.payments, pid, p.provider, p.ref))
      && (tx.Commit? ==>
        && tx.db.bookings == db.bookings[p.booking := db.bookings[p.booking].(status := Confirmed, hold := None)]
        && Inv(tx.db) && Kept(tx.db.payments[pid]))
  {
    assert PaymentRow(db.bookings, db.payments[pid]);
    PendingKeepsNothing(db, p.booking);
    SettleVerified(db, now, pid, p);
  }

  /** A hold that ran out but was never released is confirmed by its money without touching anybody's slot. */
  lemma LateMoneyIsSafe(s: Sys, steps: seq<Step>, pid: Id, p: Payment)
    requires Initial(s)
    requires var t := Run(s, steps);
      pid in t.db.payments && AnswerFor(t.db.payments[pid], p) && p.status == Verified
      && t.db.payments[pid].status != Verified && p.booking in t.db.bookings
      && t.db.bookings[p.booking].HoldExpired(t.now)
    ensures var t := Run(s, steps); var tx := Settle(t.db, t.now, pid, p);
      && (tx.Commit? <==> !RefTaken(t.db.payments, pid, p.provider, p.ref))
      && (tx.Commit? ==>
        && tx.db.bookings == t.db.bookings[p.booking := t.db.bookings[p.booking].(status := Confirmed, hold := None)]
        && NoOverlap(tx.db.bookings) && Kept(tx.db.payments[pid]))
  {
    InitialInv(s);
    RunKeeps(s, steps);
    LateMoneyConfirms(Run(s, steps).db, Run(s, steps).now, pid, p);
  }

  /** A rival granted an hour under a lapsed hold has cancelled that hold in the same transaction. */
  lemma RivalReleases(db: DB, now: Time, id: Id, rival: Booking, bid: Id)
    requires Inv(db) && bid in db.bookings && db.bookings[bid].HoldExpired(now)
    requires db.bookings[bid].court == rival.court && db.bookings[bid].slot.Overlaps(rival.slot)
    requires CreateHold(db, now, id, rival).Commit?
    ensures var taken := CreateHold(db, now, id, rival).db;
      taken.payments == db.payments && bid in taken.bookings && taken.bookings[bid] == Released(db.bookings[bid])
  {
    forall k | k in db.payments && db.payments[k].booking == bid ensures db.payments[k].status != Verified {
      assert PaymentRow(db.bookings, db.payments[k]);
    }
    assert Stale(db, bid, now);
  }

  /** Money for a booking that is gone is kept, with the gateway's evidence, and flagged for the venue to return. */
  lemma MoneyForAGoneBooking(db: DB, now: Time, pid: Id, p: Payment)
    requires Inv(db) && pid in db.payments && AnswerFor(db.payments[pid], p) && p.status == Verified
    requires db.payments[pid].status != Verified && p.booking in db.bookings &&
      db.bookings[p.booking].status == Cancelled
    requires !HasKept(db.payments, p.booking)
    requires !RefTaken(db.payments, pid, p.provider, p.ref)
    ensures Settle(db, now, pid, p) == Commit(db.(payments := db.payments[pid := db.payments[pid].(
      status := Verified, ref := p.ref, raw := p.raw, verifiedAt := p.verifiedAt,
      refund := Some(Refund(now, BookingGone(Cancelled))))]))
  {
    assert PaymentRow(db.bookings, db.payments[pid]);
    SettleVerified(db, now, pid, p);
  }

  /** A rival who took the hour first has already cancelled the lapsed hold, so the money comes back flagged. */
  lemma RivalThenMoney(db: DB, now: Time, later: Time, id: Id, rival: Booking, pid: Id, p: Payment)
    requires Inv(db) && NewRow(rival) && pid in db.payments && AnswerFor(db.payments[pid], p)
    requires p.status == Verified && db.payments[pid].status != Verified && p.booking in db.bookings
    requires db.bookings[p.booking].HoldExpired(now)
    requires db.bookings[p.booking].court == rival.court && db.bookings[p.booking].slot.Overlaps(rival.slot)
    requires CreateHold(db, now, id, rival).Commit? && !RefTaken(db.payments, pid, p.provider, p.ref)
    ensures var taken := CreateHold(db, now, id, rival).db;
      var tx := Settle(taken, later, pid, p);
      && tx.Commit? && tx.db.bookings == taken.bookings && taken.bookings[p.booking].status == Cancelled
      && tx.db.payments[pid].status == Verified && tx.db.payments[pid].raw == p.raw
      && tx.db.payments[pid].refund == Some(Refund(later, BookingGone(Cancelled)))
  {
    CreateHoldKeeps(db, now, id, rival);
    RivalReleases(db, now, id, rival, p.booking);
    var taken := CreateHold(db, now, id, rival).db;
    PendingKeepsNothing(db, p.booking);
    assert !HasKept(taken.payments, p.booking);
    MoneyForAGoneBooking(taken, later, pid, p);
  }

  // --------------------------------------------------- evolution over runs

  /** From any point of a run to any later one, every row keeps what it must keep. */
  lemma RowsEvolve(s: Sys, steps: seq<Step>, i: nat, j: nat)
    requires Initial(s) && i <= j <= |steps|
    ensures SysInv(Run(s, steps[..i])) && SysInv(Run(s, steps[..j]))
    ensures Evolves(Run(s, steps[..i]).db, Run(s, steps[..j]).db)
    ensures Run(s, steps[..i]).now <= Run(s, steps[..j]).now
  {
    InitialInv(s);
    RunKeeps(s, steps[..i]);
    RunSplit(s, steps[..i], steps[i..j]);
    assert steps[..i] + steps[i..j] == steps[..j];
    RunKeeps(Run(s, steps[..i]), steps[i..j]);
  }

  /** A booking paid online stays confirmed or completed from then on, and the payment on it is never disturbed. */
  lemma PaidOnlineStays(s: Sys, steps: seq<Step>, i: nat, j: nat, pid: Id)
    requires Initial(s) && i <= j <= |steps|
    requires var a := Run(s, steps[..i]).db;
      pid in a.payments && Kept(a.payments[pid]) && a.payments[pid].provider.IsOnline()
    ensures var a := Run(s, steps[..i]).db; var b := Run(s, steps[..j]).db;
      pid in b.payments && b.payments[pid] == a.payments[pid]
      && b.payments[pid].booking in b.bookings && Stands(b.bookings[b.payments[pid].booking])
  {
    RowsEvolve(s, steps, i, j);
    var a, b := Run(s, steps[..i]).db, Run(s, steps[..j]).db;
    assert PaymentEvolves(a.payments[pid], b.payments[pid]);
    assert PaymentRow(b.bookings, b.payments[pid]);
  }

  // ---------------------------------------------------- what verifies money

  /** The step commits, on payment `pid`, a callback whose gateway answer is right for it. */
  ghost predicate Records(s: Sys, step: Step, pid: Id) {
    && step.CallbackCommit? && step.c in s.callbacks && s.callbacks[step.c].Answered? && s.callbacks[step.c].pid == pid
    && pid in s.db.payments && RightAnswer(s.db.payments[pid], s.callbacks[step.c].answer)
    && Settle(s.db, s.now, pid, s.callbacks[step.c].p).Commit?
  }

  predicate OnlineVerified(ps: map<Id, Payment>, pid: Id) {
    pid in ps && ps[pid].provider.IsOnline() && ps[pid].status == Verified
  }

  /** No online payment is verified after that was not before. */
  ghost predicate VerifiesNothing(a: map<Id, Payment>, b: map<Id, Payment>) {
    forall i :: OnlineVerified(b, i) ==> OnlineVerified(a, i)
  }

  lemma CheckoutVerifiesNothing(s: Sys, k: Id, pid: Id)
    requires SysInv(s) && k in s.checkouts
    ensures VerifiesNothing(s.db.payments, InTx(s.db, TxOf(s, CheckoutCommit(k, pid)).value).payments)
  {
    var p := s.checkouts[k];
    assert Intent(s.db, p);
    if p.provider == Cash { CashVerifiesNothing(s.db, s.now, pid, p); } else { IntentVerifiesNothing(s.db, pid, p); }
  }

  lemma CashVerifiesNothing(db: DB, now: Time, pid: Id, p: Payment)
    requires p.status == Initiated
    ensures VerifiesNothing(db.payments, InTx(db, BookCash(db, now, pid, p)).payments)
  {
  }

  lemma IntentVerifiesNothing(db: DB, pid: Id, p: Payment)
    requires p.status == Initiated
    ensures VerifiesNothing(db.payments, InTx(db, CreatePayment(db, pid, p)).payments)
  {
  }

  lemma CollectingVerifiesNothing(db: DB, now: Time, pid: Id, owner: Id, at: Time)
    ensures VerifiesNothing(db.payments, InTx(db, MarkCashReceived(db, now, pid, owner, at)).payments)
  {
  }

  lemma RefundingVerifiesNothing(db: DB, now: Time, pid: Id, owner: Id)
    ensures VerifiesNothing(db.payments, InTx(db, MarkRefunded(db, now, pid, owner)).payments)
  {
  }

  lemma BookingsVerifyNothing(s: Sys, step: Step)
    requires step.TakeHold? || step.CancelBooking? || step.Restore? || step.SweepHolds? || step.SweepPlayed?
    ensures TxOf(s, step).Some? ==> VerifiesNothing(s.db.payments, InTx(s.db, TxOf(s, step).value).payments)
  {
  }

  lemma OtherStepsVerifyNothing(s: Sys, step: Step)
    requires SysInv(s) && !step.CallbackCommit?
    ensures VerifiesNothing(s.db.payments, Apply(s, step).db.payments)
  {
    StoreStep(s, step);
    if TxOf(s, step).Some? {
      match step
      case CheckoutCommit(k, pid) => CheckoutVerifiesNothing(s, k, pid);
      case CashReceived(pid, owner, at) => CollectingVerifiesNothing(s.db, s.now, pid, owner, at);
      case RefundSent(pid, owner) => RefundingVerifiesNothing(s.db, s.now, pid, owner);
      case Approve(pid, owner) => ApproveDeclineIdle(s.db, s.now, pid, owner);
      case Decline(pid, owner) => ApproveDeclineIdle(s.db, s.now, pid, owner);
      case _ => BookingsVerifyNothing(s, step);
    }
  }

  lemma StepVerifies(s: Sys, step: Step, pid: Id)
    requires SysInv(s)
    ensures OnlineVerified(Apply(s, step).db.payments, pid)
      <==> OnlineVerified(s.db.payments, pid) || Records(s, step, pid)
  {
    if OnlineVerified(s.db.payments, pid) {
      VerifiedStays(s, step, pid);
    } else if step.CallbackCommit? {
      CallbackVerifies(s, step, pid);
    } else {
      OtherStepsVerifyNothing(s, step);
    }
  }

  lemma VerifiedStays(s: Sys, step: Step, pid: Id)
    requires SysInv(s) && OnlineVerified(s.db.payments, pid)
    ensures OnlineVerified(Apply(s, step).db.payments, pid)
  {
    StepKeeps(s, step);
    assert PaymentEvolves(s.db.payments[pid], Apply(s, step).db.payments[pid]);
  }

  lemma CallbackVerifies(s: Sys, step: Step, pid: Id)
    requires SysInv(s) && step.CallbackCommit? && !OnlineVerified(s.db.payments, pid)
    ensures OnlineVerified(Apply(s, step).db.payments, pid) <==> Records(s, step, pid)
  {
    StoreStep(s, step);
    if step.c in s.callbacks && s.callbacks[step.c].Answered? {
      AnswerVerifies(s, s.callbacks[step.c], pid);
    }
  }

  lemma AnswerVerifies(s: Sys, cb: Callback, pid: Id)
    requires SysInv(s) && cb.Answered? && !OnlineVerified(s.db.payments, pid)
    requires exists c | c in s.callbacks :: s.callbacks[c] == cb
    ensures OnlineVerified(InTx(s.db, Settle(s.db, s.now, cb.pid, cb.p)).payments, pid)
      <==> cb.pid == pid && pid in s.db.payments && RightAnswer(s.db.payments[pid], cb.answer) &&
           Settle(s.db, s.now, pid, cb.p).Commit?
  {
    var c :| c in s.callbacks && s.callbacks[c] == cb;
    assert CallbackOk(s.db, s.callbacks[c]);
    CommitVerifies(s, cb, pid);
  }

  lemma CommitVerifies(s: Sys, cb: Callback, pid: Id)
    requires SysInv(s) && cb.Answered? && CallbackOk(s.db, cb) && !OnlineVerified(s.db.payments, pid)
    ensures OnlineVerified(InTx(s.db, Settle(s.db, s.now, cb.pid, cb.p)).payments, pid) <==>
      cb.pid == pid && RightAnswer(s.db.payments[pid], cb.answer) && Settle(s.db, s.now, pid, cb.p).Commit?
  {
    var row := s.db.payments[cb.pid];
    assert PaymentRow(s.db.bookings, row);
    if row.status != Verified && cb.p.status == Verified {
      SettleVerified(s.db, s.now, cb.pid, cb.p);
      ApplyVerifiesNothing(s.db, cb.pid, cb.p.booking);
    }
  }

  lemma ApplyVerifiesNothing(db: DB, pid: Id, bid: Id)
    requires bid in db.bookings
    ensures VerifiesNothing(db.payments, ApplyToBooking(db, pid, bid).0.payments)
  {
  }

  /** Some step of the run commits a right answer for the payment. */
  ghost predicate RecordedIn(s: Sys, steps: seq<Step>, pid: Id) {
    exists i :: 0 <= i < |steps| && Records(Run(s, steps[..i]), steps[i], pid)
  }

  lemma RecordedInGrows(s: Sys, init: seq<Step>, step: Step, pid: Id)
    ensures RecordedIn(s, init + [step], pid) <==> RecordedIn(s, init, pid) || Records(Run(s, init), step, pid)
  {
    var steps := init + [step];
    forall i | 0 <= i <= |init| ensures steps[..i] == init[..i] {
    }
    assert init[..|init|] == init && steps[|init|] == step;
    if RecordedIn(s, init, pid) {
      var i :| 0 <= i < |init| && Records(Run(s, init[..i]), init[i], pid);
      assert Records(Run(s, steps[..i]), steps[i], pid);
    }
    if Records(Run(s, init), step, pid) {
      assert Records(Run(s, steps[..|init|]), steps[|init|], pid);
    }
    if RecordedIn(s, steps, pid) {
      var i :| 0 <= i < |steps| && Records(Run(s, steps[..i]), steps[i], pid);
      assert i < |init| ==> Records(Run(s, init[..i]), init[i], pid);
    }
  }

  /** From any sound state on, a payment is verified if it was, or when a committed callback carried a right answer. */
  lemma {:induction false} VerifiedSinceIff(s: Sys, steps: seq<Step>, pid: Id)
    requires SysInv(s)
    ensures OnlineVerified(Run(s, steps).db.payments, pid)
      <==> OnlineVerified(s.db.payments, pid) || RecordedIn(s, steps, pid)
    decreases |steps|
  {
    if steps != [] {
      var n := |steps| - 1;
      var init := steps[..n];
      VerifiedSinceIff(s, init, pid);
      LastStepVerifies(s, init, steps[n], pid);
      RecordedInGrows(s, init, steps[n], pid);
      assert steps == init + [steps[n]];
    }
  }

  lemma LastStepVerifies(s: Sys, init: seq<Step>, step: Step, pid: Id)
    requires SysInv(s)
    ensures OnlineVerified(Run(s, init + [step]).db.payments, pid)
      <==> OnlineVerified(Run(s, init).db.payments, pid) || Records(Run(s, init), step, pid)
  {
    assert (init + [step])[..|init|] == init;
    RunKeeps(s, init);
    StepVerifies(Run(s, init), step, pid);
  }

  /**
   * Whatever interleaves, an online payment ends verified exactly when some committed callback carried a right answer.
   */
  lemma VerifiedIffRecorded(s: Sys, steps: seq<Step>, pid: Id)
    requires Initial(s)
    ensures OnlineVerified(Run(s, steps).db.payments, pid) <==>
      exists i :: 0 <= i < |steps| && Records(Run(s, steps[..i]), steps[i], pid)
  {
    InitialInv(s);
    VerifiedSinceIff(s, steps, pid);
  }

  /** The step commits a right answer for a payment on booking `bid`. */
  ghost predicate RecordsOn(s: Sys, step: Step, bid: Id) {
    && step.CallbackCommit? && step.c in s.callbacks && s.callbacks[step.c].Answered?
    && Records(s, step, s.callbacks[step.c].pid)
    && s.db.payments[s.callbacks[step.c].pid].booking == bid
  }

  ghost predicate RecordedOn(s: Sys, steps: seq<Step>, bid: Id) {
    exists i :: 0 <= i < |steps| && RecordsOn(Run(s, steps[..i]), steps[i], bid)
  }

  lemma Midway(s: Sys, steps: seq<Step>, i: nat)
    requires SysInv(s) && i <= |steps|
    ensures SysInv(Run(s, steps[..i])) && Evolves(s.db, Run(s, steps[..i]).db)
    ensures Evolves(Run(s, steps[..i]).db, Run(s, steps).db)
  {
    RunKeeps(s, steps[..i]);
    RunSplit(s, steps[..i], steps[i..]);
    assert steps[..i] + steps[i..] == steps;
    RunKeeps(Run(s, steps[..i]), steps[i..]);
  }

  lemma SameBookingAcross(a: DB, b: DB, k: Id)
    requires Evolves(a, b) && k in a.payments
    ensures k in b.payments && b.payments[k].booking == a.payments[k].booking
  {
    assert PaymentEvolves(a.payments[k], b.payments[k]);
  }

  /** Where online money came from: a step that committed a right answer for that payment, on that booking. */
  lemma MoneyCameFrom(s: Sys, steps: seq<Step>, k: Id) returns (i: nat)
    requires SysInv(s) && OnlineVerified(Run(s, steps).db.payments, k) && !OnlineVerified(s.db.payments, k)
    ensures i < |steps| && Records(Run(s, steps[..i]), steps[i], k)
    ensures RecordsOn(Run(s, steps[..i]), steps[i], Run(s, steps).db.payments[k].booking)
  {
    VerifiedSinceIff(s, steps, k);
    i :| 0 <= i < |steps| && Records(Run(s, steps[..i]), steps[i], k);
    Midway(s, steps, i);
    SameBookingAcross(Run(s, steps[..i]).db, Run(s, steps).db, k);
  }

  /** The same for bookings: online money is on one if it was, or when a right answer for it was committed. */
  lemma OnlineMoneySinceIff(s: Sys, steps: seq<Step>, bid: Id)
    requires SysInv(s)
    ensures HasOnlineVerified(Run(s, steps).db.payments, bid)
      <==> HasOnlineVerified(s.db.payments, bid) || RecordedOn(s, steps, bid)
  {
    var ps := Run(s, steps).db.payments;
    RunKeeps(s, steps);
    if HasOnlineVerified(ps, bid) && !HasOnlineVerified(s.db.payments, bid) {
      var k :| k in ps && ps[k].booking == bid && ps[k].status == Verified && ps[k].provider.IsOnline();
      if k in s.db.payments { SameBookingAcross(s.db, Run(s, steps).db, k); }
      var i := MoneyCameFrom(s, steps, k);
    }
    if HasOnlineVerified(s.db.payments, bid) {
      var k :| k in s.db.payments && s.db.payments[k].booking == bid && s.db.payments[k].status == Verified &&
        s.db.payments[k].provider.IsOnline();
      SameBookingAcross(s.db, Run(s, steps).db, k);
      VerifiedSinceIff(s, steps, k);
      assert OnlineVerified(ps, k);
    }
    if RecordedOn(s, steps, bid) {
      RecordedMoneyIsThere(s, steps, bid);
    }
  }

  lemma RecordedMoneyIsThere(s: Sys, steps: seq<Step>, bid: Id)
    requires SysInv(s) && RecordedOn(s, steps, bid)
    ensures HasOnlineVerified(Run(s, steps).db.payments, bid)
  {
    var i :| 0 <= i < |steps| && RecordsOn(Run(s, steps[..i]), steps[i], bid);
    var k := Run(s, steps[..i]).callbacks[steps[i].c].pid;
    Midway(s, steps, i);
    SameBookingAcross(Run(s, steps[..i]).db, Run(s, steps).db, k);
    assert RecordedIn(s, steps, k);
    VerifiedSinceIff(s, steps, k);
    assert OnlineVerified(Run(s, steps).db.payments, k);
  }

  /** Behind every answer a callback carries, a gateway gave that answer at an earlier step. */
  lemma {:induction false} AnswersComeFromGateways(s: Sys, steps: seq<Step>, c: Id)
    requires Initial(s)
    requires c in Run(s, steps).callbacks && Run(s, steps).callbacks[c].Answered?
    ensures exists i :: (0 <= i < |steps| && steps[i].CallbackAnswer? && steps[i].c == c
                         && steps[i].answer == Some(Run(s, steps).callbacks[c].answer))
  {
    var n := |steps| - 1;
    var before := Run(s, steps[..n]);
    if !(steps[n].CallbackAnswer? && steps[n].c == c) {
      assert c in before.callbacks && before.callbacks[c] == Run(s, steps).callbacks[c];
      AnswersComeFromGateways(s, steps[..n], c);
      var i :| 0 <= i < n && steps[..n][i].CallbackAnswer? && steps[..n][i].c == c
        && steps[..n][i].answer == Some(before.callbacks[c].answer);
      assert steps[i] == steps[..n][i];
    } else if before.callbacks[c].Answered? {
      AnswersComeFromGateways(s, steps[..n], c);
      var i :| 0 <= i < n && steps[..n][i].CallbackAnswer? && steps[..n][i].c == c
        && steps[..n][i].answer == Some(before.callbacks[c].answer);
      assert steps[i] == steps[..n][i];
    }
  }

  // ------------------------------------------- is a right answer always kept?

  /** A right answer arriving for an unverified payment is recorded iff its reference is not on another payment. */
  lemma RightAnswerKeptIff(s: Sys, steps: seq<Step>, c: Id)
    requires Initial(s)
    requires var t := Run(s, steps); c in t.callbacks && t.callbacks[c].Answered? && t.callbacks[c].p.status == Verified
    requires var t := Run(s, steps); !OnlineVerified(t.db.payments, t.callbacks[c].pid)
    ensures var t := Run(s, steps); var cb := t.callbacks[c];
      var recorded := OnlineVerified(Apply(t, CallbackCommit(c)).db.payments, cb.pid);
      recorded <==> !RefTaken(t.db.payments, cb.pid, cb.p.provider, cb.answer.ref)
  {
    InitialInv(s);
    RunKeeps(s, steps);
    CommitRecordsIff(Run(s, steps), c);
  }

  lemma CommitRecordsIff(t: Sys, c: Id)
    requires SysInv(t) && c in t.callbacks && t.callbacks[c].Answered? && t.callbacks[c].p.status == Verified
    requires !OnlineVerified(t.db.payments, t.callbacks[c].pid)
    ensures OnlineVerified(Apply(t, CallbackCommit(c)).db.payments, t.callbacks[c].pid) <==>
      !RefTaken(t.db.payments, t.callbacks[c].pid, t.callbacks[c].p.provider, t.callbacks[c].answer.ref)
  {
    assert CallbackOk(t.db, t.callbacks[c]);
    StoreStep(t, CallbackCommit(c));
    AnswerRecordedIff(t, t.callbacks[c]);
  }

  lemma AnswerRecordedIff(t: Sys, cb: Callback)
    requires SysInv(t) && cb.Answered? && CallbackOk(t.db, cb) && cb.p.status == Verified &&
      !OnlineVerified(t.db.payments, cb.pid)
    ensures OnlineVerified(InTx(t.db, Settle(t.db, t.now, cb.pid, cb.p)).payments, cb.pid) <==>
      !RefTaken(t.db.payments, cb.pid, cb.p.provider, cb.answer.ref)
  {
    assert PaymentRow(t.db.bookings, t.db.payments[cb.pid]);
    SettleVerified(t.db, t.now, cb.pid, cb.p);
    CommitVerifies(t, cb, cb.pid);
  }

  /** The transfer a reference stands for is on record: a verified payment carries it. */
  predicate OnRecord(ps: map<Id, Payment>, provider: Provider, ref: string) {
    exists i | i in ps :: ps[i].provider == provider && ps[i].ref == ref && ps[i].status == Verified
  }

  /** Another payment carries the reference without having been paid by it. */
  predicate HeldUnpaid(ps: map<Id, Payment>, pid: Id, provider: Provider, ref: string) {
    ref != "" && exists i | i in ps ::
      i != pid && ps[i].provider == provider && ps[i].ref == ref && ps[i].status != Verified
  }

  /**
   * Is money that moved always on record? Committing a right answer leaves its transfer on a verified payment if and
   * only if its reference does not sit on another payment that is not verified.
   */
  lemma TransferOnRecordIff(s: Sys, steps: seq<Step>, c: Id)
    requires Initial(s)
    requires var t := Run(s, steps);
      c in t.callbacks && t.callbacks[c].Answered? && t.callbacks[c].p.status == Verified &&
      !OnlineVerified(t.db.payments, t.callbacks[c].pid)
    ensures var t := Run(s, steps); var cb := t.callbacks[c];
      OnRecord(Apply(t, CallbackCommit(c)).db.payments, cb.p.provider, cb.answer.ref)
      <==> !HeldUnpaid(t.db.payments, cb.pid, cb.p.provider, cb.answer.ref)
  {
    InitialInv(s);
    RunKeeps(s, steps);
    CommitOnRecordIff(Run(s, steps), c);
  }

  lemma CommitOnRecordIff(t: Sys, c: Id)
    requires SysInv(t) && c in t.callbacks && t.callbacks[c].Answered? && t.callbacks[c].p.status == Verified
    requires !OnlineVerified(t.db.payments, t.callbacks[c].pid)
    ensures OnRecord(Apply(t, CallbackCommit(c)).db.payments, t.callbacks[c].p.provider, t.callbacks[c].answer.ref)
      <==> !HeldUnpaid(t.db.payments, t.callbacks[c].pid, t.callbacks[c].p.provider, t.callbacks[c].answer.ref)
  {
    assert CallbackOk(t.db, t.callbacks[c]);
    StoreStep(t, CallbackCommit(c));
    AnswerOnRecordIff(t.db, t.now, t.callbacks[c]);
  }

  lemma AnswerOnRecordIff(db: DB, now: Time, cb: Callback)
    requires Inv(db) && cb.Answered? && CallbackOk(db, cb) && cb.p.status == Verified
    requires db.payments[cb.pid].status != Verified
    ensures OnRecord(InTx(db, Settle(db, now, cb.pid, cb.p)).payments, cb.p.provider, cb.answer.ref)
      <==> !HeldUnpaid(db.payments, cb.pid, cb.p.provider, cb.answer.ref)
  {
    var pid, provider, ref := cb.pid, cb.p.provider, cb.answer.ref;
    assert PaymentRow(db.bookings, db.payments[pid]);
    SettleVerified(db, now, pid, cb.p);
    if RefTaken(db.payments, pid, provider, ref) {
      var k :| k in db.payments && k != pid && db.payments[k].provider == provider && db.payments[k].ref == ref;
      assert forall j | j in db.payments && db.payments[j].provider == provider && db.payments[j].ref == ref :: j == k;
    } else {
      var after := InTx(db, Settle(db, now, pid, cb.p)).payments;
      assert after[pid].provider == provider && after[pid].ref == ref && after[pid].status == Verified;
    }
  }

  // ------------------------------------------------------------- idempotence

  /** Asking to pay cash twice for the same hour records one debt. */
  lemma BookCashTwice(db: DB, now: Time, later: Time, pid: Id, p: Payment, pid': Id, p': Payment)
    requires Inv(db) && Intent(db, p) && p.provider == Cash && p'.booking == p.booking
    requires BookCash(db, now, pid, p).Commit?
    ensures var once := BookCash(db, now, pid, p).db;
      db.bookings[p.booking].status == Pending || db == once
    ensures var once := BookCash(db, now, pid, p).db; BookCash(once, later, pid', p') == Commit(once)
  {
    var b := db.bookings[p.booking];
    if HasOpenCash(db.payments, p.booking) && b.status == Confirmed {
    } else {
      forall k | k in db.payments && db.payments[k].booking == p.booking ensures !OpenCash(db.payments[k]) {
        assert PaymentRow(db.bookings, db.payments[k]);
      }
      var once := BookCash(db, now, pid, p).db;
      assert once.payments[pid] == p && OpenCash(once.payments[pid]);
    }
  }

  /** Once verified, a payment stays as it is through every later step, but for the note that it was sent back. */
  lemma VerifiedForGood(s: Sys, steps: seq<Step>, i: nat, j: nat, pid: Id)
    requires Initial(s) && i <= j <= |steps|
    requires var a := Run(s, steps[..i]).db; pid in a.payments && a.payments[pid].status == Verified
    ensures var a, b := Run(s, steps[..i]).db, Run(s, steps[..j]).db;
      pid in b.payments && b.payments[pid] == a.payments[pid].(refundedAt := b.payments[pid].refundedAt) &&
      (a.payments[pid].refundedAt.Some? || a.payments[pid].refund.None? ==> b.payments[pid] == a.payments[pid])
  {
    RowsEvolve(s, steps, i, j);
    var a, b := Run(s, steps[..i]).db, Run(s, steps[..j]).db;
    assert PaymentEvolves(a.payments[pid], b.payments[pid]);
    assert PaymentRow(b.bookings, b.payments[pid]);
  }
}
