// A run of the service, from empty tables, in which money moves and no verified payment records it. Every answer the
// gateway gives is true. While the transfer for payment 1 is still pending, a callback names payment 2 with that
// transfer's reference; "not paid yet" fails payment 2 and leaves the reference on it. When the transfer completes,
// the confirmation of payment 1 finds its reference taken. `Guarantees.TransferOnRecordIff` says exactly when.

module LostMoney {
  import opened Domain
  import opened Transactions
  import opened Protocol
  import opened Guarantees
  import Score

  const BEGIN: Time := HOUR
  const FIRST: Slot := Slot(10 * HOUR, 11 * HOUR)
  const NEXT: Slot := Slot(11 * HOUR, 12 * HOUR)
  const PRICE: Price := Price(900, 900, false, None, "")

  /** What the gateway says of the one transfer, before and after it completes; it never repeats our transaction. */
  const PENDING: GatewayResult := GatewayResult(false, None, "pidx", 900, "")
  const COMPLETED: GatewayResult := GatewayResult(true, None, "pidx", 900, "")

  function Held(slot: Slot): Booking {
    Booking(0, 0, slot, 900, false, "", Pending, Some(BEGIN + MINUTE), None, 0, None)
  }

  function Begun(id: Id): Payment { Payment(id, Khalti, 900, Initiated, id, "", "", None, None, None) }

  /** The payment once an answer has been put to it. */
  function Told(id: Id, r: GatewayResult): Payment { Verify(Begun(id), r, BEGIN).0 }

  function Store(bookings: map<Id, Booking>, payments: map<Id, Payment>): DB {
    DB(bookings, payments, map[0 := Score.Fresh()], map[0 := 9])
  }

  function Quiet(bookings: map<Id, Booking>, payments: map<Id, Payment>): Sys {
    Sys(Store(bookings, payments), BEGIN, map[], map[])
  }

  lemma HoldIsTaken(bs: map<Id, Booking>, id: Id, slot: Slot)
    requires slot == FIRST || slot == NEXT
    requires id !in bs && forall i :: i in bs ==>
      bs[i].status == Pending && bs[i].hold == Some(BEGIN + MINUTE) && !bs[i].slot.Overlaps(slot)
    ensures Apply(Quiet(bs, map[]), TakeHold(id, 0, 0, slot, PRICE, "", BEGIN, MINUTE))
      == Quiet(bs[id := Held(slot)], map[])
  {
    var db := Store(bs, map[]);
    assert NewHold(0, 0, slot, PRICE, "", BEGIN, MINUTE) == Ok(Held(slot));
    assert ReleaseOverlapping(db, 0, slot, BEGIN) == bs;
    assert !Taken(bs, 0, slot, BEGIN) && !Excluded(bs, Held(slot));
  }

  lemma CheckoutIsRead(bs: map<Id, Booking>, ps: map<Id, Payment>, id: Id, slot: Slot)
    requires id in bs && bs[id] == Held(slot)
    ensures Apply(Quiet(bs, ps), CheckoutRead(0, id, 0, Khalti, id)) == Quiet(bs, ps).(checkouts := map[0 := Begun(id)])
  {
  }

  lemma CheckoutIsWritten(bs: map<Id, Booking>, ps: map<Id, Payment>, id: Id)
    requires id in bs && id !in ps && forall i :: i in ps ==> ps[i].txn != id
    ensures Apply(Quiet(bs, ps).(checkouts := map[0 := Begun(id)]), CheckoutCommit(0, id))
      == Quiet(bs, ps[id := Begun(id)])
  {
    var s := Quiet(bs, ps).(checkouts := map[0 := Begun(id)]);
    assert s.checkouts - {0} == map[];
    assert CreatePayment(s.db, id, Begun(id)) == Commit(Store(bs, ps[id := Begun(id)]));
  }

  lemma CallbackIsRead(bs: map<Id, Booking>, ps: map<Id, Payment>, id: Id)
    requires id in ps && ps[id] == Begun(id) && forall i :: i in ps && ps[i].txn == id ==> i == id
    ensures Apply(Quiet(bs, ps), CallbackRead(0, id, Khalti))
      == Quiet(bs, ps).(callbacks := map[0 := Loaded(id, Begun(id))])
  {
    assert ByTransaction(ps, id) == Some(id);
  }

  lemma CallbackIsAnswered(bs: map<Id, Booking>, ps: map<Id, Payment>, id: Id, r: GatewayResult)
    ensures Apply(Quiet(bs, ps).(callbacks := map[0 := Loaded(id, Begun(id))]), CallbackAnswer(0, Some(r), BEGIN))
      == Quiet(bs, ps).(callbacks := map[0 := Answered(id, Told(id, r), r)])
  {
    var s := Quiet(bs, ps).(callbacks := map[0 := Loaded(id, Begun(id))]);
    assert s.callbacks[0 := Answered(id, Told(id, r), r)] == map[0 := Answered(id, Told(id, r), r)];
  }

  /** "Not paid yet" is written: the payment failed, and now carries the reference. */
  lemma PendingIsWritten(bs: map<Id, Booking>, ps: map<Id, Payment>, id: Id)
    requires id in bs && id in ps && ps[id] == Begun(id)
    requires forall i :: i in ps && i != id ==> ps[i].ref == "" && ps[i].txn != id
    ensures Apply(Quiet(bs, ps).(callbacks := map[0 := Answered(id, Told(id, PENDING), PENDING)]), CallbackCommit(0))
      == Quiet(bs, ps[id := Told(id, PENDING)])
  {
    var s := Quiet(bs, ps).(callbacks := map[0 := Answered(id, Told(id, PENDING), PENDING)]);
    assert s.callbacks - {0} == map[];
    assert Told(id, PENDING) == Begun(id).(status := Failed, ref := "pidx");
  }

  const TWO_HOLDS: map<Id, Booking> := map[1 := Held(FIRST), 2 := Held(NEXT)]

  lemma BothAreHeld() returns (s: Sys, steps: seq<Step>)
    ensures Initial(s) && Run(s, steps) == Quiet(TWO_HOLDS, map[])
  {
    s, steps := Quiet(map[], map[]), [];
    HoldIsTaken(map[], 1, FIRST);
    steps := Then(s, steps, TakeHold(1, 0, 0, FIRST, PRICE, "", BEGIN, MINUTE), Quiet(map[1 := Held(FIRST)], map[]));
    HoldIsTaken(map[1 := Held(FIRST)], 2, NEXT);
    assert map[1 := Held(FIRST)][2 := Held(NEXT)] == TWO_HOLDS;
    steps := Then(s, steps, TakeHold(2, 0, 0, NEXT, PRICE, "", BEGIN, MINUTE), Quiet(TWO_HOLDS, map[]));
  }

  /** A checkout of one of them, read and written. */
  lemma CheckoutIsDone(s: Sys, steps: seq<Step>, ps: map<Id, Payment>, id: Id) returns (more: seq<Step>)
    requires Run(s, steps) == Quiet(TWO_HOLDS, ps) && (id == 1 || id == 2)
    requires id !in ps && forall i :: i in ps ==> ps[i].txn != id
    ensures Run(s, more) == Quiet(TWO_HOLDS, ps[id := Begun(id)])
  {
    CheckoutIsRead(TWO_HOLDS, ps, id, if id == 1 then FIRST else NEXT);
    more := Then(s, steps, CheckoutRead(0, id, 0, Khalti, id), Quiet(TWO_HOLDS, ps).(checkouts := map[0 := Begun(id)]));
    CheckoutIsWritten(TWO_HOLDS, ps, id);
    more := Then(s, more, CheckoutCommit(0, id), Quiet(TWO_HOLDS, ps[id := Begun(id)]));
  }

  /** A callback on one of them, read and answered. */
  lemma AnswerIsHeard(s: Sys, steps: seq<Step>, ps: map<Id, Payment>, id: Id, r: GatewayResult)
    returns (more: seq<Step>)
    requires Run(s, steps) == Quiet(TWO_HOLDS, ps)
    requires id in ps && ps[id] == Begun(id) && forall i :: i in ps && ps[i].txn == id ==> i == id
    ensures Run(s, more) == Quiet(TWO_HOLDS, ps).(callbacks := map[0 := Answered(id, Told(id, r), r)])
  {
    var loaded := Quiet(TWO_HOLDS, ps).(callbacks := map[0 := Loaded(id, Begun(id))]);
    CallbackIsRead(TWO_HOLDS, ps, id);
    more := Then(s, steps, CallbackRead(0, id, Khalti), loaded);
    CallbackIsAnswered(TWO_HOLDS, ps, id, r);
    var answered := Quiet(TWO_HOLDS, ps).(callbacks := map[0 := Answered(id, Told(id, r), r)]);
    more := Then(s, more, CallbackAnswer(0, Some(r), BEGIN), answered);
  }

  /** Two holds, two checkouts, and the callback on payment 2 that names the pending transfer of payment 1. */
  lemma SecondIsTold() returns (s: Sys, steps: seq<Step>)
    ensures Initial(s)
    ensures Run(s, steps) == Quiet(TWO_HOLDS, map[1 := Begun(1), 2 := Told(2, PENDING)])
  {
    s, steps := BothAreHeld();
    steps := CheckoutIsDone(s, steps, map[], 1);
    steps := CheckoutIsDone(s, steps, map[1 := Begun(1)], 2);
    var ps := map[1 := Begun(1)][2 := Begun(2)];
    steps := AnswerIsHeard(s, steps, ps, 2, PENDING);
    PendingIsWritten(TWO_HOLDS, ps, 2);
    assert ps[2 := Told(2, PENDING)] == map[1 := Begun(1), 2 := Told(2, PENDING)];
    steps := Then(s, steps, CallbackCommit(0), Quiet(TWO_HOLDS, ps[2 := Told(2, PENDING)]));
  }

  ghost function Then(s: Sys, steps: seq<Step>, step: Step, after: Sys): (more: seq<Step>)
    requires Apply(Run(s, steps), step) == after
    ensures more == steps + [step] && Run(s, more) == after
  {
    assert (steps + [step])[..|steps|] == steps;
    steps + [step]
  }

  /**
   * The gateway confirms payment 1 for its transaction and amount. Committing that leaves payment 1 unverified, and
   * no verified payment carries the reference of the transfer.
   */
  lemma RightAnswerIsLost() returns (s: Sys, steps: seq<Step>)
    ensures Initial(s)
    ensures var t := Run(s, steps);
      && 0 in t.callbacks && t.callbacks[0].Answered? && t.callbacks[0].pid == 1 && 1 in t.db.payments
      && RightAnswer(t.db.payments[1], t.callbacks[0].answer) && t.callbacks[0].answer.ref == "pidx"
      && var after := Apply(t, CallbackCommit(0)).db.payments;
         !OnlineVerified(after, 1) && !OnRecord(after, Khalti, "pidx")
  {
    s, steps := SecondIsTold();
    var ps := map[1 := Begun(1), 2 := Told(2, PENDING)];
    steps := AnswerIsHeard(s, steps, ps, 1, COMPLETED);
    assert Told(1, COMPLETED).status == Verified && ps[2].ref == COMPLETED.ref && ps[2].status == Failed;
    RightAnswerKeptIff(s, steps, 0);
    TransferOnRecordIff(s, steps, 0);
  }
}
