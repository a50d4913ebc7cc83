// The running service: one store, a clock, and the requests in flight between reading a row, hearing from a
// gateway and writing the outcome. Each of those is a step of its own, so callbacks, checkouts, cancellations,
// the venue's actions and the janitor interleave in every order.

module Protocol {
  import opened Domain
  import opened Transactions
  import opened Invariant
  import opened Preservation
  import Score

  /** A callback holds its own copy of the payment from the moment it reads it. */
  datatype Callback =
    | Loaded(pid: Id, p: Payment)
    | Answered(pid: Id, p: Payment, answer: GatewayResult)

  datatype Sys = Sys(db: DB, now: Time, callbacks: map<Id, Callback>, checkouts: map<Id, Payment>)

  /** `at` is the reading of the application's own clock; every `now()` in SQL is the store's. */
  datatype Step =
    | Tick(to: Time)
    | TakeHold(id: Id, court: Id, user: Id, slot: Slot, price: Price, note: string, at: Time, window: int)
    | CheckoutRead(k: Id, bid: Id, user: Id, provider: Provider, txn: Id)
    | CheckoutCommit(k: Id, pid: Id)
    | CallbackRead(c: Id, txn: Id, provider: Provider)
    | CallbackAnswer(c: Id, answer: Option<GatewayResult>, at: Time)
    | CallbackCommit(c: Id)
    | CancelBooking(bid: Id, user: Id, monthEnd: Time)
    | Restore(bid: Id, owner: Id)
    | SweepHolds
    | SweepPlayed
    | Approve(pid: Id, owner: Id)
    | Decline(pid: Id, owner: Id)
    | CashReceived(pid: Id, owner: Id, at: Time)
    | RefundSent(pid: Id, owner: Id)

  ghost function ByTransaction(ps: map<Id, Payment>, txn: Id): Option<Id> {
    if exists i :: i in ps && ps[i].txn == txn then
      var i :| i in ps && ps[i].txn == txn;
      Some(i)
    else None
  }

  /** The store transaction a step runs, if it runs one. */
  ghost function TxOf(s: Sys, step: Step): Option<Tx> {
    match step
    case TakeHold(id, court, user, slot, price, note, at, window) =>
      (match NewHold(court, user, slot, price, note, at, window)
       case Err(_) => None
       case Ok(b) => Some(CreateHold(s.db, s.now, id, b)))
    case CheckoutCommit(k, pid) =>
      if k !in s.checkouts then None
      else if s.checkouts[k].provider == Cash then Some(BookCash(s.db, s.now, pid, s.checkouts[k]))
      else Some(CreatePayment(s.db, pid, s.checkouts[k]))
    case CallbackCommit(c) =>
      if c !in s.callbacks || !s.callbacks[c].Answered? then None
      else Some(Settle(s.db, s.now, s.callbacks[c].pid, s.callbacks[c].p))
    case CancelBooking(bid, user, monthEnd) =>
      if Score.MonthAfter(s.now, monthEnd) then Some(Cancel(s.db, s.now, bid, user, monthEnd)) else None
    case Restore(bid, owner) => Some(RestorePenalty(s.db, s.now, bid, owner))
    case SweepHolds => Some(ReleaseStaleHolds(s.db, s.now))
    case SweepPlayed => Some(MarkPlayed(s.db, s.now))
    case Approve(pid, owner) => Some(ApproveCash(s.db, s.now, pid, owner))
    case Decline(pid, owner) => Some(DeclineCash(s.db, pid, owner))
    case CashReceived(pid, owner, at) => Some(MarkCashReceived(s.db, s.now, pid, owner, at))
    case RefundSent(pid, owner) => Some(MarkRefunded(s.db, s.now, pid, owner))
    case _ => None
  }

  /** A commit uses up what was held for it. */
  function UsedUp(s: Sys, step: Step): Sys {
    match step
    case CheckoutCommit(k, _) => s.(checkouts := s.checkouts - {k})
    case CallbackCommit(c) => s.(callbacks := s.callbacks - {c})
    case _ => s
  }

  ghost function Apply(s: Sys, step: Step): Sys {
    match step
    case Tick(to) => if to < s.now then s else s.(now := to)
    case CheckoutRead(k, bid, user, provider, txn) =>
      if bid !in s.db.bookings || s.db.bookings[bid].user != user then s
      else (match NewPaymentIntent(bid, s.db.bookings[bid], provider, txn)
            case Err(_) => s
            case Ok(p) => s.(checkouts := s.checkouts[k := p]))
    case CallbackRead(c, txn, provider) => ReadCallback(s, c, txn, provider)
    case CallbackAnswer(c, answer, at) => AnswerCallback(s, c, answer, at)
    case _ =>
      (match TxOf(s, step)
       case None => s
       case Some(tx) => UsedUp(s, step).(db := InTx(s.db, tx)))
  }

  /** A payment that is final, cash or another provider's never reaches a gateway. */
  ghost function ReadCallback(s: Sys, c: Id, txn: Id, provider: Provider): Sys {
    match ByTransaction(s.db.payments, txn)
    case None => s
    case Some(pid) =>
      var p := s.db.payments[pid];
      if p.provider != provider || p.status.IsFinal() || p.provider == Cash then s
      else s.(callbacks := s.callbacks[c := Loaded(pid, p)])
  }

  /** An unreachable gateway, or "still no money" on a payment already failed, leaves nothing to write. */
  ghost function AnswerCallback(s: Sys, c: Id, answer: Option<GatewayResult>, at: Time): Sys {
    if c !in s.callbacks || !s.callbacks[c].Loaded? then s
    else
      var Loaded(pid, p) := s.callbacks[c];
      if answer.None? then s.(callbacks := s.callbacks - {c})
      else
        var verified := Verify(p, answer.value, at).0;
        if p.status == Failed && verified.status != Verified then s.(callbacks := s.callbacks - {c})
        else s.(callbacks := s.callbacks[c := Answered(pid, verified, answer.value)])
  }

  ghost function Run(s: Sys, steps: seq<Step>): Sys {
    if steps == [] then s else Apply(Run(s, steps[..|steps| - 1]), steps[|steps| - 1])
  }

  /** Empty tables; every user with a fresh score; nothing in flight. */
  predicate Initial(s: Sys) {
    && s.db.bookings == map[] && s.db.payments == map[] && s.callbacks == map[] && s.checkouts == map[]
    && forall u :: u in s.db.users ==> s.db.users[u] == Score.Fresh()
  }

  // ------------------------------------------------- what every run keeps

  /** A callback's copy still names its payment, and was verified exactly by a right answer. */
  predicate CallbackOk(db: DB, cb: Callback) {
    && cb.pid in db.payments && AnswerFor(db.payments[cb.pid], cb.p)
    && (cb.Loaded? ==> !cb.p.status.IsFinal())
    && (cb.Answered? ==> (cb.p.status == Verified <==> RightAnswer(db.payments[cb.pid], cb.answer)))
    && (cb.Answered? && cb.p.status == Verified ==> cb.p.ref == cb.answer.ref && cb.p.raw == cb.answer.raw)
  }

  predicate SysInv(s: Sys) {
    && Inv(s.db)
    && (forall c :: c in s.callbacks ==> CallbackOk(s.db, s.callbacks[c]))
    && (forall k :: k in s.checkouts ==> Intent(s.db, s.checkouts[k]))
  }

  lemma CallbackSurvives(a: DB, b: DB, cb: Callback)
    requires CallbackOk(a, cb) && Evolves(a, b)
    ensures CallbackOk(b, cb)
  {
    assert PaymentEvolves(a.payments[cb.pid], b.payments[cb.pid]);
  }

  lemma IntentSurvives(a: DB, b: DB, p: Payment)
    requires Intent(a, p) && Evolves(a, b)
    ensures Intent(b, p)
  {
    assert BookingEvolves(a.bookings[p.booking], b.bookings[p.booking]);
  }

  /** Requests in flight survive whatever the store does meanwhile. */
  lemma InFlightSurvives(s: Sys, db: DB)
    requires SysInv(s) && Good(s.db, db)
    ensures SysInv(s.(db := db))
  {
    forall c | c in s.callbacks ensures CallbackOk(db, s.callbacks[c]) {
      CallbackSurvives(s.db, db, s.callbacks[c]);
    }
    forall k | k in s.checkouts ensures Intent(db, s.checkouts[k]) {
      IntentSurvives(s.db, db, s.checkouts[k]);
    }
  }

  lemma StoreStep(s: Sys, step: Step)
    ensures Apply(s, step).db == if TxOf(s, step).Some? then InTx(s.db, TxOf(s, step).value) else s.db
    ensures Apply(s, step).now >= s.now
    ensures TxOf(s, step).Some? ==> Apply(s, step).now == s.now
  {
  }

  lemma HoldStepKeeps(s: Sys, step: Step)
    requires SysInv(s) && step.TakeHold?
    ensures TxOf(s, step).Some? ==> Good(s.db, InTx(s.db, TxOf(s, step).value))
  {
    var h := NewHold(step.court, step.user, step.slot, step.price, step.note, step.at, step.window);
    if h.Ok? { CreateHoldKeeps(s.db, s.now, step.id, h.value); }
  }

  lemma CheckoutStepKeeps(db: DB, now: Time, pid: Id, p: Payment)
    requires Inv(db) && Intent(db, p)
    ensures p.provider == Cash ==> Good(db, InTx(db, BookCash(db, now, pid, p)))
    ensures p.provider != Cash ==> Good(db, InTx(db, CreatePayment(db, pid, p)))
  {
    if p.provider == Cash { BookCashKeeps(db, now, pid, p); } else { CreatePaymentKeeps(db, pid, p); }
  }

  lemma CallbackStepKeeps(db: DB, now: Time, cb: Callback)
    requires Inv(db) && cb.Answered? && CallbackOk(db, cb)
    ensures Good(db, InTx(db, Settle(db, now, cb.pid, cb.p)))
  {
    SettleKeeps(db, now, cb.pid, cb.p);
  }

  lemma ApproveKeeps(db: DB, now: Time, pid: Id, owner: Id)
    requires Inv(db)
    ensures Good(db, InTx(db, ApproveCash(db, now, pid, owner)))
    ensures Good(db, InTx(db, DeclineCash(db, pid, owner)))
  {
    ApproveDeclineIdle(db, now, pid, owner);
    GoodRefl(db);
  }

  lemma CheckoutTxKeeps(s: Sys, step: Step)
    requires SysInv(s) && step.CheckoutCommit?
    ensures TxOf(s, step).Some? ==> Good(s.db, InTx(s.db, TxOf(s, step).value))
  {
    if TxOf(s, step).Some? {
      var p := s.checkouts[step.k];
      CheckoutStepKeeps(s.db, s.now, step.pid, p);
      assert TxOf(s, step).value
        == if p.provider == Cash then BookCash(s.db, s.now, step.pid, p) else CreatePayment(s.db, step.pid, p);
    }
  }

  lemma CallbackTxKeeps(s: Sys, step: Step)
    requires SysInv(s) && step.CallbackCommit?
    ensures TxOf(s, step).Some? ==> Good(s.db, InTx(s.db, TxOf(s, step).value))
  {
    if TxOf(s, step).Some? {
      var cb := s.callbacks[step.c];
      CallbackStepKeeps(s.db, s.now, cb);
      assert TxOf(s, step).value == Settle(s.db, s.now, cb.pid, cb.p);
    }
  }

  lemma CancelTxKeeps(s: Sys, step: Step)
    requires SysInv(s) && step.CancelBooking?
    ensures TxOf(s, step).Some? ==> Good(s.db, InTx(s.db, TxOf(s, step).value))
  {
    if Score.MonthAfter(s.now, step.monthEnd) { CancelKeeps(s.db, s.now, step.bid, step.user, step.monthEnd); }
  }

  lemma RestoreTxKeeps(s: Sys, step: Step)
    requires SysInv(s) && step.Restore?
    ensures TxOf(s, step).Some? ==> Good(s.db, InTx(s.db, TxOf(s, step).value))
  {
    RestorePenaltyKeeps(s.db, s.now, step.bid, step.owner);
  }

  lemma SweepTxKeeps(s: Sys, step: Step)
    requires SysInv(s) && (step.SweepHolds? || step.SweepPlayed?)
    ensures TxOf(s, step).Some? ==> Good(s.db, InTx(s.db, TxOf(s, step).value))
  {
    ReleaseStaleHoldsKeeps(s.db, s.now);
    MarkPlayedKeeps(s.db, s.now);
  }

  lemma ApproveTxKeeps(s: Sys, step: Step)
    requires SysInv(s) && (step.Approve? || step.Decline?)
    ensures TxOf(s, step).Some? ==> Good(s.db, InTx(s.db, TxOf(s, step).value))
  {
    ApproveKeeps(s.db, s.now, step.pid, step.owner);
  }

  lemma CollectKeeps(db: DB, now: Time, pid: Id, owner: Id, at: Time)
    requires Inv(db)
    ensures Good(db, InTx(db, MarkCashReceived(db, now, pid, owner, at)))
  {
    MarkCashReceivedKeeps(db, now, pid, owner, at);
  }

  lemma CollectTxKeeps(s: Sys, step: Step)
    requires SysInv(s) && step.CashReceived?
    ensures TxOf(s, step).Some? ==> Good(s.db, InTx(s.db, TxOf(s, step).value))
  {
    CollectKeeps(s.db, s.now, step.pid, step.owner, step.at);
  }

  lemma RefundTxKeeps(s: Sys, step: Step)
    requires SysInv(s) && step.RefundSent?
    ensures TxOf(s, step).Some? ==> Good(s.db, InTx(s.db, TxOf(s, step).value))
  {
    MarkRefundedKeeps(s.db, s.now, step.pid, step.owner);
  }

  lemma TxOfKeeps(s: Sys, step: Step)
    requires SysInv(s) && TxOf(s, step).Some?
    ensures Good(s.db, InTx(s.db, TxOf(s, step).value))
  {
    match step
    case TakeHold(_, _, _, _, _, _, _, _) => HoldStepKeeps(s, step);
    case CheckoutCommit(_, _) => CheckoutTxKeeps(s, step);
    case CallbackCommit(_) => CallbackTxKeeps(s, step);
    case CancelBooking(_, _, _) => CancelTxKeeps(s, step);
    case Restore(_, _) => RestoreTxKeeps(s, step);
    case SweepHolds => SweepTxKeeps(s, step);
    case SweepPlayed => SweepTxKeeps(s, step);
    case Approve(_, _) => ApproveTxKeeps(s, step);
    case Decline(_, _) => ApproveTxKeeps(s, step);
    case CashReceived(_, _, _) => CollectTxKeeps(s, step);
    case RefundSent(_, _) => RefundTxKeeps(s, step);
  }

  lemma TxKeeps(s: Sys, step: Step)
    requires SysInv(s)
    ensures Good(s.db, Apply(s, step).db)
  {
    StoreStep(s, step);
    if TxOf(s, step).Some? {
      TxOfKeeps(s, step);
    } else {
      GoodRefl(s.db);
    }
  }

  lemma ReadKeeps(s: Sys, c: Id, txn: Id, provider: Provider)
    requires SysInv(s)
    ensures SysInv(ReadCallback(s, c, txn, provider)) && ReadCallback(s, c, txn, provider).db == s.db
  {
    var found := ByTransaction(s.db.payments, txn);
    if found.Some? {
      assert PaymentRow(s.db.bookings, s.db.payments[found.value]);
    }
  }

  /** A right answer, and nothing else, verifies the copy it is put to. */
  lemma AnsweredOk(db: DB, cb: Callback, answer: GatewayResult, at: Time)
    requires cb.Loaded? && CallbackOk(db, cb)
    ensures CallbackOk(db, Answered(cb.pid, Verify(cb.p, answer, at).0, answer))
  {
  }

  lemma CallbackPutKeeps(s: Sys, c: Id, cb: Callback)
    requires SysInv(s) && CallbackOk(s.db, cb)
    ensures SysInv(s.(callbacks := s.callbacks[c := cb])) && SysInv(s.(callbacks := s.callbacks - {c}))
  {
  }

  lemma AnswerKeeps(s: Sys, c: Id, answer: Option<GatewayResult>, at: Time)
    requires SysInv(s)
    ensures SysInv(AnswerCallback(s, c, answer, at)) && AnswerCallback(s, c, answer, at).db == s.db
  {
    if c in s.callbacks && s.callbacks[c].Loaded? {
      var cb := s.callbacks[c];
      CallbackPutKeeps(s, c, cb);
      if answer.Some? {
        AnsweredOk(s.db, cb, answer.value, at);
        CallbackPutKeeps(s, c, Answered(cb.pid, Verify(cb.p, answer.value, at).0, answer.value));
      }
    }
  }

  lemma CheckoutReadKeeps(s: Sys, k: Id, bid: Id, user: Id, provider: Provider, txn: Id)
    requires SysInv(s)
    ensures SysInv(Apply(s, CheckoutRead(k, bid, user, provider, txn)))
    ensures Apply(s, CheckoutRead(k, bid, user, provider, txn)).db == s.db
  {
  }

  predicate IsRead(step: Step) { step.CheckoutRead? || step.CallbackRead? || step.CallbackAnswer? }

  /** Other steps put nothing in flight. */
  lemma OthersStartNothing(s: Sys, step: Step)
    requires !IsRead(step)
    ensures forall c :: c in Apply(s, step).callbacks ==>
      c in s.callbacks && Apply(s, step).callbacks[c] == s.callbacks[c]
    ensures forall k :: k in Apply(s, step).checkouts ==>
      k in s.checkouts && Apply(s, step).checkouts[k] == s.checkouts[k]
  {
  }

  /** What a step adds to the requests in flight, over the tables as they were. */
  lemma FlightKeeps(s: Sys, step: Step)
    requires SysInv(s)
    ensures SysInv(Apply(s, step).(db := s.db))
  {
    if IsRead(step) {
      match step
      case CheckoutRead(k, bid, user, provider, txn) => CheckoutReadKeeps(s, k, bid, user, provider, txn);
      case CallbackRead(c, txn, provider) => ReadKeeps(s, c, txn, provider);
      case CallbackAnswer(c, answer, at) => AnswerKeeps(s, c, answer, at);
    } else {
      OthersStartNothing(s, step);
    }
  }

  /** Every step keeps the invariant and lets every row evolve. */
  lemma StepKeeps(s: Sys, step: Step)
    requires SysInv(s)
    ensures SysInv(Apply(s, step)) && Evolves(s.db, Apply(s, step).db)
  {
    TxKeeps(s, step);
    FlightKeeps(s, step);
    InFlightSurvives(Apply(s, step).(db := s.db), Apply(s, step).db);
  }

  lemma {:induction false} RunKeeps(s: Sys, steps: seq<Step>)
    requires SysInv(s)
    ensures SysInv(Run(s, steps)) && Evolves(s.db, Run(s, steps).db) && s.now <= Run(s, steps).now
  {
    if steps == [] {
      GoodRefl(s.db);
    } else {
      var before := Run(s, steps[..|steps| - 1]);
      RunKeeps(s, steps[..|steps| - 1]);
      StepKeeps(before, steps[|steps| - 1]);
      StoreStep(before, steps[|steps| - 1]);
      EvolvesTransitive(s.db, before.db, Run(s, steps).db);
    }
  }

  lemma InitialInv(s: Sys)
    requires Initial(s)
    ensures SysInv(s)
  {
  }

  lemma {:induction false} RunSplit(s: Sys, a: seq<Step>, b: seq<Step>)
    ensures Run(s, a + b) == Run(Run(s, a), b)
    decreases |b|
  {
    if b == [] {
      assert a + b == a;
    } else {
      var n := |b| - 1;
      assert (a + b)[..|a + b| - 1] == a + b[..n];
      RunSplit(s, a, b[..n]);
    }
  }
}
