// The vocabulary shared by every part of the model: time, slots, bookings and payments, and the rules
// the program states about each of them without touching a table.

module Domain {

  type Id = nat

  /** An instant, in nanoseconds since the first instant of year 1 (so 0 is the "zero time"). */
  type Time = int

  const SECOND: int := 1_000_000_000
  const MINUTE: int := 60 * SECOND
  const HOUR: int := 60 * MINUTE
  const DAY: int := 24 * HOUR

  datatype Option<+T> = None | Some(value: T)

  datatype Result<+T> = Ok(value: T) | Err(error: Error)

  /** The error codes a caller can tell apart. */
  datatype Error = Invalid | Unauthenticated | Forbidden | NotFound | Conflict | Internal

  // ------------------------------------------------------------------ slots

  const MIN_DURATION := 30 * MINUTE
  const MAX_DURATION := 4 * HOUR
  const PAST_GRACE := MINUTE

  /** A half-open interval [start, end) on one court. */
  datatype Slot = Slot(start: Time, end: Time) {

    /** No slot starts or ends at the zero time, and a slot lasts from half an hour to four hours. */
    predicate Valid() {
      start != 0 && end != 0 && start < end && MIN_DURATION <= end - start <= MAX_DURATION
    }

    predicate Overlaps(other: Slot) {
      start < other.end && other.start < end
    }

    /** Billable hours, rounded up. */
    function Hours(): int {
      var d := end - start;
      if d % HOUR == 0 then d / HOUR else d / HOUR + 1
    }

    predicate IsPast(now: Time) {
      start < now - PAST_GRACE
    }
  }

  // --------------------------------------------------------------- bookings

  datatype BookingStatus = Pending | Confirmed | Completed | Cancelled | NoShow {
    predicate IsLive() { this != Cancelled && this != NoShow }
    predicate CanCancel() { this == Pending || this == Confirmed }
  }

  datatype Booking = Booking(
    court: Id, user: Id, slot: Slot, price: int, isPeak: bool, note: string,
    status: BookingStatus, hold: Option<Time>,
    cancelledAt: Option<Time>, penalty: nat, restoredAt: Option<Time>) {

    /** Whether the booking keeps others out of its slot at `now`. */
    predicate Blocks(now: Time) {
      status.IsLive() && (status == Pending ==> hold.Some? && hold.value > now)
    }

    predicate HoldExpired(now: Time) {
      status == Pending && hold.Some? && hold.value <= now
    }
  }

  /** The rule the domain states about who may cancel when; no transaction asks it. */
  function CanBeCancelledBy(b: Booking, user: Id, now: Time): Option<Error> {
    if b.user != user then Some(NotFound)
    else if !b.status.CanCancel() then Some(Conflict)
    else if b.slot.start < now then Some(Conflict)
    else None
  }

  const NOTE_LIMIT := 280

  datatype Price = Price(perHour: int, total: int, isPeak: bool, rule: Option<Id>, ruleLabel: string)

  /** A pending booking at a price already resolved; refused for a bad slot, a slot that has started or a long note. */
  function NewHold(court: Id, user: Id, slot: Slot, price: Price, note: string, now: Time,
      window: int): Result<Booking> {
    if !slot.Valid() then Err(Invalid)
    else if slot.IsPast(now) then Err(Invalid)
    else if |note| > NOTE_LIMIT then Err(Invalid)
    else if window <= 0 then Err(Internal)
    else Ok(Booking(court, user, slot, price.total, price.isPeak, note,
                    Pending, Some(now + window), None, 0, None))
  }

  // --------------------------------------------------------------- payments

  datatype Provider = Esewa | Khalti | Cash {
    predicate IsOnline() { this != Cash }
  }

  datatype PaymentStatus = Initiated | Failed | Verified | Refunded {
    predicate IsFinal() { this == Verified || this == Refunded }
    predicate IsSettled() { this != Initiated }
  }

  datatype RefundReason = AlreadyPaid | BookingGone(status: BookingStatus)

  datatype Refund = Refund(dueAt: Time, reason: RefundReason)

  /** `ref` and `raw` are the gateway's own reference and its whole answer; the empty string is "none". */
  datatype Payment = Payment(
    booking: Id, provider: Provider, amount: int, status: PaymentStatus, txn: Id,
    ref: string, raw: string, verifiedAt: Option<Time>,
    refund: Option<Refund>, refundedAt: Option<Time>)

  /** What a gateway answers about a transaction; `txn` is absent when the gateway does not repeat it. */
  datatype GatewayResult = GatewayResult(verified: bool, txn: Option<Id>, ref: string, amount: int, raw: string)

  /** The answer names this transaction, or none. */
  predicate AboutIt(p: Payment, r: GatewayResult) {
    r.txn.Some? ==> r.txn.value == p.txn
  }

  /** The answer confirms exactly this payment: server-to-server, for its transaction and its amount. */
  predicate RightAnswer(p: Payment, r: GatewayResult) {
    r.verified && r.amount == p.amount && AboutIt(p, r)
  }

  /** Applies a gateway answer to a copy of a payment. The second component says whether the caller gets an error. */
  function Verify(p: Payment, r: GatewayResult, now: Time): (res: (Payment, Option<Error>))
    ensures !p.status.IsFinal() ==> (res.0.status == Verified <==> RightAnswer(p, r))
    ensures p.status.IsFinal() ==> res == (p, None)
    ensures !p.status.IsFinal() && !AboutIt(p, r) ==> res == (p, Some(Internal))
    ensures !p.status.IsFinal() && AboutIt(p, r) ==>
      res.0.ref == r.ref && res.0.raw == r.raw && (res.0.status == Verified || res.0.status == Failed) &&
      res.0.verifiedAt == if RightAnswer(p, r) then Some(now) else p.verifiedAt
    ensures res.1 == Some(Conflict) <==> !p.status.IsFinal() && AboutIt(p, r) && r.verified && r.amount != p.amount
    ensures res.0 == p.(status := res.0.status, ref := res.0.ref, raw := res.0.raw, verifiedAt := res.0.verifiedAt)
  {
    if p.status.IsFinal() then (p, None)
    else if r.txn.Some? && r.txn.value != p.txn then (p, Some(Internal))
    else if !r.verified then (p.(status := Failed, ref := r.ref, raw := r.raw), None)
    else if r.amount != p.amount then (p.(status := Failed, ref := r.ref, raw := r.raw), Some(Conflict))
    else (p.(status := Verified, ref := r.ref, raw := r.raw, verifiedAt := Some(now)), None)
  }

  /** A payment for what the booking itself records as its price. */
  function NewPaymentIntent(bid: Id, b: Booking, provider: Provider, txn: Id): Result<Payment> {
    if !b.status.CanCancel() then Err(Conflict)
    else if b.price <= 0 then Err(Conflict)
    else Ok(Payment(bid, provider, b.price, Initiated, txn, "", "", None, None, None))
  }
}
