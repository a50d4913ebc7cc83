// The tables the service keeps and every transaction that writes them, as functions from one state of the
// tables to the next. A transaction either commits a new state or aborts with an error; an aborted one
// leaves no trace, whatever it had written before it failed.

module Transactions {
  import opened Domain
  import Score

  /** `owners` is the join of courts and arenas: who runs the venue a court belongs to. */
  datatype DB = DB(
    bookings: map<Id, Booking>,
    payments: map<Id, Payment>,
    users: map<Id, Score.Standing>,
    owners: map<Id, Id>)

  datatype Tx = Commit(db: DB) | Abort(error: Error)

  function InTx(db: DB, tx: Tx): DB {
    match tx
    case Commit(after) => after
    case Abort(_) => db
  }

  // -------------------------------------------------------- what rows say

  predicate Kept(p: Payment) { p.status == Verified && p.refund.None? }

  predicate Flagged(p: Payment) { p.status == Verified && p.refund.Some? }

  predicate OpenCash(p: Payment) { p.provider == Cash && p.status == Initiated }

  predicate HasVerified(ps: map<Id, Payment>, bid: Id) {
    exists i | i in ps :: ps[i].booking == bid && ps[i].status == Verified
  }

  predicate HasOnlineVerified(ps: map<Id, Payment>, bid: Id) {
    exists i | i in ps :: ps[i].booking == bid && ps[i].status == Verified && ps[i].provider.IsOnline()
  }

  predicate HasOnlineKept(ps: map<Id, Payment>, bid: Id) {
    exists i | i in ps :: ps[i].booking == bid && Kept(ps[i]) && ps[i].provider.IsOnline()
  }

  predicate HasKept(ps: map<Id, Payment>, bid: Id) {
    exists i | i in ps :: ps[i].booking == bid && Kept(ps[i])
  }

  predicate KeptByAnother(ps: map<Id, Payment>, bid: Id, pid: Id) {
    exists i | i in ps :: i != pid && ps[i].booking == bid && Kept(ps[i])
  }

  predicate HasOpenCash(ps: map<Id, Payment>, bid: Id) {
    exists i | i in ps :: ps[i].booking == bid && OpenCash(ps[i])
  }

  /** The two bookings could not both stand: the rule of the exclusion constraint. */
  predicate Clash(a: Booking, b: Booking) {
    a.court == b.court && a.status.IsLive() && b.status.IsLive() && a.slot.Overlaps(b.slot)
  }

  /** Some booking blocks this court and slot right now: the pre-check, and what the grid shows as taken. */
  predicate Taken(bs: map<Id, Booking>, court: Id, slot: Slot, now: Time) {
    exists i | i in bs :: bs[i].court == court && bs[i].slot.Overlaps(slot) && bs[i].Blocks(now)
  }

  predicate Excluded(bs: map<Id, Booking>, b: Booking) {
    exists i | i in bs :: Clash(bs[i], b)
  }

  // ------------------------------------------------ statements they share

  function Released(b: Booking): Booking { b.(status := Cancelled, hold := None) }

  /** An unpaid hold that has run out. */
  predicate Stale(db: DB, bid: Id, now: Time) {
    bid in db.bookings && db.bookings[bid].HoldExpired(now) && !HasVerified(db.payments, bid)
  }

  function ReleaseOverlapping(db: DB, court: Id, slot: Slot, now: Time): map<Id, Booking> {
    map i | i in db.bookings ::
      if db.bookings[i].court == court && db.bookings[i].slot.Overlaps(slot) && Stale(db, i, now)
      then Released(db.bookings[i]) else db.bookings[i]
  }

  function FailInitiated(ps: map<Id, Payment>, bid: Id): map<Id, Payment> {
    map i | i in ps :: if ps[i].booking == bid && ps[i].status == Initiated then ps[i].(status := Failed) else ps[i]
  }

  function CloseCash(ps: map<Id, Payment>, bid: Id): map<Id, Payment> {
    map i | i in ps :: if ps[i].booking == bid && OpenCash(ps[i]) then ps[i].(status := Failed) else ps[i]
  }

  // ---------------------------------------------------- table constraints

  predicate PaymentChecks(p: Payment) {
    && p.amount > 0
    && (p.status == Verified <==> p.verifiedAt.Some?)
    && (p.refund.Some? ==> p.status == Verified)
    && (p.refundedAt.Some? ==> p.refund.Some?)
  }

  /** The gateway reference is already on another payment of the same provider. */
  predicate RefTaken(ps: map<Id, Payment>, pid: Id, provider: Provider, ref: string) {
    ref != "" && exists i | i in ps :: i != pid && ps[i].provider == provider && ps[i].ref == ref
  }

  predicate TxnTaken(ps: map<Id, Payment>, pid: Id, txn: Id) {
    exists i | i in ps :: i != pid && ps[i].txn == txn
  }

  /** Writes one payment row, new or not, past every constraint on the table. */
  function PutPayment(db: DB, pid: Id, row: Payment): Tx {
    if !PaymentChecks(row) || row.booking !in db.bookings then Abort(Internal)
    else if RefTaken(db.payments, pid, row.provider, row.ref) || TxnTaken(db.payments, pid, row.txn)
      then Abort(Internal)
    else if Kept(row) && KeptByAnother(db.payments, row.booking, pid) then Abort(Internal)
    else Commit(db.(payments := db.payments[pid := row]))
  }

  predicate BookingChecks(b: Booking) {
    && b.price >= 0 && |b.note| <= NOTE_LIMIT
    && b.slot.start <= b.slot.end
    && MIN_DURATION <= b.slot.end - b.slot.start <= MAX_DURATION
    && (b.status == Pending ==> b.hold.Some?)
  }

  // -------------------------------------------------------------- bookings

  /** Takes a hold: release what has lapsed under it, look, then insert under the exclusion constraint. */
  function CreateHold(db: DB, now: Time, id: Id, b: Booking): Tx {
    var bs := ReleaseOverlapping(db, b.court, b.slot, now);
    if Taken(bs, b.court, b.slot, now) then Abort(Conflict)
    else if id in bs then Abort(Internal)
    else if !BookingChecks(b) then Abort(Invalid)
    else if b.status.IsLive() && Excluded(bs, b) then Abort(Conflict)
    else if b.court !in db.owners || b.user !in db.users then Abort(NotFound)
    else Commit(db.(bookings := bs[id := b]))
  }

  /** Promotes a hold. It does not look at the expiry. */
  function ConfirmHold(db: DB, bid: Id): Tx {
    if bid !in db.bookings then Abort(NotFound)
    else if db.bookings[bid].status == Pending then
      Commit(db.(bookings := db.bookings[bid := db.bookings[bid].(status := Confirmed, hold := None)]))
    else if db.bookings[bid].status == Confirmed then Commit(db)
    else Abort(Conflict)
  }

  predicate IsLate(b: Booking, now: Time) {
    b.status == Confirmed && b.slot.start - now < Score.LATE_WINDOW
  }

  predicate Cancellable(db: DB, bid: Id, user: Id) {
    && bid in db.bookings && db.bookings[bid].user == user
    && db.bookings[bid].status.CanCancel()
    && !HasOnlineVerified(db.payments, bid)
  }

  function CancelledRow(b: Booking, now: Time): Booking {
    b.(status := Cancelled, hold := None, cancelledAt := Some(now),
       penalty := if IsLate(b, now) then Score.PENALTY else 0)
  }

  function WhyNotCancelled(db: DB, bid: Id, user: Id): Error {
    if bid !in db.bookings || db.bookings[bid].user != user then NotFound else Conflict
  }

  /** The player lets a booking go; a late one is charged. `monthEnd` is a month from now on the calendar. */
  function Cancel(db: DB, now: Time, bid: Id, user: Id, monthEnd: Time): Tx {
    if !Cancellable(db, bid, user) then Abort(WhyNotCancelled(db, bid, user))
    else WriteCancellation(db, now, bid, user, monthEnd)
  }

  /** What a cancellation writes once it has its booking. */
  function WriteCancellation(db: DB, now: Time, bid: Id, user: Id, monthEnd: Time): Tx
    requires bid in db.bookings
  {
    var b := db.bookings[bid];
    var released := db.(bookings := db.bookings[bid := CancelledRow(b, now)],
                        payments := FailInitiated(db.payments, bid));
    if user !in db.users then Abort(Internal)
    else if !IsLate(b, now) then Commit(released)
    else Commit(released.(users := db.users[user := Score.Charge(db.users[user], now, monthEnd)]))
  }

  predicate Restorable(db: DB, bid: Id, owner: Id) {
    && bid in db.bookings && OwnedBy(db, bid, owner)
    && db.bookings[bid].status == Cancelled && db.bookings[bid].penalty > 0 && db.bookings[bid].restoredAt.None?
  }

  predicate OwnedBy(db: DB, bid: Id, owner: Id) {
    bid in db.bookings && db.bookings[bid].court in db.owners && db.owners[db.bookings[bid].court] == owner
  }

  /** The venue gives the points of one late cancellation back, once. */
  function RestorePenalty(db: DB, now: Time, bid: Id, owner: Id): Tx {
    if !Restorable(db, bid, owner) then Abort(if OwnedBy(db, bid, owner) then Conflict else NotFound)
    else
      var b := db.bookings[bid];
      var marked := db.(bookings := db.bookings[bid := b.(restoredAt := Some(now))]);
      if b.user !in db.users then Commit(marked)
      else Commit(marked.(users := db.users[b.user := Score.GiveBack(db.users[b.user], b.penalty, now)]))
  }

  predicate Played(b: Booking, now: Time) { b.status == Confirmed && b.slot.end <= now }

  function MarkPlayed(db: DB, now: Time): Tx {
    Commit(db.(bookings := map i | i in db.bookings ::
      if Played(db.bookings[i], now) then db.bookings[i].(status := Completed) else db.bookings[i]))
  }

  /** The janitor's sweep: every stale hold is cancelled and its unfinished payments failed. */
  function ReleaseStaleHolds(db: DB, now: Time): Tx {
    Commit(db.(
      bookings := map i | i in db.bookings :: if Stale(db, i, now) then Released(db.bookings[i]) else db.bookings[i],
      payments := map i | i in db.payments ::
        if db.payments[i].status == Initiated && Stale(db, db.payments[i].booking, now)
        then db.payments[i].(status := Failed) else db.payments[i]))
  }

  // -------------------------------------------------------------- payments

  /** Records an online payment intent. */
  function CreatePayment(db: DB, pid: Id, p: Payment): Tx {
    if pid in db.payments then Abort(Conflict)
    else match PutPayment(db, pid, p)
      case Commit(after) => Commit(after)
      case Abort(_) => Abort(if TxnTaken(db.payments, pid, p.txn) then Conflict else Internal)
  }

  /** Puts a verified payment towards its booking, or says why the booking cannot take it. */
  function ApplyToBooking(db: DB, pid: Id, bid: Id): (DB, Option<RefundReason>)
    requires bid in db.bookings
  {
    var b := db.bookings[bid];
    if KeptByAnother(db.payments, bid, pid) then (db, Some(AlreadyPaid))
    else if b.status == Pending then (InTx(db, ConfirmHold(db, bid)), None)
    else if b.status == Confirmed || b.status == Completed then (db.(payments := CloseCash(db.payments, bid)), None)
    else (db, Some(BookingGone(b.status)))
  }

  /** Writes what the gateway said. `p` is the caller's copy after `Verify`; only its answer is taken from it. */
  function Settle(db: DB, now: Time, pid: Id, p: Payment): Tx {
    if pid !in db.payments then Abort(NotFound)
    else
      var row := db.payments[pid];
      if row.status.IsFinal() then Commit(db)
      else if p.status != Verified then
        if row.status == Failed then Commit(db)
        else PutPayment(db, pid, row.(status := p.status, ref := p.ref, raw := p.raw))
      else if p.booking !in db.bookings then Abort(Internal)
      else
        var (applied, reason) := ApplyToBooking(db, pid, p.booking);
        PutPayment(applied, pid, row.(status := Verified, ref := p.ref, raw := p.raw, verifiedAt := p.verifiedAt,
          refund := if reason.Some? then Some(Refund(now, reason.value)) else None))
  }

  /** Confirms a live hold; a booking already confirmed or played is left as it is. */
  function ConfirmCash(db: DB, now: Time, bid: Id): Tx {
    if bid !in db.bookings then Abort(Internal)
    else
      var b := db.bookings[bid];
      if b.status == Pending && b.Blocks(now) then
        Commit(db.(bookings := db.bookings[bid := b.(status := Confirmed, hold := None)]))
      else if b.status == Confirmed || b.status == Completed then Commit(db)
      else Abort(Conflict)
  }

  /** Books the hour against cash to be paid at the venue. */
  function BookCash(db: DB, now: Time, pid: Id, p: Payment): Tx {
    if p.booking !in db.bookings then Abort(NotFound)
    else
      var b := db.bookings[p.booking];
      if HasOpenCash(db.payments, p.booking) && b.status == Confirmed then Commit(db)
      else if b.status != Pending || !b.Blocks(now) then Abort(Conflict)
      else if HasOpenCash(db.payments, p.booking) then ConfirmCash(db, now, p.booking)
      else if pid in db.payments then Abort(Internal)
      else match PutPayment(db, pid, p)
        case Abort(_) => Abort(Internal)
        case Commit(recorded) => ConfirmCash(recorded, now, p.booking)
  }

  /** The cash payment, if it was taken at a venue of the caller's. */
  function OwnedCash(db: DB, pid: Id, owner: Id): Result<Payment> {
    if pid !in db.payments || !OwnedBy(db, db.payments[pid].booking, owner) then Err(NotFound)
    else if db.payments[pid].provider != Cash then Err(Conflict)
    else Ok(db.payments[pid])
  }

  function ApproveCash(db: DB, now: Time, pid: Id, owner: Id): Tx {
    match OwnedCash(db, pid, owner)
    case Err(e) => Abort(e)
    case Ok(p) =>
      if p.status != Initiated && p.status != Verified then Abort(Conflict)
      else ConfirmCash(db, now, p.booking)
  }

  function DeclineCash(db: DB, pid: Id, owner: Id): Tx {
    match OwnedCash(db, pid, owner)
    case Err(e) => Abort(e)
    case Ok(p) =>
      if p.status == Failed then Commit(db)
      else if p.status != Initiated then Abort(Conflict)
      else if p.booking !in db.bookings || db.bookings[p.booking].status != Pending then Abort(Conflict)
      else PutPayment(db.(bookings := db.bookings[p.booking := Released(db.bookings[p.booking])]), pid,
        p.(status := Failed))
  }

  /** The venue says the notes were handed over, at `at`. */
  function MarkCashReceived(db: DB, now: Time, pid: Id, owner: Id, at: Time): Tx {
    match OwnedCash(db, pid, owner)
    case Err(e) => Abort(e)
    case Ok(p) =>
      if p.status.IsSettled() then Commit(db)
      else match ConfirmCash(db, now, p.booking)
        case Abort(e) => Abort(e)
        case Commit(confirmed) => PutPayment(confirmed, pid, p.(status := Verified, verifiedAt := Some(at)))
  }

  /** The venue says a flagged payment has been sent back, once. */
  function MarkRefunded(db: DB, now: Time, pid: Id, owner: Id): Tx {
    if pid in db.payments && OwnedBy(db, db.payments[pid].booking, owner)
       && db.payments[pid].refund.Some? && db.payments[pid].refundedAt.None?
    then PutPayment(db, pid, db.payments[pid].(refundedAt := Some(now)))
    else Abort(NotFound)
  }
}
