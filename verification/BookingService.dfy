// The two paths that have to agree: the grid a player is shown, and the booking made from it.

module BookingService {
  import opened Domain
  import T = Transactions
  import opened Invariant
  import opened Preservation
  import opened Pricing
  import opened Grid
  import opened Janitor
  import opened Effects
  import Protocol
  import Score

  /** Everything needed to price and validate a booking on one court. */
  datatype Court = Court(id: Id, opens: DayTime, closes: DayTime, active: bool, arenaActive: bool, base: int,
      rules: seq<Rule>) {
    predicate Bookable() { active && arenaActive }

    /** What the tables of venues, courts and rules guarantee of a row. */
    predicate Sound() {
      opens.Valid() && closes.Valid() && opens.Minutes() < closes.Minutes() && base > 0 &&
      forall r :: r in rules ==> r.price > 0
    }
  }

  /** Takes a hold: cheap checks first, then who is asking, the court, its hours and its price, then the store. */
  function Create(db: T.DB, now: Time, off: int, user: Option<Id>, court: Option<Court>, slot: Slot, note: string,
                  window: int, id: Id): T.Tx
  {
    if !slot.Valid() then T.Abort(Invalid)
    else if slot.IsPast(now) then T.Abort(Invalid)
    else if user.None? then T.Abort(Unauthenticated)
    else if user.value !in db.users then T.Abort(NotFound)
    else if Score.Banned(db.users[user.value], now) then T.Abort(Forbidden)
    else if court.None? || !court.value.Bookable() then T.Abort(NotFound)
    else if !WithinHours(slot, court.value.opens, court.value.closes, off) then T.Abort(Invalid)
    else
      var price := ResolvePrice(court.value.base, court.value.rules, slot, off);
      match NewHold(court.value.id, user.value, slot, price, note, now, window)
      case Err(e) => T.Abort(e)
      case Ok(b) => T.CreateHold(db, now, id, b)
  }

  /** What the grid of a court is projected from. */
  function GridFor(court: Court, date: Time, off: int, booked: seq<Slot>, now: Time): Grid.Request {
    Grid.Request(date, court.opens, court.closes, off, court.base, court.rules, booked, now)
  }

  /** The grid of a court on a date, over the slots taken on it that day. */
  ghost predicate IsAvailability(grid: seq<GridSlot>, db: T.DB, court: Court, date: Time, off: int, now: Time) {
    IsGrid(grid, GridFor(court, date, off, [], now), BookedRanges(db.bookings, court.id, Window(date, off), now))
  }

  /** The rows of the query for taken slots, in whatever number and order they come. */
  predicate AreBookedRows(rows: seq<Slot>, db: T.DB, court: Id, window: Slot, now: Time) {
    Grid.Taken(rows) == BookedRanges(db.bookings, court, window, now)
  }

  /** `rows` is what the store answers to the query for taken slots. */
  method Availability(db: T.DB, now: Time, off: int, court: Option<Court>, date: Time, rows: seq<Slot>)
    returns (grid: Result<seq<GridSlot>>)
    requires court.Some? ==> AreBookedRows(rows, db, court.value.id, Window(date, off), now)
    ensures grid.Ok? <==> court.Some? && court.value.Bookable()
    ensures grid.Ok? ==> IsAvailability(grid.value, db, court.value, date, off, now)
    ensures grid.Err? ==> grid.error == NotFound
  {
    if court.None? || !court.value.Bookable() { return Err(NotFound); }
    var cells := BuildGrid(GridFor(court.value, date, off, rows, now));
    forall k | 0 <= k < |cells|
      ensures IsCell(cells[k], GridFor(court.value, date, off, [], now), Grid.Taken(rows), k)
    {
      assert IsCell(cells[k], GridFor(court.value, date, off, rows, now), Grid.Taken(rows), k);
    }
    grid := Ok(cells);
  }

  /** A cell is shown as booked exactly when a hold on it would be refused. */
  lemma CellShowsTaken(grid: seq<GridSlot>, db: T.DB, court: Court, date: Time, off: int, now: Time, k: nat)
    requires IsAvailability(grid, db, court, date, off, now) && court.Sound() && k < |grid|
    ensures grid[k].isBooked <==> T.Taken(db.bookings, court.id, grid[k].slot, now)
  {
    var req := GridFor(court, date, off, [], now);
    var taken := BookedRanges(db.bookings, court.id, Window(date, off), now);
    assert IsCell(grid[k], req, taken, k);
    CellsTileTheOpening(grid, req, taken, k);
    var slot := grid[k].slot;
    if T.Taken(db.bookings, court.id, slot, now) {
      var i :| i in db.bookings && db.bookings[i].court == court.id && db.bookings[i].slot.Overlaps(slot) &&
        db.bookings[i].Blocks(now);
      assert db.bookings[i].slot in taken && slot.Overlaps(db.bookings[i].slot);
    }
    if grid[k].isBooked {
      var t :| t in taken && slot.Overlaps(t);
      var i :| i in db.bookings && db.bookings[i].court == court.id && db.bookings[i].Blocks(now) &&
        db.bookings[i].slot == t;
      assert db.bookings[i].slot.Overlaps(slot);
    }
  }

  /** Who and what may book: everything `Create` asks for that the grid says nothing about. */
  predicate MayBook(db: T.DB, now: Time, user: Id, court: Court, note: string, window: int, id: Id) {
    && user in db.users && !Score.Banned(db.users[user], now)
    && court.Bookable() && court.id in db.owners && |note| <= NOTE_LIMIT && window > 0 && id !in db.bookings
    && now > PAST_GRACE
  }

  /** An hour costs its rate, and every rate is positive. */
  lemma HourPrice(court: Court, slot: Slot, off: int)
    requires court.Sound() && slot.end == slot.start + HOUR
    ensures ResolvePrice(court.base, court.rules, slot, off).total > 0
  {
    assert slot.Hours() == 1;
    var k := Pick(court.rules, slot.start, off);
    assert k.Some? ==> court.rules[k.value] in court.rules;
  }

  lemma CellPasses(grid: seq<GridSlot>, db: T.DB, court: Court, date: Time, off: int, now: Time, k: nat)
    requires IsAvailability(grid, db, court, date, off, now) && court.Sound() && k < |grid|
    ensures grid[k].slot.end - grid[k].slot.start == HOUR
    ensures WithinHours(grid[k].slot, court.opens, court.closes, off)
    ensures grid[k].price == ResolvePrice(court.base, court.rules, grid[k].slot, off).total > 0
    ensures grid[k].isPeak == ResolvePrice(court.base, court.rules, grid[k].slot, off).isPeak
    ensures grid[k].isPast <==> grid[k].slot.start < now
  {
    var req := GridFor(court, date, off, [], now);
    assert IsCell(grid[k], req, BookedRanges(db.bookings, court.id, Window(date, off), now), k);
    CellsAreWithinHours(date, court.opens, court.closes, off, k);
    HourPrice(court, grid[k].slot, off);
  }

  /**
   * The grid is honest. Booking a cell succeeds exactly when it is not shown as booked and it started no more than
   * the grace ago; the booking then stored is for the cell's slot at the cell's price; and a booked cell conflicts.
   */
  lemma GridIsHonest(grid: seq<GridSlot>, db: T.DB, court: Court, date: Time, off: int, now: Time, k: nat,
                     user: Id, note: string, window: int, id: Id)
    requires Inv(db) && IsAvailability(grid, db, court, date, off, now) && court.Sound() && k < |grid|
    requires MayBook(db, now, user, court, note, window, id)
    ensures var tx := Create(db, now, off, Some(user), Some(court), grid[k].slot, note, window, id);
      && (tx.Commit? <==> !grid[k].isBooked && grid[k].slot.start >= now - MINUTE)
      && (grid[k].Available() <==> !grid[k].isBooked && grid[k].slot.start >= now)
      && (grid[k].Available() ==> tx.Commit?)
      && (tx.Commit? ==>
        id in tx.db.bookings && tx.db.bookings[id].slot == grid[k].slot && tx.db.bookings[id].court == court.id
                         && tx.db.bookings[id].price == grid[k].price && tx.db.bookings[id].isPeak == grid[k].isPeak)
      && (grid[k].isBooked && !grid[k].slot.IsPast(now) ==> tx == T.Abort(Conflict))
  {
    CellPasses(grid, db, court, date, off, now, k);
    CellShowsTaken(grid, db, court, date, off, now, k);
    var slot := grid[k].slot;
    if !slot.IsPast(now) {
      var price := ResolvePrice(court.base, court.rules, slot, off);
      var hold := NewHold(court.id, user, slot, price, note, now, window);
      assert slot.Valid();
      HoldGrantedIff(db, now, id, hold.value);
      assert Create(db, now, off, Some(user), Some(court), slot, note, window, id)
        == T.CreateHold(db, now, id, hold.value);
    }
  }

  // ------------------------------------------------- what the hours let through

  /** The slot lies inside the hours of the day it starts on. */
  predicate Inside(s: Slot, opens: DayTime, closes: DayTime, off: int) {
    var midnight := Midnight(s.start, off);
    midnight + opens.Minutes() * MINUTE <= s.start && s.end <= midnight + closes.Minutes() * MINUTE
  }

  /** A slot that ends less than a minute after closing, or one that ends at midnight and starts before opening. */
  predicate SlipsThrough(s: Slot, opens: DayTime, closes: DayTime, off: int) {
    var midnight := Midnight(s.start, off);
    var close := midnight + closes.Minutes() * MINUTE;
    if s.end < midnight + DAY then
      midnight + opens.Minutes() * MINUTE <= s.start && close < s.end < close + MINUTE
    else
      && closes.Minutes() == 24 * 60 && s.end < midnight + DAY + SECOND
      && (s.start < midnight + opens.Minutes() * MINUTE || midnight + DAY < s.end)
  }

  /** The check of opening hours accepts exactly what lies inside them and what slips through. */
  lemma HoursAcceptIff(s: Slot, opens: DayTime, closes: DayTime, off: int)
    requires s.Valid() && opens.Valid() && closes.Valid() && opens.Minutes() < closes.Minutes()
    ensures WithinHours(s, opens, closes, off) <==> Inside(s, opens, closes, off) || SlipsThrough(s, opens, closes, off)
    ensures !(Inside(s, opens, closes, off) && SlipsThrough(s, opens, closes, off))
  {
    var day, a, b := LocalDay(s.start, off), TimeOfDay(s.start, off), s.end - Midnight(s.start, off);
    assert s.start + off == day * DAY + a && s.end + off == day * DAY + b && 0 <= a < DAY;
    MinuteOf(s.start, off, day, a);
    if b < DAY {
      HoursSameDay(s, opens, closes, off, day, a, b);
    } else {
      PastMidnight(s, opens, closes, off, day, a, b - DAY);
    }
  }

  lemma HoursSameDay(s: Slot, opens: DayTime, closes: DayTime, off: int, day: int, a: int, b: int)
    requires opens.Valid() && closes.Valid() && 0 <= a <= b < DAY
    requires s.start + off == day * DAY + a && s.end + off == day * DAY + b
    ensures WithinHours(s, opens, closes, off) <==> Inside(s, opens, closes, off) || SlipsThrough(s, opens, closes, off)
    ensures !(Inside(s, opens, closes, off) && SlipsThrough(s, opens, closes, off))
  {
    MinuteOf(s.start, off, day, a);
    MinuteOf(s.end, off, day, b);
    WholeMinutes(a, DayTimeOf(s.start, off).Minutes(), opens.Minutes());
    WholeMinutes(b, DayTimeOf(s.end, off).Minutes(), closes.Minutes() + 1);
    SameDay(s, opens, closes, off);
  }

  /** A time of day is at or after a whole minute iff its minute is. */
  lemma WholeMinutes(r: int, m: int, bound: int)
    requires m * MINUTE <= r < m * MINUTE + MINUTE
    ensures m >= bound <==> r >= bound * MINUTE
  {
  }

  lemma SameDay(s: Slot, opens: DayTime, closes: DayTime, off: int)
    requires LocalDay(s.end, off) == LocalDay(s.start, off) && closes.Valid()
    requires DayTimeOf(s.start, off).Minutes() >= opens.Minutes()
      <==> s.start - Midnight(s.start, off) >= opens.Minutes() * MINUTE
    requires DayTimeOf(s.end, off).Minutes() >= closes.Minutes() + 1
      <==> s.end - Midnight(s.start, off) >= (closes.Minutes() + 1) * MINUTE
    requires s.end - Midnight(s.start, off) < DAY
    ensures WithinHours(s, opens, closes, off) <==> Inside(s, opens, closes, off) || SlipsThrough(s, opens, closes, off)
    ensures !(Inside(s, opens, closes, off) && SlipsThrough(s, opens, closes, off))
  {
  }

  lemma PastMidnight(s: Slot, opens: DayTime, closes: DayTime, off: int, day: int, a: int, r: int)
    requires opens.Valid() && closes.Valid() && opens.Minutes() < closes.Minutes() && 0 <= a < DAY && 0 <= r < DAY
    requires s.start + off == day * DAY + a && s.end + off == (day + 1) * DAY + r
    ensures WithinHours(s, opens, closes, off) <==> Inside(s, opens, closes, off) || SlipsThrough(s, opens, closes, off)
    ensures !(Inside(s, opens, closes, off) && SlipsThrough(s, opens, closes, off))
  {
    MinuteOf(s.start, off, day, a);
    MinuteOf(s.end, off, day + 1, r);
    JustMidnight(s.end, off, day + 1, r);
    assert Midnight(s.start, off) + DAY + r == s.end && closes.Minutes() <= 24 * 60;
  }

  /** What the check takes for midnight is the first second of the day. */
  lemma JustMidnight(t: Time, off: int, day: int, r: int)
    requires t + off == day * DAY + r && 0 <= r < DAY
    ensures DayTimeOf(t, off).Minutes() == 0 && TimeOfDay(t, off) % MINUTE < SECOND <==> r < SECOND
  {
    MinuteOf(t, off, day, r);
  }

  lemma MinuteOf(t: Time, off: int, day: int, r: int)
    requires t + off == day * DAY + r && 0 <= r < DAY
    ensures LocalDay(t, off) == day && TimeOfDay(t, off) == r
    ensures DayTimeOf(t, off).Minutes() * MINUTE <= r < DayTimeOf(t, off).Minutes() * MINUTE + MINUTE
    ensures DayTimeOf(t, off).Minutes() * MINUTE + r % MINUTE == r
  {
    assert r / HOUR * 60 + r % HOUR / MINUTE == r / MINUTE;
  }

  /** A venue open from 22:00 to midnight is booked from 20:00. */
  lemma EarlyStartSlipsThrough()
    ensures var s, opens, closes := Slot(20 * HOUR, 24 * HOUR), DayTime(22, 0), DayTime(24, 0);
      s.Valid() && WithinHours(s, opens, closes, 0) && !Inside(s, opens, closes, 0)
  {
  }

  // --------------------------------------------------- who may book what, when

  predicate Bookable(slot: Slot) {
    slot.start != 0 && slot.end != 0 && slot.start < slot.end && 30 * MINUTE <= slot.end - slot.start <= 4 * HOUR
  }

  predicate Barred(st: Score.Standing, now: Time) {
    st.bannedUntil.Some? && st.bannedUntil.value > now
  }

  /** The booking stands in the way of anybody else: confirmed, played, or held and not run out. */
  predicate InTheWay(b: Booking, court: Id, slot: Slot, now: Time) {
    && b.court == court && b.slot.start < slot.end && slot.start < b.slot.end
    && (b.status == Confirmed || b.status == Completed || (b.status == Pending && b.hold.Some? && b.hold.value > now))
  }

  predicate SlotIsTaken(db: T.DB, court: Id, slot: Slot, now: Time) {
    exists i | i in db.bookings :: InTheWay(db.bookings[i], court, slot, now)
  }

  predicate HoursAllow(court: Court, slot: Slot, off: int) {
    Inside(slot, court.opens, court.closes, off) || SlipsThrough(slot, court.opens, court.closes, off)
  }

  /** Why a player is refused: the first of these conditions that fails, in the order they are looked at. */
  function Refusal(db: T.DB, now: Time, off: int, user: Option<Id>, court: Option<Court>, slot: Slot, note: string,
                   window: int, id: Id): Option<Error>
  {
    if !Bookable(slot) || slot.start < now - MINUTE then Some(Invalid)
    else if user == None then Some(Unauthenticated)
    else if user.value !in db.users then Some(NotFound)
    else if Barred(db.users[user.value], now) then Some(Forbidden)
    else if court == None || !court.value.active || !court.value.arenaActive then Some(NotFound)
    else if !HoursAllow(court.value, slot, off) || |note| > 280 then Some(Invalid)
    else if window <= 0 then Some(Internal)
    else if SlotIsTaken(db, court.value.id, slot, now) then Some(Conflict)
    else if id in db.bookings then Some(Internal)
    else if court.value.id !in db.owners then Some(NotFound)
    else None
  }

  lemma TakenIsSlotIsTaken(db: T.DB, court: Id, slot: Slot, now: Time)
    requires Inv(db)
    ensures T.Taken(db.bookings, court, slot, now) <==> SlotIsTaken(db, court, slot, now)
  {
    forall i | i in db.bookings
      ensures InTheWay(db.bookings[i], court, slot, now)
        <==> db.bookings[i].court == court && db.bookings[i].slot.Overlaps(slot) && db.bookings[i].Blocks(now)
    {
      assert BookingRow(db, db.bookings[i]);
    }
  }

  /** Every rule is positive, so every price is. */
  lemma PricePositive(court: Court, slot: Slot, off: int)
    requires court.Sound() && slot.start < slot.end
    ensures ResolvePrice(court.base, court.rules, slot, off).total > 0
  {
    var k := Pick(court.rules, slot.start, off);
    assert k.Some? ==> court.rules[k.value] in court.rules;
    var price, h := ResolvePrice(court.base, court.rules, slot, off), slot.Hours();
    HoursAreBilled(slot, h);
    PriceByFields(court.base, court.rules, slot, off, h);
    PositiveProduct(price.perHour, h);
  }

  lemma PositiveProduct(x: int, y: int)
    requires x > 0 && y > 0
    ensures x * y > 0
  {
  }

  /** The row a granted request stores. */
  predicate StoredFor(row: Booking, user: Id, court: Court, slot: Slot, note: string, until: Time, off: int) {
    && row.user == user && row.court == court.id && row.slot == slot && row.note == note
    && row.status == Pending && row.hold == Some(until)
    && row.cancelledAt == None && row.penalty == 0 && row.restoredAt == None
    && row.price == ResolvePrice(court.base, court.rules, slot, off).total
    && row.isPeak == ResolvePrice(court.base, court.rules, slot, off).isPeak
  }

  /**
   * Every request to book is refused for the first condition that fails, and granted exactly when none does. Then the
   * player holds the slot for the window; of the other bookings exactly the pending ones under the slot that ran out
   * are cancelled; payments and players are untouched.
   */
  lemma CreateActs(db: T.DB, now: Time, off: int, user: Option<Id>, court: Option<Court>, slot: Slot, note: string,
                   window: int, id: Id)
    requires Inv(db) && (court.Some? ==> court.value.Sound())
    ensures var tx, no := Create(db, now, off, user, court, slot, note, window, id),
                          Refusal(db, now, off, user, court, slot, note, window, id);
      if no.Some? then tx == T.Abort(no.value)
      else
        && tx.Commit? && tx.db.payments == db.payments && tx.db.users == db.users && tx.db.owners == db.owners
        && tx.db.bookings.Keys == db.bookings.Keys + {id}
        && StoredFor(tx.db.bookings[id], user.value, court.value, slot, note, now + window, off)
        && forall i | i in db.bookings :: StaysOrLapses(db.bookings[i], tx.db.bookings[i], court.value.id, slot, now)
  {
    if Bookable(slot) && slot.start >= now - MINUTE && court.Some? {
      HoursAcceptIff(slot, court.value.opens, court.value.closes, off);
      TakenIsSlotIsTaken(db, court.value.id, slot, now);
      PricePositive(court.value, slot, off);
      if user.Some? && window > 0 && |note| <= 280 {
        HoldActs(db, now, off, user.value, court.value, slot, note, window, id);
      }
    }
  }

  /** What becomes of a booking when a hold is granted. */
  predicate StaysOrLapses(before: Booking, after: Booking, court: Id, slot: Slot, now: Time) {
    var lapses := before.court == court && before.slot.start < slot.end && slot.start < before.slot.end &&
      before.status == Pending && before.hold.Some? && before.hold.value <= now;
    after == if lapses then before.(status := Cancelled, hold := None) else before
  }

  lemma HoldActs(db: T.DB, now: Time, off: int, user: Id, court: Court, slot: Slot, note: string, window: int, id: Id)
    requires Inv(db) && court.Sound() && Bookable(slot) && slot.start >= now - MINUTE && |note| <= 280 && window > 0
    ensures var price := ResolvePrice(court.base, court.rules, slot, off);
      var hold := NewHold(court.id, user, slot, price, note, now, window);
      hold.Ok? &&
      var tx := T.CreateHold(db, now, id, hold.value);
      && StoredFor(hold.value, user, court, slot, note, now + window, off)
      && (if T.Taken(db.bookings, court.id, slot, now) then tx == T.Abort(Conflict)
          else if id in db.bookings then tx == T.Abort(Internal)
          else if court.id !in db.owners || user !in db.users then tx == T.Abort(NotFound)
          else
            && tx.Commit? && tx.db.payments == db.payments && tx.db.users == db.users && tx.db.owners == db.owners
            && tx.db.bookings.Keys == db.bookings.Keys + {id} && tx.db.bookings[id] == hold.value
            && forall i | i in db.bookings :: StaysOrLapses(db.bookings[i], tx.db.bookings[i], court.id, slot, now))
  {
    var hold := NewHold(court.id, user, slot, ResolvePrice(court.base, court.rules, slot, off), note, now,
      window).value;
    PricePositive(court, slot, off);
    HoldGrantedIff(db, now, id, hold);
    var tx := T.CreateHold(db, now, id, hold);
    if tx.Commit? {
      forall i | i in db.bookings ensures StaysOrLapses(db.bookings[i], tx.db.bookings[i], court.id, slot, now) {
        HoldTouchesOnlyLapsed(db, now, id, hold, i);
      }
    } else if !T.Taken(db.bookings, court.id, slot, now) {
      PreCheckSuffices(db, now, hold);
      ReleaseKeepsTaken(db, court.id, slot, now, court.id, slot);
    }
  }

  /** A granted request is the step that takes a hold. */
  lemma CreateIsTheStep(t: Protocol.Sys, off: int, user: Id, court: Court, slot: Slot, note: string, window: int,
      id: Id)
    requires Create(t.db, t.now, off, Some(user), Some(court), slot, note, window, id).Commit?
    ensures var price := ResolvePrice(court.base, court.rules, slot, off);
      Protocol.Apply(t, Protocol.TakeHold(id, court.id, user, slot, price, note, t.now, window)).db
      == Create(t.db, t.now, off, Some(user), Some(court), slot, note, window, id).db
  {
  }
}
