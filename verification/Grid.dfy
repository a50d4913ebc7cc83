// The availability grid of one court on one date, projected rather than stored, and the opening hours a booking
// is checked against.

module Grid {
  import opened Domain
  import opened Pricing

  // ----------------------------------------------------------- opening hours

  /** A wall-clock time of day; 24:00 is the end of the day. */
  datatype DayTime = DayTime(hour: int, minute: int) {
    predicate Valid() {
      0 <= hour <= 24 && 0 <= minute <= 59 && (hour == 24 ==> minute == 0)
    }
    function Minutes(): int { hour * 60 + minute }
  }

  /** The time of day of an instant, seconds dropped. */
  function DayTimeOf(t: Time, off: int): DayTime {
    DayTime(LocalHour(t, off), TimeOfDay(t, off) % HOUR / MINUTE)
  }

  /**
   * Within one local day the two ends are compared with the hours; a slot may also end at midnight if the venue does.
   */
  predicate WithinHours(s: Slot, opens: DayTime, closes: DayTime, off: int) {
    if LocalDay(s.start, off) != LocalDay(s.end, off) then
      var end := DayTimeOf(s.end, off);
      && end.Minutes() == 0 && TimeOfDay(s.end, off) % MINUTE < SECOND
      && LocalDay(s.end, off) - 1 == LocalDay(s.start, off)
      && (closes.Minutes() == DayTime(24, 0).Minutes() || closes.Minutes() == 0)
    else
      DayTimeOf(s.start, off).Minutes() >= opens.Minutes() && DayTimeOf(s.end, off).Minutes() <= closes.Minutes()
  }

  // -------------------------------------------------------------------- grid

  datatype GridSlot = GridSlot(slot: Slot, price: int, isPeak: bool, ruleLabel: string, isBooked: bool, isPast: bool) {
    predicate Available() { !isBooked && !isPast }
  }

  datatype Request = Request(date: Time, opens: DayTime, closes: DayTime, off: int, base: int, rules: seq<Rule>,
                             booked: seq<Slot>, now: Time)

  function Midnight(date: Time, off: int): Time { LocalDay(date, off) * DAY - off }

  /** The whole local day of a date. */
  function Window(date: Time, off: int): Slot { Slot(Midnight(date, off), Midnight(date, off) + DAY) }

  /** The window is the local day that holds the date: it begins at a local midnight and lasts 24 hours. */
  lemma WindowHoldsTheDate(date: Time, off: int)
    ensures var w := Window(date, off);
      w.start <= date < w.end && w.end == w.start + 24 * HOUR && (w.start + off) % DAY == 0
  {
    var t := date + off;
    assert t == (t / DAY) * DAY + t % DAY;
    WholeDays(t / DAY);
    assert Midnight(date, off) + off == (t / DAY) * DAY;
    WholeDaysRemain(t / DAY);
  }

  lemma WholeDaysRemain(d: int)
    ensures d * DAY % DAY == 0
  {
  }

  /** How many whole hours fit between opening and closing. */
  function Capacity(opens: DayTime, closes: DayTime): nat {
    if closes.Minutes() <= opens.Minutes() then 0 else (closes.Minutes() - opens.Minutes()) / 60
  }

  function CellSlot(date: Time, opens: DayTime, off: int, k: nat): Slot {
    var start := Midnight(date, off) + opens.Minutes() * MINUTE + k * HOUR;
    Slot(start, start + HOUR)
  }

  /**
   * `cell` is the k-th hour from opening, priced by the rules, booked iff something taken shares an instant with it.
   */
  ghost predicate IsCell(cell: GridSlot, req: Request, taken: set<Slot>, k: nat) {
    var price := ResolvePrice(req.base, req.rules, cell.slot, req.off);
    && cell.slot == CellSlot(req.date, req.opens, req.off, k)
    && cell.price == price.total && cell.isPeak == price.isPeak && cell.ruleLabel == price.ruleLabel
    && (cell.isBooked <==> exists t :: t in taken && cell.slot.Overlaps(t))
    && (cell.isPast <==> cell.slot.start < req.now)
  }

  function Taken(booked: seq<Slot>): set<Slot> { set t | t in booked }

  /** What a grid is: exactly the whole hours of the opening, in order. */
  ghost predicate IsGrid(grid: seq<GridSlot>, req: Request, taken: set<Slot>) {
    && |grid| == Capacity(req.opens, req.closes)
    && forall k :: 0 <= k < |grid| ==> IsCell(grid[k], req, taken, k)
  }

  method OverlapsAny(slot: Slot, taken: seq<Slot>) returns (hit: bool)
    ensures hit <==> exists t :: t in Taken(taken) && slot.Overlaps(t)
  {
    for i := 0 to |taken|
      invariant forall j :: 0 <= j < i ==> !slot.Overlaps(taken[j])
    {
      if slot.Overlaps(taken[i]) {
        assert taken[i] in Taken(taken);
        return true;
      }
    }
    return false;
  }

  method BuildGrid(req: Request) returns (grid: seq<GridSlot>)
    ensures IsGrid(grid, req, Taken(req.booked))
  {
    grid := [];
    var open, close := req.opens.Minutes(), req.closes.Minutes();
    if close <= open { return; }
    var midnight := Midnight(req.date, req.off);
    var offset := open;
    while offset + 60 <= close
      invariant offset == open + 60 * |grid|
      invariant open <= offset && offset <= close
      invariant forall k :: 0 <= k < |grid| ==> IsCell(grid[k], req, Taken(req.booked), k)
      decreases close - offset
    {
      var start := midnight + offset * MINUTE;
      var slot := Slot(start, start + HOUR);
      var price := ResolvePrice(req.base, req.rules, slot, req.off);
      var isBooked := OverlapsAny(slot, req.booked);
      var cell := GridSlot(slot, price.total, price.isPeak, price.ruleLabel, isBooked, slot.start < req.now);
      assert IsCell(cell, req, Taken(req.booked), |grid|);
      grid := grid + [cell];
      offset := offset + 60;
    }
  }

  /** Two grids of the same request over the same taken slots are the same grid. */
  lemma GridIsDetermined(a: seq<GridSlot>, b: seq<GridSlot>, req: Request, taken: set<Slot>)
    requires IsGrid(a, req, taken) && IsGrid(b, req, taken)
    ensures a == b
  {
    forall k | 0 <= k < |a| ensures a[k] == b[k] {
      assert IsCell(a[k], req, taken, k) && IsCell(b[k], req, taken, k);
    }
  }

  lemma CapacityFits(opens: DayTime, closes: DayTime, k: nat)
    requires k < Capacity(opens, closes)
    ensures opens.Minutes() + 60 * k + 60 <= closes.Minutes()
    ensures k == Capacity(opens, closes) - 1 ==> closes.Minutes() < opens.Minutes() + 60 * k + 120
  {
  }

  lemma CellPlace(date: Time, opens: DayTime, off: int, k: nat)
    ensures var s := CellSlot(date, opens, off, k); var m := Midnight(date, off);
      && s == Slot(m + (opens.Minutes() + 60 * k) * MINUTE, m + (opens.Minutes() + 60 * k + 60) * MINUTE)
      && (k > 0 ==> s.start == CellSlot(date, opens, off, k - 1).end)
  {
    assert k * HOUR == (60 * k) * MINUTE;
  }

  lemma CellTimes(date: Time, opens: DayTime, closes: DayTime, off: int, k: nat)
    requires opens.Valid() && closes.Valid() && k < Capacity(opens, closes)
    ensures var s := CellSlot(date, opens, off, k); var m := Midnight(date, off);
      && s.end == s.start + HOUR
      && m <= s.start && s.end <= m + closes.Minutes() * MINUTE <= m + DAY
      && s == Slot(m + (opens.Minutes() + 60 * k) * MINUTE, m + (opens.Minutes() + 60 * k + 60) * MINUTE)
      && (k > 0 ==> s.start == CellSlot(date, opens, off, k - 1).end)
      && (k == Capacity(opens, closes) - 1 ==> s.end + HOUR > m + closes.Minutes() * MINUTE)
  {
    CellPlace(date, opens, off, k);
    CapacityFits(opens, closes, k);
    var m, open, close := Midnight(date, off), opens.Minutes(), closes.Minutes();
    assert 0 <= open && close <= 24 * 60;
    InMinutes(m, open + 60 * k, close);
  }

  /** An hour that starts `a` minutes into a day, against closing at `close` minutes. */
  lemma InMinutes(m: Time, a: int, close: int)
    requires 0 <= a && a + 60 <= close <= 24 * 60
    ensures m <= m + a * MINUTE && m + (a + 60) * MINUTE <= m + close * MINUTE <= m + DAY
    ensures m + (a + 60) * MINUTE == m + a * MINUTE + HOUR
    ensures close < a + 120 ==> m + (a + 60) * MINUTE + HOUR > m + close * MINUTE
  {
  }

  /** Cells are consecutive hours from opening, as many as fit, and none runs past closing or leaves the day. */
  lemma CellsTileTheOpening(grid: seq<GridSlot>, req: Request, taken: set<Slot>, k: nat)
    requires IsGrid(grid, req, taken) && k < |grid| && req.opens.Valid() && req.closes.Valid()
    ensures grid[k].slot.end == grid[k].slot.start + HOUR
    ensures grid[0].slot.start == Midnight(req.date, req.off) + req.opens.Minutes() * MINUTE
    ensures k > 0 ==> grid[k].slot.start == grid[k - 1].slot.end
    ensures grid[k].slot.end <= Midnight(req.date, req.off) + req.closes.Minutes() * MINUTE
    ensures Window(req.date, req.off).start <= grid[k].slot.start && grid[k].slot.end <= Window(req.date, req.off).end
    ensures k == |grid| - 1 ==> grid[k].slot.end + HOUR > Midnight(req.date, req.off) + req.closes.Minutes() * MINUTE
  {
    assert IsCell(grid[k], req, taken, k) && IsCell(grid[0], req, taken, 0);
    assert k > 0 ==> IsCell(grid[k - 1], req, taken, k - 1);
    CellTimes(req.date, req.opens, req.closes, req.off, k);
  }

  /** Every cell lies within the opening hours a booking is checked against. */
  lemma CellsAreWithinHours(date: Time, opens: DayTime, closes: DayTime, off: int, k: nat)
    requires opens.Valid() && closes.Valid() && k < Capacity(opens, closes)
    ensures WithinHours(CellSlot(date, opens, off, k), opens, closes, off)
  {
    var s := CellSlot(date, opens, off, k);
    var day := LocalDay(date, off);
    var m := opens.Minutes() + 60 * k;
    CellTimes(date, opens, closes, off, k);
    OnTheClock(s.start, off, day, m);
    if m + 60 < 24 * 60 {
      OnTheClock(s.end, off, day, m + 60);
    } else {
      assert closes.Minutes() == 24 * 60;
      OnTheClock(s.end, off, day + 1, 0);
    }
  }

  /** An instant that is `m` minutes into a local day reads as that day and that time. */
  lemma OnTheClock(t: Time, off: int, day: int, m: int)
    requires t + off == day * DAY + m * MINUTE && 0 <= m < 24 * 60
    ensures LocalDay(t, off) == day && TimeOfDay(t, off) == m * MINUTE && DayTimeOf(t, off).Minutes() == m
  {
    assert 0 <= m * MINUTE < DAY;
    MinutesBack(m);
  }

  lemma MinutesBack(m: int)
    requires 0 <= m
    ensures (m * MINUTE / HOUR) * 60 + m * MINUTE % HOUR / MINUTE == m
  {
  }
}
