// The city-wide view of one date: every court's grid from one batched query, with the number of open hours and the
// cheapest of them.

module Ledger {
  import opened Domain
  import T = Transactions
  import opened Grid
  import opened Janitor
  import opened BookingService

  datatype TakenRow = TakenRow(court: Id, slot: Slot)

  /** The batched query: the taken slots of many courts, each row naming its court. */
  predicate AreBatchedRows(rows: seq<TakenRow>, db: T.DB, ids: set<Id>, window: Slot, now: Time) {
    && (forall r :: r in rows ==> r.court in ids && r.slot in BookedRanges(db.bookings, r.court, window, now))
    && (forall c, t | c in ids && t in BookedRanges(db.bookings, c, window, now) :: TakenRow(c, t) in rows)
  }

  /** The slots of one court among the rows, in the order of the rows. */
  function OfCourt(rows: seq<TakenRow>, court: Id): seq<Slot> {
    if rows == [] then []
    else
      var n := |rows| - 1;
      OfCourt(rows[..n], court) + (if rows[n].court == court then [rows[n].slot] else [])
  }

  function LookUp(byCourt: map<Id, seq<Slot>>, court: Id): seq<Slot> {
    if court in byCourt then byCourt[court] else []
  }

  /** Groups the rows by court; a court with nothing taken is absent. */
  method BookedRangesForCourts(rows: seq<TakenRow>) returns (byCourt: map<Id, seq<Slot>>)
    ensures forall c :: LookUp(byCourt, c) == OfCourt(rows, c)
    ensures forall c :: c in byCourt ==> byCourt[c] != []
  {
    byCourt := map[];
    for i := 0 to |rows|
      invariant forall c :: LookUp(byCourt, c) == OfCourt(rows[..i], c)
      invariant forall c :: c in byCourt ==> byCourt[c] != []
    {
      var r := rows[i];
      assert rows[..i + 1][..i] == rows[..i];
      ghost var before := byCourt;
      byCourt := byCourt[r.court := LookUp(byCourt, r.court) + [r.slot]];
      forall c ensures LookUp(byCourt, c) == OfCourt(rows[..i + 1], c) {
        assert LookUp(before, c) == OfCourt(rows[..i], c);
      }
    }
    assert rows[..|rows|] == rows;
  }

  lemma {:induction false} OfCourtMembers(rows: seq<TakenRow>, court: Id, slot: Slot)
    ensures slot in OfCourt(rows, court) <==> TakenRow(court, slot) in rows
  {
    if rows != [] {
      var n := |rows| - 1;
      OfCourtMembers(rows[..n], court, slot);
      assert rows == rows[..n] + [rows[n]];
    }
  }

  /** Grouping the batch gives each court what its own query would. */
  lemma BatchAgrees(rows: seq<TakenRow>, db: T.DB, ids: set<Id>, window: Slot, now: Time, court: Id)
    requires AreBatchedRows(rows, db, ids, window, now) && court in ids
    ensures Grid.Taken(OfCourt(rows, court)) == BookedRanges(db.bookings, court, window, now)
  {
    forall t ensures t in Grid.Taken(OfCourt(rows, court)) <==> t in BookedRanges(db.bookings, court, window, now) {
      OfCourtMembers(rows, court, t);
      if TakenRow(court, t) in rows {
        var r :| r in rows && r == TakenRow(court, t);
      }
    }
  }

  // ------------------------------------------------------------------ totals

  datatype Row = Row(court: Court, slots: seq<GridSlot>)

  datatype CityLedger = CityLedger(rows: seq<Row>, openHours: nat, cheapest: Option<int>)

  function OpenIn(slots: seq<GridSlot>): nat {
    if slots == [] then 0
    else OpenIn(slots[..|slots| - 1]) + if slots[|slots| - 1].Available() then 1 else 0
  }

  function OpenHours(rows: seq<Row>): nat {
    if rows == [] then 0 else OpenHours(rows[..|rows| - 1]) + OpenIn(rows[|rows| - 1].slots)
  }

  /** Some free cell of the court costs this. */
  ghost predicate CellOffers(slots: seq<GridSlot>, price: int) {
    exists k :: 0 <= k < |slots| && slots[k].Available() && slots[k].price == price
  }

  ghost predicate Offers(rows: seq<Row>, price: int) {
    exists i :: 0 <= i < |rows| && CellOffers(rows[i].slots, price)
  }

  /** The lowest price among the cells that can be booked, and nothing when none can. */
  ghost predicate IsCheapest(rows: seq<Row>, cheapest: Option<int>) {
    && (cheapest.None? ==> forall p :: !Offers(rows, p))
    && (cheapest.Some? ==> Offers(rows, cheapest.value) && forall p :: Offers(rows, p) ==> cheapest.value <= p)
  }

  lemma OffersMore(rows: seq<Row>, row: Row, price: int)
    ensures Offers(rows + [row], price) <==> Offers(rows, price) || CellOffers(row.slots, price)
  {
    var more := rows + [row];
    if Offers(rows, price) {
      var i :| 0 <= i < |rows| && CellOffers(rows[i].slots, price);
      assert more[i] == rows[i];
    }
    assert more[|rows|] == row;
  }

  /** One court's cells folded into the running totals. */
  method AddRow(ghost rows: seq<Row>, row: Row, openBefore: nat, cheapestBefore: Option<int>)
    returns (openHours: nat, cheapest: Option<int>)
    requires openBefore == OpenHours(rows) && IsCheapest(rows, cheapestBefore)
    ensures openHours == OpenHours(rows + [row]) && IsCheapest(rows + [row], cheapest)
  {
    openHours, cheapest := openBefore, cheapestBefore;
    for k := 0 to |row.slots|
      invariant openHours == openBefore + OpenIn(row.slots[..k])
      invariant cheapest.None? ==> forall p :: !Offers(rows, p) && !CellOffers(row.slots[..k], p)
      invariant cheapest.Some? ==> Offers(rows, cheapest.value) || CellOffers(row.slots[..k], cheapest.value)
      invariant cheapest.Some? ==> forall p :: Offers(rows, p) || CellOffers(row.slots[..k], p) ==> cheapest.value <= p
    {
      var slot := row.slots[k];
      assert row.slots[..k + 1][..k] == row.slots[..k];
      ghost var less, more := row.slots[..k], row.slots[..k + 1];
      forall p ensures CellOffers(more, p) <==> (CellOffers(less, p) || (slot.Available() && slot.price == p)) {
        OneMoreCell(row.slots, k, p);
      }
      if !slot.Available() { continue; }
      openHours := openHours + 1;
      if cheapest.None? || slot.price < cheapest.value {
        cheapest := Some(slot.price);
      }
    }
    assert row.slots[..|row.slots|] == row.slots;
    forall p ensures Offers(rows + [row], p) <==> Offers(rows, p) || CellOffers(row.slots, p) {
      OffersMore(rows, row, p);
    }
  }

  lemma OneMoreCell(slots: seq<GridSlot>, k: nat, p: int)
    requires k < |slots|
    ensures CellOffers(slots[..k + 1], p)
      <==> (CellOffers(slots[..k], p) || (slots[k].Available() && slots[k].price == p))
  {
    var less, more := slots[..k], slots[..k + 1];
    if CellOffers(less, p) {
      var j :| 0 <= j < k && less[j].Available() && less[j].price == p;
      assert more[j] == less[j];
    }
    assert more[k] == slots[k];
    if CellOffers(more, p) {
      var j :| 0 <= j < k + 1 && more[j].Available() && more[j].price == p;
      assert j < k ==> less[j] == more[j];
    }
  }

  /**
   * The ledger of a date. Row by row it is the grid each court would answer for itself; the totals are the number of
   * cells that can be booked and the lowest price among them.
   */
  method BuildLedger(db: T.DB, now: Time, off: int, courts: seq<Court>, date: Time, taken: seq<TakenRow>)
    returns (ledger: CityLedger)
    requires AreBatchedRows(taken, db, set c | c in courts :: c.id, Window(date, off), now)
    ensures |ledger.rows| == |courts|
    ensures forall i :: 0 <= i < |courts| ==>
      ledger.rows[i].court == courts[i] && IsAvailability(ledger.rows[i].slots, db, courts[i], date, off, now)
    ensures ledger.openHours == OpenHours(ledger.rows) && IsCheapest(ledger.rows, ledger.cheapest)
  {
    var byCourt := BookedRangesForCourts(taken);
    var rows: seq<Row> := [];
    var openHours, cheapest := 0, None;
    for i := 0 to |courts|
      invariant |rows| == i
      invariant forall j :: 0 <= j < i ==>
        rows[j].court == courts[j] && IsAvailability(rows[j].slots, db, courts[j], date, off, now)
      invariant openHours == OpenHours(rows) && IsCheapest(rows, cheapest)
    {
      var court := courts[i];
      var booked := LookUp(byCourt, court.id);
      CourtIsBatched(taken, db, courts, date, off, now, court);
      var slots := BuildGrid(GridFor(court, date, off, booked, now));
      GridIsAvailability(slots, db, court, date, off, booked, now);
      openHours, cheapest := AddRow(rows, Row(court, slots), openHours, cheapest);
      rows := rows + [Row(court, slots)];
    }
    ledger := CityLedger(rows, openHours, cheapest);
  }

  lemma CourtIsBatched(taken: seq<TakenRow>, db: T.DB, courts: seq<Court>, date: Time, off: int, now: Time,
      court: Court)
    requires AreBatchedRows(taken, db, set c | c in courts :: c.id, Window(date, off), now) && court in courts
    ensures AreBookedRows(OfCourt(taken, court.id), db, court.id, Window(date, off), now)
  {
    BatchAgrees(taken, db, set c | c in courts :: c.id, Window(date, off), now, court.id);
  }

  lemma GridIsAvailability(grid: seq<GridSlot>, db: T.DB, court: Court, date: Time, off: int, booked: seq<Slot>,
      now: Time)
    requires IsGrid(grid, GridFor(court, date, off, booked, now), Grid.Taken(booked))
    requires AreBookedRows(booked, db, court.id, Window(date, off), now)
    ensures IsAvailability(grid, db, court, date, off, now)
  {
    forall k | 0 <= k < |grid| ensures IsCell(grid[k], GridFor(court, date, off, [], now), Grid.Taken(booked), k) {
      assert IsCell(grid[k], GridFor(court, date, off, booked, now), Grid.Taken(booked), k);
    }
  }
}
