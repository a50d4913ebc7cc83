// A janitor pass writes down what time has already decided. Until money arrives for a hold that ran out, no hold asked
// for and no reading of what is taken or was played tells a swept store from an unswept one. When it does arrive it
// does: `Effects.MoneySeesTheSweepIff`.

module Janitor {
  import opened Domain
  import opened Transactions
  import opened Invariant
  import opened Preservation
  import opened Repository
  import S = Sessions

  /** Both sweeps of bookings, in the order the janitor runs them, each a transaction with its own clock reading. */
  function Pass(db: DB, released: Time, played: Time): DB {
    var after := InTx(db, ReleaseStaleHolds(db, released));
    InTx(after, MarkPlayed(after, played))
  }

  /** A pass as it runs. A sweep that fails is logged and the next one runs all the same. */
  method Sweep(tables: Tables, sessions: S.SessionRepo?, released: Time, played: Time, cleaned: Time)
    requires sessions != null ==> sessions.Valid()
    modifies tables, sessions
    ensures tables.View() == Pass(old(tables.View()), released, played)
    ensures sessions != null ==>
      sessions.Valid() && sessions.table == match S.DeleteExpired(old(sessions.table), cleaned, S.RETAIN)
                                            case Ok(after) => after
                                            case Err(_) => old(sessions.table)
  {
    var holds := tables.ReleaseStaleHolds(released);
    var games := tables.MarkPlayed(played);
    if sessions != null {
      var tokens := sessions.DeleteExpiredTokens(cleaned, S.RETAIN);
    }
  }

  /** The slots taken on a court during a window. */
  function BookedRanges(bs: map<Id, Booking>, court: Id, window: Slot, now: Time): set<Slot> {
    set i | i in bs && bs[i].court == court && bs[i].slot.Overlaps(window) && bs[i].Blocks(now) :: bs[i].slot
  }

  /** The player has held, on one of these courts, a paid hour that is over. */
  predicate HasPlayedAt(bs: map<Id, Booking>, courts: set<Id>, user: Id, now: Time) {
    exists i | i in bs :: bs[i].court in courts && bs[i].user == user && Stands(bs[i]) && bs[i].slot.end <= now
  }

  /** A game counts for its player from the instant it ends, whether or not it has been marked as played by then. */
  lemma PlayedCounts(bs: map<Id, Booking>, courts: set<Id>, user: Id, now: Time, i: Id)
    requires i in bs && bs[i].court in courts && bs[i].user == user && bs[i].slot.end <= now
    requires bs[i].status == Confirmed || bs[i].status == Completed
    ensures HasPlayedAt(bs, courts, user, now)
  {
    assert Stands(bs[i]);
  }

  /** And nothing else counts: no hold, no cancelled booking, no game of others, elsewhere or still to come. */
  lemma NothingElseCounts(bs: map<Id, Booking>, courts: set<Id>, user: Id, now: Time)
    requires forall i | i in bs && bs[i].court in courts && bs[i].user == user ::
      bs[i].slot.end > now || !(bs[i].status == Confirmed || bs[i].status == Completed)
    ensures !HasPlayedAt(bs, courts, user, now)
  {
  }

  // ------------------------------------------------------- swept stores

  predicate SweptRow(a: Booking, b: Booking, now: Time) {
    || b == a
    || (a.HoldExpired(now) && b == Released(a))
    || (Played(a, now) && b == a.(status := Completed))
  }

  /** `b` is `a` with some of what had run out by `now` written down. */
  predicate Swept(a: DB, b: DB, now: Time) {
    && b.owners == a.owners && b.users == a.users && b.bookings.Keys == a.bookings.Keys
    && (forall i :: i in a.bookings ==> SweptRow(a.bookings[i], b.bookings[i], now))
    && OnlyFails(a.payments, b.payments)
  }

  lemma ReleaseIsSwept(a: DB, b: DB, now: Time)
    requires Swept(a, b, now)
    ensures Swept(a, InTx(b, ReleaseStaleHolds(b, now)), now)
  {
    var after := InTx(b, ReleaseStaleHolds(b, now));
    forall i | i in a.bookings ensures SweptRow(a.bookings[i], after.bookings[i], now) {
      assert SweptRow(a.bookings[i], b.bookings[i], now);
    }
    forall k | k in a.payments
      ensures after.payments[k] == a.payments[k] ||
              (a.payments[k].status == Initiated && after.payments[k] == a.payments[k].(status := Failed))
    {
      assert b.payments[k] == a.payments[k] || a.payments[k].status == Initiated;
    }
  }

  lemma PlayedIsSwept(a: DB, b: DB, now: Time)
    requires Swept(a, b, now)
    ensures Swept(a, InTx(b, MarkPlayed(b, now)), now)
  {
    var after := InTx(b, MarkPlayed(b, now));
    forall i | i in a.bookings ensures SweptRow(a.bookings[i], after.bookings[i], now) {
      assert SweptRow(a.bookings[i], b.bookings[i], now);
    }
  }

  /** What blocks a slot at any later instant is the same in both. */
  lemma SameBlocking(a: DB, b: DB, now: Time, later: Time, i: Id)
    requires Swept(a, b, now) && now <= later && i in a.bookings
    ensures b.bookings[i].Blocks(later) <==> a.bookings[i].Blocks(later)
    ensures SweptRow(a.bookings[i], b.bookings[i], later)
    ensures b.bookings[i].court == a.bookings[i].court && b.bookings[i].slot == a.bookings[i].slot &&
      b.bookings[i].user == a.bookings[i].user
  {
    assert SweptRow(a.bookings[i], b.bookings[i], now);
  }

  lemma SameAnswers(a: DB, b: DB, now: Time, later: Time, court: Id, slot: Slot, courts: set<Id>, user: Id)
    requires Swept(a, b, now) && now <= later
    ensures BookedRanges(a.bookings, court, slot, later) == BookedRanges(b.bookings, court, slot, later)
    ensures Taken(a.bookings, court, slot, later) <==> Taken(b.bookings, court, slot, later)
    ensures HasPlayedAt(a.bookings, courts, user, later) <==> HasPlayedAt(b.bookings, courts, user, later)
  {
    forall i | i in a.bookings
      ensures b.bookings[i].Blocks(later) <==> a.bookings[i].Blocks(later)
      ensures b.bookings[i].court == a.bookings[i].court && b.bookings[i].slot == a.bookings[i].slot &&
        b.bookings[i].user == a.bookings[i].user
      ensures Stands(b.bookings[i]) <==> Stands(a.bookings[i])
    {
      SameBlocking(a, b, now, later, i);
    }
    if HasPlayedAt(a.bookings, courts, user, later) {
      var i :| i in a.bookings && a.bookings[i].court in courts && a.bookings[i].user == user &&
        Stands(a.bookings[i]) && a.bookings[i].slot.end <= later;
      assert Stands(b.bookings[i]);
    }
    if HasPlayedAt(b.bookings, courts, user, later) {
      var i :| i in b.bookings && b.bookings[i].court in courts && b.bookings[i].user == user &&
        Stands(b.bookings[i]) && b.bookings[i].slot.end <= later;
      assert Stands(a.bookings[i]);
    }
    SameTaken(a, b, now, later, court, slot);
  }

  lemma SameTaken(a: DB, b: DB, now: Time, later: Time, court: Id, slot: Slot)
    requires Swept(a, b, now) && now <= later
    ensures Taken(a.bookings, court, slot, later) <==> Taken(b.bookings, court, slot, later)
  {
    if Taken(a.bookings, court, slot, later) {
      var i :| i in a.bookings && a.bookings[i].court == court && a.bookings[i].slot.Overlaps(slot) &&
        a.bookings[i].Blocks(later);
      SameBlocking(a, b, now, later, i);
      assert i in b.bookings;
    }
    if Taken(b.bookings, court, slot, later) {
      var i :| i in b.bookings && b.bookings[i].court == court && b.bookings[i].slot.Overlaps(slot) &&
        b.bookings[i].Blocks(later);
      SameBlocking(a, b, now, later, i);
      assert i in a.bookings;
    }
  }

  // ------------------------------------------------- holds taken afterwards

  function ErrorOf(tx: Tx): Option<Error> { if tx.Abort? then Some(tx.error) else None }

  lemma SameHold(a: DB, b: DB, now: Time, later: Time, id: Id, h: Booking)
    requires Inv(a) && Inv(b) && Swept(a, b, now) && now <= later
    ensures ErrorOf(CreateHold(a, later, id, h)) == ErrorOf(CreateHold(b, later, id, h))
  {
    HoldGrantedIff(a, later, id, h);
    HoldGrantedIff(b, later, id, h);
    SameTaken(a, b, now, later, h.court, h.slot);
  }

  /** Releasing what stands in a new hold's way is the same on a row and on that row swept. */
  lemma SameRelease(a: DB, b: DB, now: Time, later: Time, court: Id, slot: Slot, i: Id)
    requires Swept(a, b, now) && now <= later && i in a.bookings
    ensures SweptRow(ReleaseOverlapping(a, court, slot, later)[i], ReleaseOverlapping(b, court, slot, later)[i], later)
  {
    SameBlocking(a, b, now, later, i);
    SameVerified(a, b, i);
  }

  lemma SameHoldRows(a: DB, b: DB, now: Time, later: Time, id: Id, h: Booking)
    requires Swept(a, b, now) && now <= later
    requires CreateHold(a, later, id, h).Commit? && CreateHold(b, later, id, h).Commit?
    ensures Swept(CreateHold(a, later, id, h).db, CreateHold(b, later, id, h).db, later)
  {
    var ra, rb := ReleaseOverlapping(a, h.court, h.slot, later), ReleaseOverlapping(b, h.court, h.slot, later);
    forall i | i in ra ensures i in rb && SweptRow(ra[i], rb[i], later) {
      SameRelease(a, b, now, later, h.court, h.slot, i);
    }
    HoldInserts(a, later, id, h);
    HoldInserts(b, later, id, h);
  }

  lemma HoldInserts(db: DB, now: Time, id: Id, h: Booking)
    requires CreateHold(db, now, id, h).Commit?
    ensures CreateHold(db, now, id, h).db == db.(bookings := ReleaseOverlapping(db, h.court, h.slot, now)[id := h])
  {
  }

  lemma SameVerified(a: DB, b: DB, bid: Id)
    requires OnlyFails(a.payments, b.payments)
    ensures HasVerified(a.payments, bid) <==> HasVerified(b.payments, bid)
  {
    if HasVerified(a.payments, bid) {
      var k :| k in a.payments && a.payments[k].booking == bid && a.payments[k].status == Verified;
      assert b.payments[k] == a.payments[k];
    }
  }

  /** A player asks for a hold, or the janitor runs one of its sweeps. */
  datatype Action =
    | Ask(at: Time, id: Id, row: Booking)
    | Release(at: Time)
    | Finish(at: Time)

  function TxOf(db: DB, act: Action): Tx {
    match act
    case Ask(at, id, row) => CreateHold(db, at, id, row)
    case Release(at) => ReleaseStaleHolds(db, at)
    case Finish(at) => MarkPlayed(db, at)
  }

  function After(db: DB, acts: seq<Action>): DB
    decreases |acts|
  {
    if acts == [] then db else After(InTx(db, TxOf(db, acts[0])), acts[1..])
  }

  /** What each player in turn is told. */
  function Outcomes(db: DB, acts: seq<Action>): seq<Option<Error>>
    decreases |acts|
  {
    if acts == [] then []
    else
      var tx := TxOf(db, acts[0]);
      (if acts[0].Ask? then [ErrorOf(tx)] else []) + Outcomes(InTx(db, tx), acts[1..])
  }

  function Asked(act: Action): seq<Action> { if act.Ask? then [act] else [] }

  /** The same without a janitor. */
  function Unswept(acts: seq<Action>): seq<Action>
    decreases |acts|
  {
    if acts == [] then [] else Asked(acts[0]) + Unswept(acts[1..])
  }

  predicate InOrder(now: Time, acts: seq<Action>)
    decreases |acts|
  {
    acts == [] || (now <= acts[0].at && (acts[0].Ask? ==> NewRow(acts[0].row)) && InOrder(acts[0].at, acts[1..]))
  }

  lemma SweptLater(a: DB, b: DB, now: Time, later: Time)
    requires Swept(a, b, now) && now <= later
    ensures Swept(a, b, later)
  {
    forall i | i in a.bookings ensures SweptRow(a.bookings[i], b.bookings[i], later) {
      SameBlocking(a, b, now, later, i);
    }
  }

  lemma HoldStep(a: DB, b: DB, now: Time, r: Action)
    requires Inv(a) && Inv(b) && Swept(a, b, now) && r.Ask? && now <= r.at && NewRow(r.row)
    ensures var x, y := TxOf(a, r), TxOf(b, r);
      ErrorOf(x) == ErrorOf(y) && Inv(InTx(a, x)) && Inv(InTx(b, y)) && Swept(InTx(a, x), InTx(b, y), r.at)
  {
    SameHold(a, b, now, r.at, r.id, r.row);
    CreateHoldKeeps(a, r.at, r.id, r.row);
    CreateHoldKeeps(b, r.at, r.id, r.row);
    var x, y := CreateHold(a, r.at, r.id, r.row), CreateHold(b, r.at, r.id, r.row);
    if x.Commit? {
      SameHoldRows(a, b, now, r.at, r.id, r.row);
    } else {
      assert y.Abort?;
      SweptLater(a, b, now, r.at);
    }
  }

  lemma SweepStep(a: DB, b: DB, now: Time, act: Action)
    requires Inv(b) && Swept(a, b, now) && !act.Ask? && now <= act.at
    ensures Inv(InTx(b, TxOf(b, act))) && Swept(a, InTx(b, TxOf(b, act)), act.at)
  {
    SweptLater(a, b, now, act.at);
    if act.Release? {
      ReleaseStaleHoldsKeeps(b, act.at);
      ReleaseIsSwept(a, b, act.at);
    } else {
      MarkPlayedKeeps(b, act.at);
      PlayedIsSwept(a, b, act.at);
    }
  }

  function End(now: Time, acts: seq<Action>): Time
    decreases |acts|
  {
    if acts == [] then now else End(acts[0].at, acts[1..])
  }

  lemma {:induction false} SameOutcomes(a: DB, b: DB, now: Time, acts: seq<Action>)
    requires Inv(a) && Inv(b) && Swept(a, b, now) && InOrder(now, acts)
    ensures Outcomes(a, Unswept(acts)) == Outcomes(b, acts)
    ensures Swept(After(a, Unswept(acts)), After(b, acts), End(now, acts))
    decreases |acts|
  {
    if acts != [] {
      var act, rest := acts[0], acts[1..];
      var b' := InTx(b, TxOf(b, act));
      if act.Ask? {
        var a' := InTx(a, TxOf(a, act));
        HoldStep(a, b, now, act);
        SameOutcomes(a', b', act.at, rest);
        var unswept := Unswept(acts);
        assert unswept[0] == act && unswept[1..] == Unswept(rest);
      } else {
        SweepStep(a, b, now, act);
        SameOutcomes(a, b', act.at, rest);
        assert Unswept(acts) == Unswept(rest);
        assert Outcomes(b, acts) == Outcomes(b', rest);
      }
    }
  }

  /**
   * The janitor is invisible to players taking holds. However its sweeps fall among the holds players ask for,
     each at its own instant, every
   * hold is granted or refused as it would be without any of them, and at every later instant every court, window and
   * player gets the same answers.
   */
  lemma SweepsAreInvisible(db: DB, now: Time, acts: seq<Action>, later: Time,
                           court: Id, window: Slot, courts: set<Id>, user: Id)
    requires Inv(db) && InOrder(now, acts) && End(now, acts) <= later
    ensures Outcomes(db, acts) == Outcomes(db, Unswept(acts))
    ensures var a, b := After(db, Unswept(acts)), After(db, acts);
      && BookedRanges(a.bookings, court, window, later) == BookedRanges(b.bookings, court, window, later)
      && (HasPlayedAt(a.bookings, courts, user, later) <==> HasPlayedAt(b.bookings, courts, user, later))
  {
    SameOutcomes(db, db, now, acts);
    var a, b := After(db, Unswept(acts)), After(db, acts);
    SameAnswers(a, b, End(now, acts), later, court, window, courts, user);
  }

  /** A pass with holds asked for before, between and after its two sweeps. */
  function AroundPass(before: seq<Action>, released: Time, between: seq<Action>, played: Time, after: seq<Action>)
    : seq<Action>
  {
    before + [Release(released)] + between + [Finish(played)] + after
  }

  lemma UnsweptDrops(x: seq<Action>, act: Action, y: seq<Action>)
    requires !act.Ask?
    ensures Unswept(x + [act] + y) == Unswept(x) + Unswept(y)
  {
    UnsweptSplits(x + [act], y);
    UnsweptSplits(x, [act]);
    UnsweptOne(act);
  }

  lemma UnsweptOne(act: Action)
    ensures Unswept([act]) == Asked(act)
  {
    assert Unswept([act]) == Asked(act) + Unswept([]);
  }

  lemma PassUnswept(before: seq<Action>, released: Time, between: seq<Action>, played: Time, after: seq<Action>)
    ensures Unswept(AroundPass(before, released, between, played, after))
      == Unswept(before) + Unswept(between) + Unswept(after)
  {
    UnsweptDrops(before + [Release(released)] + between, Finish(played), after);
    UnsweptDrops(before, Release(released), between);
  }

  /** In particular a single pass is, whatever is asked before, between and after its two sweeps. */
  lemma PassIsInvisible(db: DB, now: Time, before: seq<Action>, released: Time, between: seq<Action>, played: Time,
                        after: seq<Action>, later: Time, court: Id, window: Slot, courts: set<Id>, user: Id)
    requires Inv(db) && InOrder(now, AroundPass(before, released, between, played, after))
    requires End(now, AroundPass(before, released, between, played, after)) <= later
    requires Unswept(before) == before && Unswept(between) == between && Unswept(after) == after
    ensures var acts := AroundPass(before, released, between, played, after);
      && Outcomes(db, acts) == Outcomes(db, before + between + after)
      && BookedRanges(After(db, acts).bookings, court, window, later)
         == BookedRanges(After(db, before + between + after).bookings, court, window, later)
      && (HasPlayedAt(After(db, acts).bookings, courts, user, later) <==>
           HasPlayedAt(After(db, before + between + after).bookings, courts, user, later))
  {
    PassUnswept(before, released, between, played, after);
    var acts := AroundPass(before, released, between, played, after);
    SweepsAreInvisible(db, now, acts, later, court, window, courts, user);
  }

  lemma {:induction false} UnsweptSplits(x: seq<Action>, y: seq<Action>)
    ensures Unswept(x + y) == Unswept(x) + Unswept(y)
    decreases |x|
  {
    if x == [] {
      assert x + y == y;
    } else {
      assert (x + y)[0] == x[0] && (x + y)[1..] == x[1..] + y;
      UnsweptSplits(x[1..], y);
      Regroup(Asked(x[0]), Unswept(x[1..]), Unswept(y));
    }
  }

  lemma Regroup(x: seq<Action>, y: seq<Action>, z: seq<Action>)
    ensures x + (y + z) == x + y + z
  {
  }
}
