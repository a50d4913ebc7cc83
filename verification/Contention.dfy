// Several holds being taken at once. Each transaction goes lock, release, look, insert, commit, and sees only what
// others have committed. The advisory lock covers one court and start instant, not a whole overlap, so two
// transactions can both pass the look; the exclusion constraint settles those.

module Contention {
  import opened Domain
  import opened Transactions
  import opened Invariant

  /** `ids` are the rows a transaction has released and so holds locked until it ends. */
  datatype Phase =
    | Locked
    | Cleared(ids: set<Id>)
    | Looked(ids: set<Id>)
    | Inserted(ids: set<Id>)
    | Done
    | Refused
    | Beaten(winner: Id)

  /** `begin` is when the transaction started, which is what `now()` reads all through it. */
  datatype Attempt = Attempt(row: Booking, begin: Time, phase: Phase) {
    predicate Active() { phase.Locked? || phase.Cleared? || phase.Looked? || phase.Inserted? }
    function Held(): set<Id> { if phase.Cleared? || phase.Looked? || phase.Inserted? then phase.ids else {} }
  }

  /** Committed rows, and every attempt by the id its row will have. */
  datatype World = World(rows: map<Id, Booking>, attempts: map<Id, Attempt>)

  datatype Step =
    | Lock(t: Id, row: Booking, now: Time)
    | Clear(t: Id)
    | Look(t: Id)
    | Insert(t: Id)
    | Commit(t: Id)
    | Rollback(t: Id)
    | Other(i: Id, row: Booking)

  predicate SameKey(a: Booking, b: Booking) { a.court == b.court && a.slot.start == b.slot.start }

  predicate HeldByOther(w: World, t: Id, i: Id) {
    exists u | u in w.attempts :: u != t && i in w.attempts[u].Held()
  }

  function Lapsed(rows: map<Id, Booking>, row: Booking, now: Time): set<Id> {
    set i | i in rows && rows[i].court == row.court && rows[i].slot.Overlaps(row.slot) && rows[i].HoldExpired(now)
  }

  function At(w: World, t: Id, phase: Phase): World
    requires t in w.attempts
  {
    w.(attempts := w.attempts[t := w.attempts[t].(phase := phase)])
  }

  /** Something committed, and not released by this transaction, blocks its slot. */
  predicate Blocked(rows: map<Id, Booking>, a: Attempt) {
    exists i | i in rows ::
      i !in a.Held() && rows[i].court == a.row.court && rows[i].slot.Overlaps(a.row.slot) && rows[i].Blocks(a.begin)
  }

  /** The insert has to wait: a row it clashes with is still being written by another transaction. */
  predicate MustWait(w: World, t: Id, a: Attempt) {
    || (exists u | u in w.attempts :: u != t && w.attempts[u].phase.Inserted? && Clash(w.attempts[u].row, a.row))
    || (exists i | i in w.rows :: Clash(w.rows[i], a.row) && HeldByOther(w, t, i))
  }

  predicate Violates(rows: map<Id, Booking>, a: Attempt, i: Id) {
    i in rows && i !in a.Held() && Clash(rows[i], a.row)
  }

  /** What other transactions do to a row nobody holds: it moves on, and a row that is dead stays dead. */
  predicate OtherMove(a: Booking, b: Booking) {
    BookingEvolves(a, b) && (b.status == Pending ==> b == a)
  }

  /** A step that has to wait, or does not apply, leaves the world as it is. */
  ghost function Apply(w: World, step: Step): World {
    match step
    case Lock(t, row, now) =>
      if t in w.attempts || t in w.rows || row.status != Pending || row.hold.None? || row.slot.start >= row.slot.end
         || exists u :: u in w.attempts && w.attempts[u].Active() && SameKey(w.attempts[u].row, row)
      then w else w.(attempts := w.attempts[t := Attempt(row, now, Locked)])
    case Clear(t) =>
      if t !in w.attempts || !w.attempts[t].phase.Locked? then w
      else
        var ids := Lapsed(w.rows, w.attempts[t].row, w.attempts[t].begin);
        if exists i :: i in ids && HeldByOther(w, t, i) then w else At(w, t, Cleared(ids))
    case Look(t) =>
      if t !in w.attempts || !w.attempts[t].phase.Cleared? then w
      else if Blocked(w.rows, w.attempts[t]) then At(w, t, Refused)
      else At(w, t, Looked(w.attempts[t].phase.ids))
    case Insert(t) =>
      if t !in w.attempts || !w.attempts[t].phase.Looked? || MustWait(w, t, w.attempts[t]) then w
      else if exists i :: Violates(w.rows, w.attempts[t], i) then
        var i :| Violates(w.rows, w.attempts[t], i);
        At(w, t, Beaten(i))
      else At(w, t, Inserted(w.attempts[t].phase.ids))
    case Commit(t) =>
      if t !in w.attempts || !w.attempts[t].phase.Inserted? then w
      else At(w, t, Done).(rows := CommittedRows(w, t))
    case Rollback(t) =>
      if t in w.attempts && w.attempts[t].Active() then At(w, t, Refused) else w
    case Other(i, row) =>
      if i !in w.rows || (exists u :: u in w.attempts && i in w.attempts[u].Held()) || !OtherMove(w.rows[i], row) then w
      else w.(rows := w.rows[i := row])
  }

  function CommittedRows(w: World, t: Id): map<Id, Booking>
    requires t in w.attempts
  {
    (map i | i in w.rows ::
      if i in w.attempts[t].Held() then Released(w.rows[i]) else w.rows[i])[t := w.attempts[t].row]
  }

  ghost function Run(w: World, steps: seq<Step>): World {
    if steps == [] then w else Apply(Run(w, steps[..|steps| - 1]), steps[|steps| - 1])
  }

  // ------------------------------------------------------------- invariant

  /** A clash the transaction has not seen comes from another start instant. */
  ghost predicate OnlyOtherStarts(rows: map<Id, Booking>, a: Attempt) {
    forall i :: Violates(rows, a, i) && (a.phase.Looked? || !rows[i].Blocks(a.begin)) ==>
      rows[i].slot.start != a.row.slot.start
  }

  ghost predicate AttemptOk(rows: map<Id, Booking>, t: Id, a: Attempt) {
    && a.row.status == Pending && a.row.hold.Some? && a.row.slot.start < a.row.slot.end
    && (forall i :: i in a.Held() ==> i in rows && rows[i].status == Pending)
    && (a.phase.Cleared? || a.phase.Looked? ==> OnlyOtherStarts(rows, a))
    && (a.phase.Inserted? ==> forall i :: !Violates(rows, a, i))
    && (a.Active() ==> t !in rows)
  }

  predicate Apart(a: Attempt, b: Attempt) {
    && (a.Active() && b.Active() ==> !SameKey(a.row, b.row))
    && a.Held() !! b.Held()
    && (a.phase.Inserted? && b.phase.Inserted? ==> !Clash(a.row, b.row))
  }

  predicate RowsOk(w: World) {
    forall i :: i in w.rows ==>
      w.rows[i].slot.start < w.rows[i].slot.end && (w.rows[i].status == Pending ==> w.rows[i].hold.Some?)
  }

  ghost predicate WInv(w: World) {
    && NoOverlap(w.rows) && RowsOk(w)
    && (forall t :: t in w.attempts ==> AttemptOk(w.rows, t, w.attempts[t]))
    && (forall t, u :: t in w.attempts && u in w.attempts && t != u ==> Apart(w.attempts[t], w.attempts[u]))
  }

  // ------------------------------------------------------------ each step

  /** Replacing one attempt, while rows stay, needs only that attempt looked at. */
  lemma AttemptKeeps(w: World, t: Id, b: Attempt)
    requires WInv(w) && AttemptOk(w.rows, t, b)
    requires forall u :: u in w.attempts && u != t ==> Apart(b, w.attempts[u])
    ensures WInv(w.(attempts := w.attempts[t := b]))
  {
  }

  lemma ClearKeeps(w: World, t: Id)
    requires WInv(w) && t in w.attempts && w.attempts[t].phase.Locked?
    ensures WInv(Apply(w, Clear(t)))
  {
    var a := w.attempts[t];
    var ids := Lapsed(w.rows, a.row, a.begin);
    if !exists i :: i in ids && HeldByOther(w, t, i) {
      var b := a.(phase := Cleared(ids));
      assert AttemptOk(w.rows, t, a);
      forall u | u in w.attempts && u != t ensures Apart(b, w.attempts[u]) {
        assert Apart(a, w.attempts[u]);
        forall i | i in ids ensures i !in w.attempts[u].Held() {
          assert !HeldByOther(w, t, i);
        }
      }
      AttemptKeeps(w, t, b);
    }
  }

  /** A change of phase that holds no more rows than before is apart from the others if it was. */
  lemma PhaseKeeps(w: World, t: Id, phase: Phase)
    requires WInv(w) && t in w.attempts && w.attempts[t].Active()
    requires var b := w.attempts[t].(phase := phase); b.Held() <= w.attempts[t].Held() && AttemptOk(w.rows, t, b)
    requires phase.Inserted? ==> !MustWait(w, t, w.attempts[t])
    ensures WInv(At(w, t, phase))
  {
    var b := w.attempts[t].(phase := phase);
    forall u | u in w.attempts && u != t ensures Apart(b, w.attempts[u]) {
      assert Apart(w.attempts[t], w.attempts[u]);
    }
    AttemptKeeps(w, t, b);
  }

  lemma LookKeeps(w: World, t: Id)
    requires WInv(w) && t in w.attempts && w.attempts[t].phase.Cleared?
    ensures WInv(Apply(w, Look(t)))
  {
    var a := w.attempts[t];
    assert AttemptOk(w.rows, t, a);
    if Blocked(w.rows, a) {
      PhaseKeeps(w, t, Refused);
    } else {
      var b := a.(phase := Looked(a.phase.ids));
      forall i | Violates(w.rows, b, i) ensures w.rows[i].slot.start != a.row.slot.start {
        assert Violates(w.rows, a, i);
      }
      PhaseKeeps(w, t, b.phase);
    }
  }

  lemma InsertKeeps(w: World, t: Id)
    requires WInv(w) && t in w.attempts && w.attempts[t].phase.Looked? && !MustWait(w, t, w.attempts[t])
    ensures WInv(Apply(w, Insert(t)))
  {
    var a := w.attempts[t];
    assert AttemptOk(w.rows, t, a);
    if exists i :: Violates(w.rows, a, i) {
      PhaseKeeps(w, t, Apply(w, Insert(t)).attempts[t].phase);
    } else {
      var b := a.(phase := Inserted(a.phase.ids));
      forall i ensures !Violates(w.rows, b, i) {
        assert !Violates(w.rows, a, i);
      }
      PhaseKeeps(w, t, b.phase);
    }
  }

  lemma CommitKeepsRows(w: World, t: Id)
    requires WInv(w) && t in w.attempts && w.attempts[t].phase.Inserted?
    ensures NoOverlap(CommittedRows(w, t))
  {
    var a := w.attempts[t];
    var rows := CommittedRows(w, t);
    assert AttemptOk(w.rows, t, a);
    forall i, j | i in rows && j in rows && i != j ensures !Clash(rows[i], rows[j]) {
      if i == t {
        assert !Violates(w.rows, a, j);
      } else if j == t {
        assert !Violates(w.rows, a, i);
      } else {
        assert !Clash(w.rows[i], w.rows[j]);
      }
    }
  }

  lemma CommitKeepsAttempt(w: World, t: Id, u: Id)
    requires WInv(w) && t in w.attempts && w.attempts[t].phase.Inserted? && u in w.attempts && u != t
    ensures AttemptOk(CommittedRows(w, t), u, w.attempts[u])
  {
    var a, b := w.attempts[t], w.attempts[u];
    var after := w.(rows := CommittedRows(w, t));
    assert AttemptOk(w.rows, t, a) && AttemptOk(w.rows, u, b) && Apart(a, b);
    forall i | Violates(after.rows, b, i) ensures i == t || (Violates(w.rows, b, i) && after.rows[i] == w.rows[i]) {
    }
    forall i | i in b.Held() ensures i in after.rows && after.rows[i].status == Pending {
      assert i !in a.Held();
    }
  }

  lemma CommitKeepsApart(w: World, t: Id)
    requires WInv(w) && t in w.attempts && w.attempts[t].phase.Inserted?
    ensures var attempts := Apply(w, Step.Commit(t)).attempts;
      forall u, v :: u in attempts && v in attempts && u != v ==> Apart(attempts[u], attempts[v])
  {
    var attempts := At(w, t, Done).attempts;
    forall u, v | u in attempts && v in attempts && u != v ensures Apart(attempts[u], attempts[v]) {
      assert Apart(w.attempts[u], w.attempts[v]);
    }
  }

  lemma CommitKeepsAttempts(w: World, t: Id)
    requires WInv(w) && t in w.attempts && w.attempts[t].phase.Inserted?
    ensures var after := Apply(w, Step.Commit(t));
      RowsOk(after) && forall u :: u in after.attempts ==> AttemptOk(after.rows, u, after.attempts[u])
  {
    var after := Apply(w, Step.Commit(t));
    assert AttemptOk(w.rows, t, w.attempts[t]);
    forall u | u in after.attempts ensures AttemptOk(after.rows, u, after.attempts[u]) {
      if u != t {
        CommitKeepsAttempt(w, t, u);
      }
    }
  }

  lemma CommitKeeps(w: World, t: Id)
    requires WInv(w) && t in w.attempts && w.attempts[t].phase.Inserted?
    ensures WInv(Apply(w, Step.Commit(t)))
  {
    CommitKeepsRows(w, t);
    CommitKeepsAttempts(w, t);
    CommitKeepsApart(w, t);
  }

  lemma OtherKeeps(w: World, i: Id, row: Booking)
    requires WInv(w)
    ensures WInv(Apply(w, Other(i, row)))
  {
    var after := Apply(w, Other(i, row));
    if after != w {
      forall j, k | j in after.rows && k in after.rows && j != k ensures !Clash(after.rows[j], after.rows[k]) {
        assert !Clash(w.rows[j], w.rows[k]);
      }
      forall t | t in after.attempts ensures AttemptOk(after.rows, t, after.attempts[t]) {
        OtherKeepsAttempt(w, i, row, t);
      }
    }
  }

  lemma OtherKeepsAttempt(w: World, i: Id, row: Booking, t: Id)
    requires WInv(w) && t in w.attempts && i in w.rows && i !in w.attempts[t].Held() && OtherMove(w.rows[i], row)
    ensures AttemptOk(w.rows[i := row], t, w.attempts[t])
  {
    var a := w.attempts[t];
    var rows := w.rows[i := row];
    assert AttemptOk(w.rows, t, a);
    forall j | Violates(rows, a, j) ensures Violates(w.rows, a, j) && rows[j].slot == w.rows[j].slot {
    }
    if a.phase.Cleared? {
      forall j | Violates(rows, a, j) && !rows[j].Blocks(a.begin) ensures rows[j].slot.start != a.row.slot.start {
        assert Violates(w.rows, a, j) && !w.rows[j].Blocks(a.begin);
      }
    }
  }

  lemma StepKeeps(w: World, step: Step)
    requires WInv(w)
    ensures WInv(Apply(w, step))
  {
    match step
    case Lock(t, row, now) =>
      if Apply(w, step) != w { AttemptKeeps(w, t, Attempt(row, now, Locked)); }
    case Clear(t) =>
      if t in w.attempts && w.attempts[t].phase.Locked? { ClearKeeps(w, t); }
    case Look(t) =>
      if t in w.attempts && w.attempts[t].phase.Cleared? { LookKeeps(w, t); }
    case Insert(t) =>
      if t in w.attempts && w.attempts[t].phase.Looked? && !MustWait(w, t, w.attempts[t]) { InsertKeeps(w, t); }
    case Commit(t) =>
      if t in w.attempts && w.attempts[t].phase.Inserted? { CommitKeeps(w, t); }
    case Rollback(t) =>
      if t in w.attempts && w.attempts[t].Active() {
        assert AttemptOk(w.rows, t, w.attempts[t]);
        PhaseKeeps(w, t, Refused);
      }
    case Other(i, row) => OtherKeeps(w, i, row);
  }

  lemma {:induction false} RunKeeps(w: World, steps: seq<Step>)
    requires WInv(w)
    ensures WInv(Run(w, steps))
  {
    if steps != [] {
      RunKeeps(w, steps[..|steps| - 1]);
      StepKeeps(Run(w, steps[..|steps| - 1]), steps[|steps| - 1]);
    }
  }

  // ---------------------------------------------------------------- results

  /** However attempts interleave, committed bookings never overlap. */
  lemma NoDoubleBookingUnderContention(steps: seq<Step>, i: Id, j: Id)
    requires var w := Run(World(map[], map[]), steps); i in w.rows && j in w.rows && i != j
    ensures var w := Run(World(map[], map[]), steps); !Clash(w.rows[i], w.rows[j])
  {
    RunKeeps(World(map[], map[]), steps);
  }

  /** Past the look, whether or not past the insert. */
  predicate HasLooked(a: Attempt) { a.phase.Looked? || a.phase.Inserted? }

  /** Two attempts past the look that overlap start at different instants, whichever of them has inserted. */
  lemma OverlappingLookersStartApart(steps: seq<Step>, t: Id, u: Id)
    requires var w := Run(World(map[], map[]), steps);
      && t in w.attempts && u in w.attempts && t != u
      && HasLooked(w.attempts[t]) && HasLooked(w.attempts[u])
      && Clash(w.attempts[t].row, w.attempts[u].row)
    ensures var w := Run(World(map[], map[]), steps); w.attempts[t].row.slot.start != w.attempts[u].row.slot.start
  {
    RunKeeps(World(map[], map[]), steps);
    var w := Run(World(map[], map[]), steps);
    assert Apart(w.attempts[t], w.attempts[u]);
  }

  /**
   * Every committed row an attempt past the look clashes with, and has not itself released, starts at another instant:
   * rivals for one instant that committed were seen by the look. Once it has inserted there is no such row.
   */
  lemma OverlappingRowsStartApart(steps: seq<Step>, t: Id, i: Id)
    requires var w := Run(World(map[], map[]), steps);
      t in w.attempts && HasLooked(w.attempts[t]) && Violates(w.rows, w.attempts[t], i)
    ensures var w := Run(World(map[], map[]), steps);
      w.attempts[t].phase.Looked? && w.rows[i].slot.start != w.attempts[t].row.slot.start
  {
    RunKeeps(World(map[], map[]), steps);
    var w := Run(World(map[], map[]), steps);
    assert AttemptOk(w.rows, t, w.attempts[t]);
  }

  /** The exclusion constraint only ever refuses for a committed overlapping row that starts at another instant. */
  lemma ExclusionMeansAnotherStart(steps: seq<Step>, t: Id)
    requires var w := Run(World(map[], map[]), steps); var after := Apply(w, Insert(t));
      t in after.attempts && after.attempts[t].phase.Beaten? && after != w
    ensures var w := Run(World(map[], map[]), steps); var a := Apply(w, Insert(t)).attempts[t];
      && a.phase.winner in w.rows && Clash(w.rows[a.phase.winner], a.row)
      && w.rows[a.phase.winner].slot.start != a.row.slot.start
  {
    RunKeeps(World(map[], map[]), steps);
    var w := Run(World(map[], map[]), steps);
    assert AttemptOk(w.rows, t, w.attempts[t]);
  }

  lemma RunStep(w: World, steps: seq<Step>, step: Step)
    ensures Run(w, steps + [step]) == Apply(Run(w, steps), step)
  {
    assert (steps + [step])[..|steps|] == steps;
  }

  /** Both rivals have looked and found nothing. */
  function BothLooked(a: Booking, b: Booking, now: Time): World {
    World(map[], map[1 := Attempt(a, now, Looked({})), 2 := Attempt(b, now, Looked({}))])
  }

  /** Two rivals, each in some phase before any row is there. */
  function Rivals(a: Booking, b: Booking, now: Time, p: Phase, q: Phase): World {
    World(map[], map[1 := Attempt(a, now, p), 2 := Attempt(b, now, q)])
  }

  predicate Rival(a: Booking) {
    a.status == Pending && a.hold.Some? && a.slot.start < a.slot.end
  }

  lemma BothLock(a: Booking, b: Booking, now: Time)
    requires Rival(a) && Rival(b) && !SameKey(a, b)
    ensures Apply(Apply(World(map[], map[]), Lock(1, a, now)), Lock(2, b, now)) == Rivals(a, b, now, Locked, Locked)
  {
    var w := Apply(World(map[], map[]), Lock(1, a, now));
    assert w == World(map[], map[1 := Attempt(a, now, Locked)]);
    assert map[1 := Attempt(a, now, Locked)][2 := Attempt(b, now, Locked)]
        == map[1 := Attempt(a, now, Locked), 2 := Attempt(b, now, Locked)];
  }

  lemma BothClear(a: Booking, b: Booking, now: Time)
    ensures Apply(Apply(Rivals(a, b, now, Locked, Locked), Clear(1)), Clear(2))
      == Rivals(a, b, now, Cleared({}), Cleared({}))
  {
    assert Lapsed(map[], a, now) == {} == Lapsed(map[], b, now);
    assert Apply(Rivals(a, b, now, Locked, Locked), Clear(1)) == Rivals(a, b, now, Cleared({}), Locked);
  }

  lemma BothLook(a: Booking, b: Booking, now: Time)
    ensures Apply(Apply(Rivals(a, b, now, Cleared({}), Cleared({})), Look(1)), Look(2)) == BothLooked(a, b, now)
  {
    assert Apply(Rivals(a, b, now, Cleared({}), Cleared({})), Look(1)) == Rivals(a, b, now, Looked({}), Cleared({}));
  }

  lemma RunTwo(w: World, steps: seq<Step>, x: Step, y: Step)
    ensures Run(w, steps + [x] + [y]) == Apply(Apply(Run(w, steps), x), y)
  {
    RunStep(w, steps, x);
    RunStep(w, steps + [x], y);
  }

  lemma BothCanLook(a: Booking, b: Booking, now: Time) returns (steps: seq<Step>)
    requires Rival(a) && Rival(b) && !SameKey(a, b)
    ensures Run(World(map[], map[]), steps) == BothLooked(a, b, now)
  {
    var empty := World(map[], map[]);
    RunTwo(empty, [], Lock(1, a, now), Lock(2, b, now));
    steps := [] + [Lock(1, a, now)] + [Lock(2, b, now)];
    BothLock(a, b, now);
    RunTwo(empty, steps, Clear(1), Clear(2));
    steps := steps + [Clear(1)] + [Clear(2)];
    BothClear(a, b, now);
    RunTwo(empty, steps, Look(1), Look(2));
    steps := steps + [Look(1)] + [Look(2)];
    BothLook(a, b, now);
  }

  lemma FirstInserts(a: Booking, b: Booking, now: Time)
    ensures Apply(BothLooked(a, b, now), Insert(1))
      == World(map[], map[1 := Attempt(a, now, Inserted({})), 2 := Attempt(b, now, Looked({}))])
  {
    var w := BothLooked(a, b, now);
    assert !MustWait(w, 1, w.attempts[1]);
    assert forall i :: !Violates(w.rows, w.attempts[1], i);
    assert Apply(w, Insert(1)).attempts == map[1 := Attempt(a, now, Inserted({})), 2 := Attempt(b, now, Looked({}))];
  }

  lemma FirstCommits(w: World, a: Booking, b: Booking, now: Time)
    requires w == World(map[], map[1 := Attempt(a, now, Inserted({})), 2 := Attempt(b, now, Looked({}))])
    ensures Apply(w, Step.Commit(1))
      == World(map[1 := a], map[1 := Attempt(a, now, Done), 2 := Attempt(b, now, Looked({}))])
  {
    assert CommittedRows(w, 1) == map[1 := a];
    assert Apply(w, Step.Commit(1)).attempts == map[1 := Attempt(a, now, Done), 2 := Attempt(b, now, Looked({}))];
  }

  lemma SecondIsBeaten(w: World, a: Booking, b: Booking, now: Time)
    requires w == World(map[1 := a], map[1 := Attempt(a, now, Done), 2 := Attempt(b, now, Looked({}))]) && Clash(a, b)
    ensures Apply(w, Insert(2)) == At(w, 2, Beaten(1))
  {
    assert !MustWait(w, 2, w.attempts[2]);
    assert Violates(w.rows, w.attempts[2], 1);
    assert forall i :: Violates(w.rows, w.attempts[2], i) ==> i == 1;
    assert Apply(w, Insert(2)).attempts[2].phase == Beaten(1);
  }

  /**
   * And it does refuse: of any two rivals for overlapping hours that start apart, both can pass the look, and then the
   * constraint is what stops the second.
   */
  lemma ExclusionIsReached(a: Booking, b: Booking, now: Time) returns (steps: seq<Step>)
    requires Rival(a) && Rival(b) && Clash(a, b) && a.slot.start != b.slot.start
    ensures var w := Run(World(map[], map[]), steps);
      w.rows == map[1 := a] && 2 in w.attempts && w.attempts[2] == Attempt(b, now, Beaten(1))
  {
    var empty := World(map[], map[]);
    steps := BothCanLook(a, b, now);
    RunStep(empty, steps, Insert(1));
    FirstInserts(a, b, now);
    steps := steps + [Insert(1)];
    RunStep(empty, steps, Step.Commit(1));
    FirstCommits(Run(empty, steps), a, b, now);
    steps := steps + [Step.Commit(1)];
    RunStep(empty, steps, Insert(2));
    SecondIsBeaten(Run(empty, steps), a, b, now);
    steps := steps + [Insert(2)];
  }
}
