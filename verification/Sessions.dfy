// Refresh tokens: the table they live in, the statements that change it, and what holds of every table those
// statements can produce.

module Sessions {
  import opened Domain

  type Digest = string

  datatype Token = Token(user: Id, digest: Digest, issued: Time, expires: Time, revoked: Option<Time>,
      successor: Option<Id>)

  type Table = map<Id, Token>

  const EXPIRED: Error := Unauthenticated

  predicate Usable(k: Token, now: Time) {
    k.revoked.None? && k.expires > now
  }

  predicate Has(t: Table, digest: Digest) {
    exists i | i in t :: t[i].digest == digest
  }

  // ------------------------------------------------------------ statements

  /** The insert, past the primary key, the unique digest and the check that a token outlives its issue. */
  function Insert(t: Table, id: Id, k: Token): Result<Table> {
    if id in t || Has(t, k.digest) || k.expires <= k.issued then Err(Internal) else Ok(t[id := k])
  }

  function RevokedAll(t: Table, user: Id, now: Time): Table {
    map i | i in t :: if t[i].user == user && t[i].revoked.None? then t[i].(revoked := Some(now)) else t[i]
  }

  function Revoked(t: Table, digest: Digest, now: Time): Table {
    map i | i in t :: if t[i].digest == digest && t[i].revoked.None? then t[i].(revoked := Some(now)) else t[i]
  }

  predicate Disposable(k: Token, now: Time, retain: int) {
    k.expires < now || (k.revoked.Some? && k.revoked.value < now - retain)
  }

  /** No row that stays points at a row that goes: what the foreign key demands of a delete. */
  predicate NothingDangles(t: Table, now: Time, retain: int) {
    forall i | i in t && !Disposable(t[i], now, retain) && t[i].successor.Some? ::
      t[i].successor.value in t && !Disposable(t[t[i].successor.value], now, retain)
  }

  function DeleteExpired(t: Table, now: Time, retain: int): Result<Table> {
    if NothingDangles(t, now, retain) then Ok(map i | i in t && !Disposable(t[i], now, retain) :: t[i])
    else Err(Internal)
  }

  // ---------------------------------------------------------- transactions

  function Store(t: Table, now: Time, id: Id, user: Id, digest: Digest, expires: Time): Result<Table> {
    Insert(t, id, Token(user, digest, now, expires, None, None))
  }

  /** What a transaction has written by the time it ends, and how it ends. */
  datatype Body = Body(written: Table, answer: Result<Id>)

  /** What the database is left with: all that was written if the transaction answered, none of it otherwise. */
  function InTx(t: Table, body: Body): Table {
    if body.answer.Ok? then body.written else t
  }

  ghost function RotateRow(t: Table, now: Time, i: Id, next: Digest, id: Id, expires: Time): Body
    requires i in t
  {
    if t[i].revoked.Some? then Body(RevokedAll(t, t[i].user, now), Err(EXPIRED))
    else if t[i].expires <= now then Body(t, Err(EXPIRED))
    else
      match Insert(t, id, Token(t[i].user, next, now, expires, None, None))
      case Err(e) => Body(t, Err(e))
      case Ok(more) => Body(more[i := t[i].(revoked := Some(now), successor := Some(id))], Ok(t[i].user))
  }

  ghost function Rotate(t: Table, now: Time, presented: Digest, next: Digest, id: Id, expires: Time): Body {
    if !Has(t, presented) then Body(t, Err(EXPIRED))
    else
      var i :| i in t && t[i].digest == presented;
      RotateRow(t, now, i, next, id, expires)
  }

  // -------------------------------------------------------------- any run

  datatype Call =
    | Login(user: Id, digest: Digest)
    | Refresh(presented: Digest, next: Digest)
    | Logout(digest: Digest)
    | LogoutEverywhere(user: Id)
    | Sweep(retain: int)

  /** A call, when it ran, the row id the database drew for it, and how long a token issued then is to live. */
  datatype Event = Event(now: Time, call: Call, id: Id, ttl: int)

  /** Did the call succeed, and the table it leaves. */
  ghost function Serve(t: Table, e: Event): (bool, Table) {
    match e.call
    case Login(user, digest) =>
      (match Store(t, e.now, e.id, user, digest, e.now + e.ttl)
       case Ok(after) => (true, after)
       case Err(_) => (false, t))
    case Refresh(presented, next) =>
      var body := Rotate(t, e.now, presented, next, e.id, e.now + e.ttl);
      (body.answer.Ok?, InTx(t, body))
    case Logout(digest) => (true, Revoked(t, digest, e.now))
    case LogoutEverywhere(user) => (true, RevokedAll(t, user, e.now))
    case Sweep(retain) =>
      (match DeleteExpired(t, e.now, retain)
       case Ok(after) => (true, after)
       case Err(_) => (false, t))
  }

  ghost function Run(t: Table, es: seq<Event>): Table
    decreases |es|
  {
    if es == [] then t else Run(Serve(t, es[0]).1, es[1..])
  }

  predicate InOrder(now: Time, es: seq<Event>)
    decreases |es|
  {
    es == [] || (now <= es[0].now && InOrder(es[0].now, es[1..]))
  }

  function End(now: Time, es: seq<Event>): Time
    decreases |es|
  {
    if es == [] then now else End(es[0].now, es[1..])
  }

  // ------------------------------------------------------------- invariant

  predicate Row(t: Table, now: Time, i: Id)
    requires i in t
  {
    var k := t[i];
    && k.issued <= now && k.issued < k.expires
    && (k.revoked.Some? ==> k.issued <= k.revoked.value <= now)
    && (k.successor.Some? ==>
      && k.revoked.Some?
      && k.successor.value in t && k.successor.value != i
      && t[k.successor.value].user == k.user
      && t[k.successor.value].issued == k.revoked.value)
  }

  predicate Unique(t: Table) {
    forall i, j | i in t && j in t && t[i].digest == t[j].digest :: i == j
  }

  /** No token replaces two others. */
  predicate OnePredecessor(t: Table) {
    forall i, j | i in t && j in t && t[i].successor.Some? && t[i].successor == t[j].successor :: i == j
  }

  predicate Inv(t: Table, now: Time) {
    && (forall i | i in t :: Row(t, now, i))
    && Unique(t) && OnePredecessor(t)
  }

  lemma InsertKeeps(t: Table, now: Time, later: Time, id: Id, user: Id, digest: Digest, expires: Time)
    requires Inv(t, now) && now <= later && Store(t, later, id, user, digest, expires).Ok?
    ensures var after := Store(t, later, id, user, digest, expires).value;
      Inv(after, later) && forall j | j in after :: after[j].successor != Some(id)
  {
    var after := Store(t, later, id, user, digest, expires).value;
    forall i | i in after ensures Row(after, later, i) {
      if i != id { assert Row(t, now, i); }
    }
    forall i, j | i in after && j in after && after[i].successor.Some? && after[i].successor == after[j].successor
      ensures i == j
    {
      assert i != id && j != id;
    }
  }

  lemma RotateKeeps(t: Table, now: Time, later: Time, i: Id, next: Digest, id: Id, expires: Time)
    requires Inv(t, now) && now <= later && i in t
    ensures Inv(InTx(t, RotateRow(t, later, i, next, id, expires)), later)
  {
    var body := RotateRow(t, later, i, next, id, expires);
    if body.answer.Err? {
      RevokeKeeps(t, t, now, later);
    } else {
      InsertKeeps(t, now, later, id, t[i].user, next, expires);
      assert Row(t, now, i);
      LinkKeeps(Store(t, later, id, t[i].user, next, expires).value, later, i, id);
    }
  }

  /** Pointing an open token at one just issued to the same user, that nothing points at, keeps the invariant. */
  lemma LinkKeeps(t: Table, now: Time, i: Id, id: Id)
    requires Inv(t, now) && i in t && id in t && i != id
    requires t[i].revoked.None? && t[id].user == t[i].user && t[id].issued == now
    requires forall j | j in t :: t[j].successor != Some(id)
    ensures Inv(t[i := t[i].(revoked := Some(now), successor := Some(id))], now)
  {
    var after := t[i := t[i].(revoked := Some(now), successor := Some(id))];
    forall j | j in after ensures Row(after, now, j) {
      assert Row(t, now, j);
    }
    LinkKeepsPairs(t, i, id, now);
  }

  lemma LinkKeepsPairs(t: Table, i: Id, id: Id, now: Time)
    requires Unique(t) && OnePredecessor(t) && i in t
    requires forall j | j in t :: t[j].successor != Some(id)
    ensures var after := t[i := t[i].(revoked := Some(now), successor := Some(id))];
      Unique(after) && OnePredecessor(after)
  {
    var after := t[i := t[i].(revoked := Some(now), successor := Some(id))];
    assert forall j | j in t :: after[j].digest == t[j].digest;
  }

  /** Revoking rows that were not revoked, whichever they are, keeps the invariant. */
  lemma RevokeKeeps(t: Table, after: Table, now: Time, later: Time)
    requires Inv(t, now) && now <= later && after.Keys == t.Keys
    requires forall i | i in t ::
      after[i] == t[i] || (t[i].revoked.None? && after[i] == t[i].(revoked := Some(later)))
    ensures Inv(after, later)
  {
    forall i | i in after ensures Row(after, later, i) {
      assert Row(t, now, i);
    }
    assert forall i | i in t :: after[i].digest == t[i].digest && after[i].successor == t[i].successor;
  }

  lemma SweepKeeps(t: Table, now: Time, later: Time, retain: int)
    requires Inv(t, now) && now <= later
    ensures match DeleteExpired(t, later, retain)
            case Ok(after) => Inv(after, later)
            case Err(_) => Inv(t, later)
  {
    if DeleteExpired(t, later, retain).Ok? {
      var after := DeleteExpired(t, later, retain).value;
      forall i | i in after ensures Row(after, later, i) { assert Row(t, now, i); }
    } else {
      RevokeKeeps(t, t, now, later);
    }
  }

  lemma LogoutsKeep(t: Table, now: Time, later: Time, digest: Digest, user: Id)
    requires Inv(t, now) && now <= later
    ensures Inv(Revoked(t, digest, later), later) && Inv(RevokedAll(t, user, later), later)
  {
    RevokeKeeps(t, Revoked(t, digest, later), now, later);
    RevokeKeeps(t, RevokedAll(t, user, later), now, later);
  }

  lemma RefreshKeeps(t: Table, now: Time, later: Time, presented: Digest, next: Digest, id: Id, expires: Time)
    requires Inv(t, now) && now <= later
    ensures Inv(InTx(t, Rotate(t, later, presented, next, id, expires)), later)
  {
    if Has(t, presented) {
      var i :| i in t && t[i].digest == presented;
      RotateFinds(t, later, presented, next, id, expires, i);
      RotateKeeps(t, now, later, i, next, id, expires);
    } else {
      RevokeKeeps(t, t, now, later);
    }
  }

  lemma LoginKeeps(t: Table, now: Time, e: Event)
    requires Inv(t, now) && now <= e.now && e.call.Login?
    ensures Inv(Serve(t, e).1, e.now)
  {
    if Store(t, e.now, e.id, e.call.user, e.call.digest, e.now + e.ttl).Ok? {
      InsertKeeps(t, now, e.now, e.id, e.call.user, e.call.digest, e.now + e.ttl);
    } else {
      RevokeKeeps(t, t, now, e.now);
    }
  }

  lemma EndingKeeps(t: Table, now: Time, e: Event)
    requires Inv(t, now) && now <= e.now && !(e.call.Login? || e.call.Refresh?)
    ensures Inv(Serve(t, e).1, e.now)
  {
    match e.call
    case Logout(digest) => LogoutsKeep(t, now, e.now, digest, 0);
    case LogoutEverywhere(user) => LogoutsKeep(t, now, e.now, "", user);
    case Sweep(retain) => SweepKeeps(t, now, e.now, retain);
  }

  lemma ServeKeeps(t: Table, now: Time, e: Event)
    requires Inv(t, now) && now <= e.now
    ensures Inv(Serve(t, e).1, e.now)
  {
    if e.call.Login? {
      LoginKeeps(t, now, e);
    } else if e.call.Refresh? {
      RefreshKeeps(t, now, e.now, e.call.presented, e.call.next, e.id, e.now + e.ttl);
    } else {
      EndingKeeps(t, now, e);
    }
  }

  /**
   * Of every table any run of calls leaves: each token was replaced by at most one other and replaces at most one,
   * both of the same user, and only a revoked token was replaced. How long tokens live may change from call to call.
   */
  lemma {:induction false} RunKeeps(t: Table, now: Time, es: seq<Event>)
    requires Inv(t, now) && InOrder(now, es)
    ensures Inv(Run(t, es), End(now, es))
    decreases |es|
  {
    if es != [] {
      ServeKeeps(t, now, es[0]);
      RunKeeps(Serve(t, es[0]).1, es[0].now, es[1..]);
    }
  }

  // ----------------------------------------------------- is the sweep refused?

  function Min(a: int, b: int): int { if a <= b then a else b }

  /** The token has been replaced by one that goes before it does: that one expires while this one is still kept. */
  predicate OutlivesItsSuccessor(t: Table, i: Id, now: Time, retain: int) {
    i in t && t[i].successor.Some? && t[i].successor.value in t && t[i].revoked.Some? &&
    t[t[i].successor.value].expires < now <= Min(t[i].expires, t[i].revoked.value + retain)
  }

  /** Exactly when the foreign key lets the sweep through: when no token in the table outlives its successor. */
  lemma SweepAllowedIff(t: Table, now: Time, later: Time, retain: int)
    requires Inv(t, now)
    ensures DeleteExpired(t, later, retain).Ok? <==> forall i | i in t :: !OutlivesItsSuccessor(t, i, later, retain)
  {
    forall i | i in t && t[i].successor.Some?
      ensures t[i].successor.value in t && t[i].revoked.Some?
      ensures (!Disposable(t[i], later, retain) && Disposable(t[t[i].successor.value], later, retain))
          <==> OutlivesItsSuccessor(t, i, later, retain)
    {
      assert Row(t, now, i) && Row(t, now, t[i].successor.value);
    }
  }

  /** Every token in the table was issued to live between `least` and `most`. */
  predicate Lifetimes(t: Table, least: int, most: int) {
    forall i | i in t :: least <= t[i].expires - t[i].issued <= most
  }

  predicate IssuedFor(es: seq<Event>, least: int, most: int) {
    forall k | 0 <= k < |es| :: least <= es[k].ttl <= most
  }

  lemma {:induction false} RunLifetimes(t: Table, es: seq<Event>, least: int, most: int)
    requires Lifetimes(t, least, most) && IssuedFor(es, least, most)
    ensures Lifetimes(Run(t, es), least, most)
    decreases |es|
  {
    if es != [] {
      assert least <= es[0].ttl <= most;
      ServeLifetimes(t, es[0], least, most);
      assert forall k | 0 <= k < |es[1..]| :: es[1..][k] == es[k + 1];
      RunLifetimes(Serve(t, es[0]).1, es[1..], least, most);
    }
  }

  lemma ServeLifetimes(t: Table, e: Event, least: int, most: int)
    requires Lifetimes(t, least, most) && least <= e.ttl <= most
    ensures Lifetimes(Serve(t, e).1, least, most)
  {
  }

  /** When tokens live at least as long as revoked ones are kept, or all equally long, the sweep is never refused. */
  lemma SweepIsNeverRefused(es: seq<Event>, start: Time, later: Time, retain: int, least: int, most: int)
    requires InOrder(start, es) && IssuedFor(es, least, most)
    requires retain <= least || least == most
    ensures DeleteExpired(Run(map[], es), later, retain).Ok?
  {
    var t := Run(map[], es);
    RunKeeps(map[], start, es);
    RunLifetimes(map[], es, least, most);
    SweepAllowedIff(t, End(start, es), later, retain);
    forall i | i in t ensures !OutlivesItsSuccessor(t, i, later, retain) {
      assert Row(t, End(start, es), i);
    }
  }

  /** How long the janitor keeps revoked tokens. */
  const RETAIN: int := 7 * DAY

  /** A lifetime cut from a month to a day, under the janitor's seven days of retention, does stop the sweep. */
  lemma ShorterLifeStopsTheSweep()
    ensures var es := [Event(0, Login(7, "a"), 1, 30 * DAY), Event(DAY, Refresh("a", "b"), 2, DAY)];
      DeleteExpired(Run(map[], es), 3 * DAY, RETAIN) == Err(Internal)
  {
    var login, refresh := Event(0, Login(7, "a"), 1, 30 * DAY), Event(DAY, Refresh("a", "b"), 2, DAY);
    var t: Table := map[1 := Token(7, "a", 0, 30 * DAY, None, None)];
    assert Serve(map[], login) == (true, t);
    RotateFinds(t, DAY, "a", "b", 2, 2 * DAY, 1);
    assert "b" != "a";
    assert t[1].digest == "a" && !Has(t, "b");
    var after := Serve(t, refresh).1;
    assert after[1] == Token(7, "a", 0, 30 * DAY, Some(DAY), Some(2));
    assert after[2] == Token(7, "b", DAY, 2 * DAY, None, None);
    assert [login, refresh][1..] == [refresh] && [refresh][1..] == [];
    assert Run(map[], [login, refresh]) == Run(t, [refresh]) == Run(after, []);
    assert !Disposable(after[1], 3 * DAY, RETAIN) && Disposable(after[2], 3 * DAY, RETAIN);
    assert !NothingDangles(after, 3 * DAY, RETAIN);
  }

  // ------------------------------------------------------------- rotation

  /** The table's answer does not depend on which row the lookup finds: there is one. */
  lemma RotateFinds(t: Table, now: Time, presented: Digest, next: Digest, id: Id, expires: Time, i: Id)
    requires Unique(t) && i in t && t[i].digest == presented
    ensures Rotate(t, now, presented, next, id, expires) == RotateRow(t, now, i, next, id, expires)
  {
  }

  ghost function Sessions(t: Table, user: Id, now: Time): set<Id> {
    set i | i in t && t[i].user == user && Usable(t[i], now)
  }

  /**
   * A refresh either fails and changes nothing, or hands one session over: of everybody's usable tokens exactly the
   * presented one is gone and exactly one new one, of the same user, is there.
   */
  lemma RotationHandsOver(t: Table, now: Time, presented: Digest, next: Digest, id: Id, expires: Time, user: Id)
    requires Unique(t)
    ensures var body := Rotate(t, now, presented, next, id, expires);
      var after := InTx(t, body);
      && (body.answer.Ok? <==>
            id !in t && !Has(t, next) && expires > now &&
              (exists i | i in t :: t[i].digest == presented && Usable(t[i], now)))
      && (body.answer.Err? ==> after == t)
      && (body.answer.Ok? ==> exists i | i in t ::
            && t[i].digest == presented && body.answer.value == t[i].user
            && Sessions(after, user, now) == if user == t[i].user then Sessions(t, user, now) - {i} + {id}
              else Sessions(t, user, now))
  {
    if Has(t, presented) {
      var i :| i in t && t[i].digest == presented &&
        Rotate(t, now, presented, next, id, expires) == RotateRow(t, now, i, next, id, expires);
      var body := RotateRow(t, now, i, next, id, expires);
      assert forall j | j in t && t[j].digest == presented :: j == i;
      if body.answer.Ok? {
        var after := InTx(t, body);
        assert Sessions(after, user, now) == if user == t[i].user then Sessions(t, user, now) - {i} + {id}
          else Sessions(t, user, now);
      }
    }
  }

  /** The documentation's promise about a token presented after it was rotated: none of its user's sessions is left. */
  ghost predicate BurnsEverySession(t: Table, now: Time, i: Id, next: Digest, id: Id, expires: Time)
    requires i in t
  {
    Sessions(InTx(t, Rotate(t, now, t[i].digest, next, id, expires)), t[i].user, now) == {}
  }

  /**
   * The statement that would revoke them runs and is rolled back with the error it ends in. So the promise is kept
   * exactly when there was no session to burn.
   */
  lemma ReuseBurnsIff(t: Table, now: Time, i: Id, next: Digest, id: Id, expires: Time)
    requires Unique(t) && i in t && t[i].revoked.Some?
    ensures Sessions(Rotate(t, now, t[i].digest, next, id, expires).written, t[i].user, now) == {}
    ensures BurnsEverySession(t, now, i, next, id, expires) <==> Sessions(t, t[i].user, now) == {}
  {
    RotateFinds(t, now, t[i].digest, next, id, expires, i);
  }

  /** Two people hold one token; the first to refresh keeps the session when the second presents the same token. */
  lemma ReuseLeavesTheFirst(t: Table, ttl: int, now: Time, later: Time, i: Id, next: Digest, id: Id, other: Digest,
      otherId: Id)
    requires Unique(t) && i in t && now <= later
    requires Rotate(t, now, t[i].digest, next, id, now + ttl).answer.Ok? && later < now + ttl
    ensures var after := InTx(t, Rotate(t, now, t[i].digest, next, id, now + ttl));
      var again := Rotate(after, later, t[i].digest, other, otherId, later + ttl);
      again.answer.Err? && id in Sessions(InTx(after, again), t[i].user, later)
  {
    RotateFinds(t, now, t[i].digest, next, id, now + ttl, i);
    var after := InTx(t, Rotate(t, now, t[i].digest, next, id, now + ttl));
    assert Unique(after) by {
      assert forall j | j in t :: after[j].digest == t[j].digest;
      assert after[id].digest == next;
    }
    RotateFinds(after, later, t[i].digest, other, otherId, later + ttl, i);
  }

  // ---------------------------------------------------------- single use

  /** The call could put this digest into the table. */
  predicate Issues(c: Call, d: Digest) {
    (c.Login? && c.digest == d) || (c.Refresh? && c.next == d)
  }

  predicate NeverIssued(es: seq<Event>, d: Digest) {
    forall k | 0 <= k < |es| :: !Issues(es[k].call, d)
  }

  /** Nobody can refresh with this token: there is none such, or it is revoked. */
  predicate Spent(t: Table, d: Digest) {
    forall i | i in t && t[i].digest == d :: t[i].revoked.Some?
  }

  lemma ServeKeepsSpent(t: Table, e: Event, d: Digest)
    requires Spent(t, d) && !Issues(e.call, d)
    ensures Spent(Serve(t, e).1, d)
    ensures e.call.Refresh? && e.call.presented == d ==> !Serve(t, e).0
  {
  }

  ghost function Successes(t: Table, es: seq<Event>, d: Digest): nat
    decreases |es|
  {
    if es == [] then 0
    else
      var (ok, after) := Serve(t, es[0]);
      (if es[0].call.Refresh? && es[0].call.presented == d && ok then 1 else 0) + Successes(after, es[1..], d)
  }

  lemma {:induction false} SpentStaysSpent(t: Table, es: seq<Event>, d: Digest)
    requires Spent(t, d) && NeverIssued(es, d)
    ensures Successes(t, es, d) == 0
    decreases |es|
  {
    if es != [] {
      ServeKeepsSpent(t, es[0], d);
      assert NeverIssued(es[1..], d);
      SpentStaysSpent(Serve(t, es[0]).1, es[1..], d);
    }
  }

  /** A token is good for one refresh: in no run does presenting it succeed twice, unless it was issued again. */
  lemma {:induction false} SingleUse(t: Table, now: Time, es: seq<Event>, d: Digest)
    requires Inv(t, now) && InOrder(now, es) && NeverIssued(es, d)
    ensures Successes(t, es, d) <= 1
    decreases |es|
  {
    if es != [] {
      var (ok, after) := Serve(t, es[0]);
      ServeKeeps(t, now, es[0]);
      assert NeverIssued(es[1..], d);
      if es[0].call.Refresh? && es[0].call.presented == d && ok {
        assert !Issues(es[0].call, d);
        assert Spent(after, d);
        SpentStaysSpent(after, es[1..], d);
      } else {
        SingleUse(after, es[0].now, es[1..], d);
      }
    }
  }

  // ------------------------------------------------- sessions and logins

  function Open(t: Table, user: Id): set<Id> {
    set i | i in t && t[i].user == user && t[i].revoked.None?
  }

  ghost function Logins(t: Table, es: seq<Event>, user: Id): nat
    decreases |es|
  {
    if es == [] then 0
    else
      var (ok, after) := Serve(t, es[0]);
      (if es[0].call.Login? && es[0].call.user == user && ok then 1 else 0) + Logins(after, es[1..], user)
  }

  lemma Smaller(a: set<Id>, b: set<Id>)
    requires a <= b
    ensures |a| <= |b|
  {
    assert b == a + (b - a);
  }

  /** A rotation swaps one open token for another of the same user. */
  lemma RotateSwaps(t: Table, now: Time, i: Id, next: Digest, id: Id, expires: Time, user: Id)
    requires i in t && RotateRow(t, now, i, next, id, expires).answer.Ok?
    ensures Open(RotateRow(t, now, i, next, id, expires).written, user)
         == if t[i].user == user then Open(t, user) - {i} + {id} else Open(t, user)
    ensures id !in t && (t[i].user == user ==> i in Open(t, user))
  {
  }

  lemma RefreshOpensNoMore(t: Table, now: Time, presented: Digest, next: Digest, id: Id, expires: Time, user: Id)
    ensures |Open(InTx(t, Rotate(t, now, presented, next, id, expires)), user)| <= |Open(t, user)|
  {
    var body := Rotate(t, now, presented, next, id, expires);
    if body.answer.Ok? {
      var i :| i in t && t[i].digest == presented && body == RotateRow(t, now, i, next, id, expires);
      RotateSwaps(t, now, i, next, id, expires, user);
    }
  }

  lemma ServeOpens(t: Table, e: Event, user: Id)
    ensures |Open(Serve(t, e).1, user)|
      <= |Open(t, user)| + (if e.call.Login? && e.call.user == user && Serve(t, e).0 then 1 else 0)
  {
    var after := Serve(t, e).1;
    match e.call
    case Login(u, _) =>
      assert Open(after, user) <= Open(t, user) + (if u == user && Serve(t, e).0 then {e.id} else {});
      Smaller(Open(after, user), Open(t, user) + (if u == user && Serve(t, e).0 then {e.id} else {}));
    case Refresh(presented, next) =>
      RefreshOpensNoMore(t, e.now, presented, next, e.id, e.now + e.ttl, user);
    case _ =>
      assert Open(after, user) <= Open(t, user);
      Smaller(Open(after, user), Open(t, user));
  }

  /** A user never has more open sessions than logins, however often those sessions were refreshed. */
  lemma {:induction false} SessionsComeFromLogins(t: Table, es: seq<Event>, user: Id, now: Time)
    ensures |Open(Run(t, es), user)| <= |Open(t, user)| + Logins(t, es, user)
    ensures |Sessions(Run(t, es), user, now)| <= |Open(t, user)| + Logins(t, es, user)
    decreases |es|
  {
    if es != [] {
      ServeOpens(t, es[0], user);
      SessionsComeFromLogins(Serve(t, es[0]).1, es[1..], user, now);
    } else {
      Smaller(Sessions(t, user, now), Open(t, user));
    }
  }

  // ------------------------------------------------- what each call writes

  predicate NewDigest(t: Table, digest: Digest) {
    forall i | i in t :: t[i].digest != digest
  }

  /** A sign-in issues one token, open and for the time it is given, unless its identifiers are in use. */
  lemma LoginActs(t: Table, e: Event)
    requires e.call.Login?
    ensures Serve(t, e) ==
      if e.id !in t && NewDigest(t, e.call.digest) && e.ttl > 0
      then (true, t[e.id := Token(e.call.user, e.call.digest, e.now, e.now + e.ttl, None, None)])
      else (false, t)
  {
    assert NewDigest(t, e.call.digest) <==> !Has(t, e.call.digest);
  }

  /**
   * A refresh succeeds exactly for a token that is not revoked and has time left. It revokes that one, pointing at the
   * new one, and issues the new one to the same user; otherwise nothing changes.
   */
  lemma RefreshActs(t: Table, e: Event, i: Id)
    requires Unique(t) && e.call.Refresh? && i in t && t[i].digest == e.call.presented
    ensures Serve(t, e) ==
      if t[i].revoked == None && t[i].expires > e.now && e.id !in t && NewDigest(t, e.call.next) && e.ttl > 0
      then (true, t[e.id := Token(t[i].user, e.call.next, e.now, e.now + e.ttl, None, None)]
                   [i := t[i].(revoked := Some(e.now), successor := Some(e.id))])
      else (false, t)
  {
    RotateFinds(t, e.now, e.call.presented, e.call.next, e.id, e.now + e.ttl, i);
    assert NewDigest(t, e.call.next) <==> !Has(t, e.call.next);
  }

  /** A token nobody holds refreshes nothing. */
  lemma UnknownRefreshFails(t: Table, e: Event)
    requires e.call.Refresh? && NewDigest(t, e.call.presented)
    ensures Serve(t, e) == (false, t)
  {
  }

  predicate KeptBySweep(k: Token, now: Time, retain: int) {
    k.expires >= now && (k.revoked == None || k.revoked.value >= now - retain)
  }

  /** A sweep that is not refused keeps exactly the tokens that have not expired and were not revoked too long ago. */
  lemma SweepActs(t: Table, now: Time, retain: int, i: Id)
    requires DeleteExpired(t, now, retain).Ok?
    ensures i in DeleteExpired(t, now, retain).value <==> i in t && KeptBySweep(t[i], now, retain)
    ensures i in DeleteExpired(t, now, retain).value ==> DeleteExpired(t, now, retain).value[i] == t[i]
  {
  }

  // ------------------------------------------------------------ signing out

  /** The row, there can be one, that carries a digest. */
  function Bearing(t: Table, digest: Digest): set<Id> {
    set i | i in t && t[i].digest == digest
  }

  lemma LogoutEndsOne(t: Table, digest: Digest, now: Time, user: Id, at: Time)
    ensures Sessions(Revoked(t, digest, now), user, at) == Sessions(t, user, at) - Bearing(t, digest)
  {
  }

  lemma LogoutEverywhereEndsAll(t: Table, user: Id, now: Time, other: Id, at: Time)
    ensures Sessions(RevokedAll(t, user, now), other, at) == if other == user then {} else Sessions(t, other, at)
  {
  }

  /** A session that was signed out never comes back: whatever happens later, its token refreshes nothing. */
  lemma LogoutIsFinal(t: Table, e: Event, es: seq<Event>, d: Digest)
    requires e.call == Logout(d) && NeverIssued(es, d)
    ensures Successes(Serve(t, e).1, es, d) == 0
  {
    SpentStaysSpent(Serve(t, e).1, es, d);
  }

  /** After signing out everywhere a user has no session at any instant of any run, until he signs in again. */
  lemma LogoutEverywhereIsFinal(t: Table, e: Event, es: seq<Event>, user: Id, at: Time)
    requires e.call == LogoutEverywhere(user) && Logins(Serve(t, e).1, es, user) == 0
    ensures Sessions(Run(Serve(t, e).1, es), user, at) == {}
  {
    assert Open(Serve(t, e).1, user) == {};
    SessionsComeFromLogins(Serve(t, e).1, es, user, at);
  }

  // ------------------------------------------------------- the repository

  /** The repository as it runs: statement by statement, putting the table back when a transaction fails. */
  class SessionRepo {
    var table: Table

    ghost predicate Valid()
      reads this
    {
      Unique(table)
    }

    constructor ()
      ensures Valid() && table == map[]
    {
      table := map[];
    }

    method StoreRefreshToken(now: Time, id: Id, user: Id, digest: Digest, expires: Time) returns (r: Result<Id>)
      requires Valid()
      modifies this
      ensures Valid()
      ensures r == match Store(old(table), now, id, user, digest, expires) case Ok(_) => Ok(id) case Err(e) => Err(e)
      ensures table
        == match Store(old(table), now, id, user, digest, expires) case Ok(after) => after case Err(_) => old(table)
    {
      if id in table || Has(table, digest) || expires <= now { return Err(Internal); }
      table := table[id := Token(user, digest, now, expires, None, None)];
      return Ok(id);
    }

    method RotateRefreshToken(now: Time, presented: Digest, next: Digest, id: Id, expires: Time) returns (r: Result<Id>)
      requires Valid()
      modifies this
      ensures Valid()
      ensures r == Rotate(old(table), now, presented, next, id, expires).answer
      ensures table == InTx(old(table), Rotate(old(table), now, presented, next, id, expires))
    {
      var before := table;
      if !Has(table, presented) { return Err(EXPIRED); }
      var i :| i in table && table[i].digest == presented;
      RotateFinds(before, now, presented, next, id, expires, i);
      var row := table[i];
      if row.revoked.Some? {
        RevokeAllForUser(now, row.user);
        table := before;
        return Err(EXPIRED);
      }
      if row.expires <= now { return Err(EXPIRED); }
      var stored := StoreRefreshToken(now, id, row.user, next, expires);
      if stored.Err? { return Err(stored.error); }
      table := table[i := row.(revoked := Some(now), successor := Some(stored.value))];
      return Ok(row.user);
    }

    /** Ends the session of this token and no other, at every later instant; nothing else in the table changes. */
    method RevokeRefreshToken(now: Time, digest: Digest)
      requires Valid()
      modifies this
      ensures Valid() && table == Revoked(old(table), digest, now)
      ensures forall user, at ::
        Sessions(table, user, at) == Sessions(old(table), user, at) - Bearing(old(table), digest)
      ensures Spent(table, digest) && table.Keys == old(table).Keys
      ensures forall i | i in old(table) && (old(table)[i].digest != digest || old(table)[i].revoked.Some?) ::
        table[i] == old(table)[i]
    {
      ghost var before := table;
      table := map i | i in table ::
        if table[i].digest == digest && table[i].revoked.None? then table[i].(revoked := Some(now)) else table[i];
      forall user, at ensures Sessions(table, user, at) == Sessions(before, user, at) - Bearing(before, digest) {
        LogoutEndsOne(before, digest, now, user, at);
      }
    }

    /** Leaves the user without a session at every instant and everybody else with theirs; nothing else changes. */
    method RevokeAllForUser(now: Time, user: Id)
      requires Valid()
      modifies this
      ensures Valid() && table == RevokedAll(old(table), user, now)
      ensures forall at :: Sessions(table, user, at) == {}
      ensures forall other, at | other != user :: Sessions(table, other, at) == Sessions(old(table), other, at)
      ensures table.Keys == old(table).Keys
      ensures forall i | i in old(table) && (old(table)[i].user != user || old(table)[i].revoked.Some?) ::
        table[i] == old(table)[i]
    {
      ghost var before := table;
      table := map i | i in table ::
        if table[i].user == user && table[i].revoked.None? then table[i].(revoked := Some(now)) else table[i];
      forall other, at ensures Sessions(table, other, at) == if other == user then {} else Sessions(before, other, at) {
        LogoutEverywhereEndsAll(before, user, now, other, at);
      }
    }

    method DeleteExpiredTokens(now: Time, retain: int) returns (r: Result<nat>)
      requires Valid()
      modifies this
      ensures Valid()
      ensures r.Err? ==> r == Err(Internal) && table == old(table)
      ensures r.Ok? ==>
        forall i :: (i in table <==> i in old(table) && KeptBySweep(old(table)[i], now, retain)) &&
          (i in table ==> table[i] == old(table)[i])
      ensures DeleteExpired(old(table), now, retain).Err? ==> r == Err(Internal) && table == old(table)
      ensures DeleteExpired(old(table), now, retain).Ok? ==>
        table == DeleteExpired(old(table), now, retain).value && r == Ok(|old(table)| - |table|)
    {
      if !NothingDangles(table, now, retain) { return Err(Internal); }
      var before := table;
      table := map i | i in table && !Disposable(table[i], now, retain) :: table[i];
      Smaller(table.Keys, before.Keys);
      return Ok(|before| - |table|);
    }
  }
}
