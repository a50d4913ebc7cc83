// The browser's side of refresh tokens: one tab whose calls recover from a lapsed access token by sharing one
// refresh, against the table of refresh tokens. Every await is a point where anything else may happen, so each is
// a step of its own: the asking, the server's work, the answer's arrival, the waiting calls' waking.

module Client {
  import opened Domain
  import S = Sessions

  type Digest = S.Digest

  // -------------------------------------------------------------- the tab

  /** What the server answered a refresh: a new pair, or a refusal that may or may not clear the cookie. */
  datatype Reply = Renewed(digest: Digest) | Refused(clears: bool)

  datatype Progress = Asked | Replied(reply: Reply) | Settled(ok: bool)

  /** `presented` is the cookie the request carried; `rotated` records whether the server exchanged that token. */
  datatype Refresh = Refresh(presented: Option<Digest>, rotated: bool, progress: Progress)

  datatype Phase = Flying | Waiting(refresh: nat) | Finished(status: Option<int>)

  /** `sent` counts how often the call went out; `retry` guards the recursion. */
  datatype Call = Call(auth: bool, raw: bool, retry: bool, sent: nat, phase: Phase)

  /** An access token goes by the digest of the refresh token it was minted with. */
  datatype Tab = Tab(accessToken: Option<Digest>, slot: Option<nat>, refreshes: seq<Refresh>, calls: seq<Call>)

  function Request(tab: Tab, auth: bool, raw: bool): Tab {
    tab.(calls := tab.calls + [Call(auth, raw, true, 1, Flying)])
  }

  /** The refresh in flight, or a new one carrying the cookie of this moment. */
  function RefreshShared(tab: Tab, cookie: Option<Digest>): (Tab, nat) {
    match tab.slot
    case Some(r) => (tab, r)
    case None =>
      var r := |tab.refreshes|;
      (tab.(slot := Some(r), refreshes := tab.refreshes + [Refresh(cookie, false, Asked)]), r)
  }

  predicate IsFlying(tab: Tab, c: nat) {
    c < |tab.calls| && tab.calls[c].phase == Flying
  }

  function OnAnswer(tab: Tab, cookie: Option<Digest>, c: nat, status: int): Tab
    requires c < |tab.calls|
  {
    var call := tab.calls[c];
    if status == 401 && call.auth && call.retry then
      var (next, r) := RefreshShared(tab, cookie);
      next.(calls := tab.calls[c := call.(phase := Waiting(r))])
    else tab.(calls := tab.calls[c := call.(phase := Finished(Some(status)))])
  }

  function OnUnreachable(tab: Tab, c: nat): Tab
    requires c < |tab.calls|
  {
    tab.(calls := tab.calls[c := tab.calls[c].(phase := Finished(None))])
  }

  predicate CanResume(tab: Tab, c: nat) {
    c < |tab.calls| && tab.calls[c].phase.Waiting? && tab.calls[c].phase.refresh < |tab.refreshes| &&
    tab.refreshes[tab.calls[c].phase.refresh].progress.Settled?
  }

  /** A waiting call wakes: after a refresh that worked it is sent once more, unless its body is spent. */
  function Resume(tab: Tab, c: nat): Tab
    requires CanResume(tab, c)
  {
    var call := tab.calls[c];
    if tab.refreshes[call.phase.refresh].progress.ok && !call.raw then
      tab.(calls := tab.calls[c := call.(retry := false, sent := call.sent + 1, phase := Flying)])
    else tab.(calls := tab.calls[c := call.(phase := Finished(Some(401)))])
  }

  /** The shared promise settles: the token is stored, or dropped when the refresh failed. */
  function Settle(tab: Tab, r: nat, renewed: Option<Digest>): Tab
    requires r < |tab.refreshes|
  {
    tab.(accessToken := renewed, refreshes := tab.refreshes[r := tab.refreshes[r].(progress := Settled(renewed.Some?))])
  }

  predicate CanReopen(tab: Tab) {
    tab.slot.Some? && tab.slot.value < |tab.refreshes| && tab.refreshes[tab.slot.value].progress.Settled?
  }

  function Reopen(tab: Tab): Tab {
    tab.(slot := None)
  }

  // ------------------------------------------------------------ the world

  /**
   * `issued` are the digests of the tokens the server ever gave this tab; `mail` those of sign-ins it has yet to hear
   * of.
   */
  datatype World = World(tab: Tab, cookie: Option<Digest>, table: S.Table, issued: set<Digest>, mail: set<Digest>)

  datatype Step =
    | Ask(auth: bool, raw: bool)
    | Answer(c: nat, status: int)
    | CutOff(c: nat)
    | Wake(c: nat)
    | Restore
    | RefreshFails(r: nat)
    | RefreshTurnedAway(r: nat)
    | RefreshHandled(r: nat, now: Time, ttl: int, next: Digest, id: Id, minted: bool)
    | RefreshArrives(r: nat)
    | RefreshLost(r: nat)
    | Open
    | LoginHandled(now: Time, ttl: int, user: Id, digest: Digest, id: Id)
    | LoginArrives(digest: Digest)
    | SignOut
    | Elsewhere(e: S.Event)

  predicate Is(tab: Tab, r: nat, p: Progress) {
    r < |tab.refreshes| && tab.refreshes[r].progress == p
  }

  /** A call of somebody else's: it may end this tab's sessions, but it does not hold its tokens. */
  predicate Foreign(issued: set<Digest>, c: S.Call) {
    match c
    case Login(_, d) => d !in issued
    case Refresh(p, n) => p !in issued && n !in issued
    case _ => true
  }

  /** A digest just drawn is one never drawn before. */
  predicate Enabled(w: World, step: Step) {
    match step
    case Ask(_, _) => true
    case Answer(c, _) => IsFlying(w.tab, c)
    case CutOff(c) => IsFlying(w.tab, c)
    case Wake(c) => CanResume(w.tab, c)
    case Restore => true
    case RefreshFails(r) => Is(w.tab, r, Asked)
    case RefreshTurnedAway(r) => Is(w.tab, r, Asked)
    case RefreshHandled(r, _, _, next, _, _) => Is(w.tab, r, Asked) && next !in w.issued
    case RefreshArrives(r) => r < |w.tab.refreshes| && w.tab.refreshes[r].progress.Replied?
    case RefreshLost(r) => r < |w.tab.refreshes| && w.tab.refreshes[r].progress.Replied?
    case Open => CanReopen(w.tab)
    case LoginHandled(_, _, _, digest, _) => digest !in w.issued
    case LoginArrives(digest) => digest in w.mail
    case SignOut => true
    case Elsewhere(e) => Foreign(w.issued, e.call)
  }

  function WithReply(w: World, r: nat, rotated: bool, reply: Reply): Tab
    requires r < |w.tab.refreshes|
  {
    w.tab.(refreshes := w.tab.refreshes[r := w.tab.refreshes[r].(rotated := rotated, progress := Replied(reply))])
  }

  ghost function Handle(w: World, r: nat, now: Time, ttl: int, next: Digest, id: Id, minted: bool): World
    requires r < |w.tab.refreshes|
  {
    match w.tab.refreshes[r].presented
    case None => w.(tab := WithReply(w, r, false, Refused(true)))
    case Some(presented) =>
      var (ok, table) := S.Serve(w.table, S.Event(now, S.Refresh(presented, next), id, ttl));
      w.(table := table, issued := if ok then w.issued + {next} else w.issued,
         tab := WithReply(w, r, ok, if ok && minted then Renewed(next) else Refused(true)))
  }

  ghost function Apply(w: World, step: Step): World
    requires Enabled(w, step)
  {
    match step
    case Ask(auth, raw) => w.(tab := Request(w.tab, auth, raw))
    case Answer(c, status) => w.(tab := OnAnswer(w.tab, w.cookie, c, status))
    case CutOff(c) => w.(tab := OnUnreachable(w.tab, c))
    case Wake(c) => w.(tab := Resume(w.tab, c))
    case Restore => w.(tab := RefreshShared(w.tab, w.cookie).0)
    case RefreshFails(r) => w.(tab := Settle(w.tab, r, None))
    case RefreshTurnedAway(r) => w.(tab := WithReply(w, r, false, Refused(false)))
    case RefreshHandled(r, now, ttl, next, id, minted) => Handle(w, r, now, ttl, next, id, minted)
    case RefreshArrives(r) =>
      (match w.tab.refreshes[r].progress.reply
       case Renewed(d) => w.(tab := Settle(w.tab, r, Some(d)), cookie := Some(d))
       case Refused(clears) => w.(tab := Settle(w.tab, r, None), cookie := if clears then None else w.cookie))
    case RefreshLost(r) => w.(tab := Settle(w.tab, r, None))
    case Open => w.(tab := Reopen(w.tab))
    case LoginHandled(now, ttl, user, digest, id) =>
      var (ok, table) := S.Serve(w.table, S.Event(now, S.Login(user, digest), id, ttl));
      if ok then w.(table := table, issued := w.issued + {digest}, mail := w.mail + {digest}) else w.(table := table)
    case LoginArrives(digest) =>
      w.(cookie := Some(digest), mail := w.mail - {digest}, tab := w.tab.(accessToken := Some(digest)))
    case SignOut => w.(cookie := None, tab := w.tab.(accessToken := None))
    case Elsewhere(e) => w.(table := S.Serve(w.table, e).1)
  }

  /** The step throws away the answer to a refresh that had rotated its token. */
  predicate LosesARotation(w: World, step: Step) {
    step.RefreshLost? && step.r < |w.tab.refreshes| && w.tab.refreshes[step.r].rotated
  }

  /** A run whose steps are possible and in which every answer of a rotation reaches the tab. */
  ghost predicate Reliable(w: World, steps: seq<Step>)
    decreases |steps|
  {
    steps == [] ||
    (Enabled(w, steps[0]) && !LosesARotation(w, steps[0]) && Reliable(Apply(w, steps[0]), steps[1..]))
  }

  ghost function Run(w: World, steps: seq<Step>): World
    requires Reliable(w, steps)
    decreases |steps|
  {
    if steps == [] then w else Run(Apply(w, steps[0]), steps[1..])
  }

  /** A tab just opened: a browser that may hold a session of an earlier visit, and whatever table there is. */
  predicate Initial(w: World) {
    && w.tab == Tab(None, None, [], [])
    && w.mail == {}
    && (w.cookie.Some? ==> w.cookie.value in w.issued)
    && (forall i | i in w.table && w.table[i].digest in w.issued :: w.table[i].successor.None?)
  }

  // ------------------------------------------------------------ invariant

  predicate CallOk(tab: Tab, call: Call) {
    && call.sent == (if call.retry then 1 else 2)
    && (!call.retry ==> call.auth && !call.raw)
    && (call.phase.Waiting? ==>
      && call.auth && call.retry && call.phase.refresh < |tab.refreshes|
      && (tab.slot == Some(call.phase.refresh) || tab.refreshes[call.phase.refresh].progress.Settled?))
  }

  predicate CallsOk(tab: Tab) {
    forall c | 0 <= c < |tab.calls| :: CallOk(tab, tab.calls[c])
  }

  /** Only the refresh in the slot, and only the newest, is still under way. */
  predicate OneInFlight(tab: Tab) {
    && (tab.slot.Some? ==> tab.slot.value + 1 == |tab.refreshes|)
    && (forall r | 0 <= r < |tab.refreshes| && !tab.refreshes[r].progress.Settled? :: tab.slot == Some(r))
  }

  /** No refresh presents a token that an earlier refresh had rotated. */
  predicate NoReuse(rs: seq<Refresh>) {
    forall i, j | 0 <= i < j < |rs| && rs[i].rotated :: rs[j].presented != rs[i].presented
  }

  predicate RefreshOk(w: World, r: nat)
    requires r < |w.tab.refreshes|
  {
    var f := w.tab.refreshes[r];
    && (f.presented.Some? ==> f.presented.value in w.issued && f.presented.value !in w.mail)
    && (f.progress.Asked? ==> !f.rotated)
    && (f.rotated ==> f.presented.Some?)
    && (f.rotated && f.progress.Settled? ==> w.cookie != f.presented)
    && (f.rotated && f.progress.Replied? ==> f.progress.reply != Refused(false))
    && (f.progress.Replied? && f.progress.reply.Renewed? ==> Unseen(w, f.progress.reply.digest))
  }

  /** The token a reply carries: given to this tab, and nobody has seen it yet. */
  predicate Unseen(w: World, d: Digest) {
    d in w.issued && d !in w.mail && w.cookie != Some(d) && NeverPresented(w.tab.refreshes, d)
  }

  predicate NeverPresented(rs: seq<Refresh>, d: Digest) {
    forall r | 0 <= r < |rs| :: rs[r].presented != Some(d)
  }

  predicate CookieOk(w: World) {
    && (w.cookie.Some? ==> w.cookie.value in w.issued && w.cookie.value !in w.mail)
    && w.mail <= w.issued
  }

  predicate RotatedBy(rs: seq<Refresh>, d: Digest) {
    exists r | 0 <= r < |rs| :: rs[r].rotated && rs[r].presented == Some(d)
  }

  /** Every token of this tab that the table shows as replaced was rotated by one of its refreshes. */
  predicate Accounted(w: World) {
    forall i | i in w.table && w.table[i].successor.Some? && w.table[i].digest in w.issued ::
      RotatedBy(w.tab.refreshes, w.table[i].digest)
  }

  predicate RefreshesOk(w: World) {
    forall r | 0 <= r < |w.tab.refreshes| :: RefreshOk(w, r)
  }

  predicate Inv(w: World) {
    && CallsOk(w.tab) && OneInFlight(w.tab) && NoReuse(w.tab.refreshes)
    && CookieOk(w) && Accounted(w) && RefreshesOk(w)
  }

  // ---------------------------------------------------------- preservation

  /** A step that touches only the calls. */
  lemma CallsKeep(w: World, c: nat, call: Call)
    requires Inv(w) && c <= |w.tab.calls| && CallOk(w.tab, call)
    ensures Inv(w.(tab := w.tab.(calls := if c == |w.tab.calls| then w.tab.calls + [call] else w.tab.calls[c := call])))
  {
    var after := w.(tab :=
      w.tab.(calls := if c == |w.tab.calls| then w.tab.calls + [call] else w.tab.calls[c := call]));
    forall k | 0 <= k < |after.tab.calls| ensures CallOk(after.tab, after.tab.calls[k]) {
      if k != c { assert CallOk(w.tab, w.tab.calls[k]); }
    }
    forall r | 0 <= r < |after.tab.refreshes| ensures RefreshOk(after, r) { assert RefreshOk(w, r); }
  }

  /** Sharing keeps the invariant: the slot is empty only when every refresh has settled. */
  lemma SharedKeeps(w: World)
    requires Inv(w)
    ensures var (tab, r) := RefreshShared(w.tab, w.cookie);
      Inv(w.(tab := tab)) && tab.slot == Some(r) && r < |tab.refreshes| && tab.calls == w.tab.calls
  {
    if w.tab.slot.None? {
      var after := w.(tab := RefreshShared(w.tab, w.cookie).0);
      var n := |w.tab.refreshes|;
      forall r | 0 <= r < n
        ensures after.tab.refreshes[r] == w.tab.refreshes[r] && w.tab.refreshes[r].progress.Settled? &&
          RefreshOk(after, r)
      {
        assert RefreshOk(w, r);
      }
      assert RefreshOk(after, n);
      forall i | i in w.table && w.table[i].successor.Some? && w.table[i].digest in w.issued
        ensures RotatedBy(after.tab.refreshes, w.table[i].digest)
      {
        var r :| 0 <= r < n && w.tab.refreshes[r].rotated && w.tab.refreshes[r].presented == Some(w.table[i].digest);
        assert after.tab.refreshes[r].rotated;
      }
      forall c | 0 <= c < |w.tab.calls|
        ensures CallOk(after.tab, w.tab.calls[c])
      {
        assert CallOk(w.tab, w.tab.calls[c]);
      }
    }
  }

  lemma AnswerKeeps(w: World, c: nat, status: int)
    requires Inv(w) && IsFlying(w.tab, c)
    ensures Inv(w.(tab := OnAnswer(w.tab, w.cookie, c, status)))
  {
    var call := w.tab.calls[c];
    assert CallOk(w.tab, call);
    if status == 401 && call.auth && call.retry {
      SharedKeeps(w);
      var (tab, r) := RefreshShared(w.tab, w.cookie);
      CallsKeep(w.(tab := tab), c, call.(phase := Waiting(r)));
    } else {
      CallsKeep(w, c, call.(phase := Finished(Some(status))));
    }
  }

  lemma CallStepKeeps(w: World, step: Step)
    requires Inv(w) && Enabled(w, step) && (step.Ask? || step.CutOff? || step.Wake?)
    ensures Inv(Apply(w, step))
  {
    match step
    case Ask(auth, raw) => CallsKeep(w, |w.tab.calls|, Call(auth, raw, true, 1, Flying));
    case CutOff(c) =>
      assert CallOk(w.tab, w.tab.calls[c]);
      CallsKeep(w, c, w.tab.calls[c].(phase := Finished(None)));
    case Wake(c) =>
      assert CallOk(w.tab, w.tab.calls[c]);
      CallsKeep(w, c, Resume(w.tab, c).calls[c]);
  }

  /** One refresh moves on, and the cookie may change, in a way that leaves every clause about it standing. */
  lemma MoveKeeps(w: World, after: World, r: nat)
    requires Inv(w) && r < |w.tab.refreshes| && !w.tab.refreshes[r].progress.Settled?
    requires after.table == w.table && after.issued == w.issued && after.mail == w.mail && CookieOk(after)
    requires after.tab.slot == w.tab.slot && after.tab.calls == w.tab.calls
    requires |after.tab.refreshes| == |w.tab.refreshes|
    requires forall k | 0 <= k < |w.tab.refreshes| && k != r :: after.tab.refreshes[k] == w.tab.refreshes[k]
    requires after.tab.refreshes[r].presented == w.tab.refreshes[r].presented
    requires after.tab.refreshes[r].rotated == w.tab.refreshes[r].rotated
    requires RefreshOk(after, r)
    requires after.cookie == w.cookie || after.cookie.None? || NeverPresented(w.tab.refreshes, after.cookie.value)
    ensures Inv(after)
  {
    forall k | 0 <= k < |w.tab.refreshes| ensures RefreshOk(after, k) { assert RefreshOk(w, k); }
    forall c | 0 <= c < |w.tab.calls|
      ensures CallOk(after.tab, w.tab.calls[c])
    {
      assert CallOk(w.tab, w.tab.calls[c]);
    }
    SameRotations(w.tab.refreshes, after.tab.refreshes);
  }

  lemma SameRotations(before: seq<Refresh>, after: seq<Refresh>)
    requires |before| == |after|
    requires forall k | 0 <= k < |before| ::
      after[k].presented == before[k].presented && (before[k].rotated ==> after[k].rotated)
    ensures forall d :: RotatedBy(before, d) ==> RotatedBy(after, d)
    ensures forall d :: NeverPresented(before, d) ==> NeverPresented(after, d)
  {
    forall d | RotatedBy(before, d) ensures RotatedBy(after, d) {
      var r :| 0 <= r < |before| && before[r].rotated && before[r].presented == Some(d);
      assert after[r].rotated;
    }
  }

  lemma RefreshStepKeeps(w: World, step: Step)
    requires Inv(w) && Enabled(w, step) && !LosesARotation(w, step)
    requires step.RefreshFails? || step.RefreshTurnedAway? || step.RefreshArrives? || step.RefreshLost?
    ensures Inv(Apply(w, step))
  {
    assert RefreshOk(w, step.r);
    MoveKeeps(w, Apply(w, step), step.r);
  }

  /** What a call leaves linked in the table was linked before, or is the token a refresh just rotated. */
  lemma ServeLinks(t: S.Table, e: S.Event)
    ensures var (ok, after) := S.Serve(t, e);
      && (forall i | i in after && after[i].successor.Some? ::
           (i in t && t[i].successor.Some? && t[i].digest == after[i].digest)
           || (e.call.Refresh? && ok && after[i].digest == e.call.presented))
      && (ok && e.call.Login? ==> !S.Has(t, e.call.digest))
      && (ok && e.call.Refresh? ==> !S.Has(t, e.call.next))
  {
  }

  lemma HandleKeeps(w: World, r: nat, now: Time, ttl: int, next: Digest, id: Id, minted: bool)
    requires Inv(w) && Is(w.tab, r, Asked) && next !in w.issued
    ensures Inv(Handle(w, r, now, ttl, next, id, minted))
  {
    var after := Handle(w, r, now, ttl, next, id, minted);
    var f := w.tab.refreshes[r];
    assert RefreshOk(w, r);
    if f.presented.None? {
      MoveKeeps(w, after, r);
    } else {
      var e := S.Event(now, S.Refresh(f.presented.value, next), id, ttl);
      ServeLinks(w.table, e);
      HandledRefreshes(w, after, r, next);
      HandledRows(w, after, r, e);
      forall c | 0 <= c < |w.tab.calls|
        ensures CallOk(after.tab, w.tab.calls[c])
      {
        assert CallOk(w.tab, w.tab.calls[c]);
      }
    }
  }

  lemma HandledRefreshes(w: World, after: World, r: nat, next: Digest)
    requires Inv(w) && Is(w.tab, r, Asked) && next !in w.issued
    requires after.cookie == w.cookie && after.mail == w.mail && after.tab.slot == w.tab.slot
    requires after.issued == w.issued || after.issued == w.issued + {next}
    requires |after.tab.refreshes| == |w.tab.refreshes|
    requires forall k | 0 <= k < |w.tab.refreshes| && k != r :: after.tab.refreshes[k] == w.tab.refreshes[k]
    requires var f := after.tab.refreshes[r];
      f.presented == w.tab.refreshes[r].presented && f.presented.Some? && f.progress.Replied? &&
      f.progress.reply
        == (if f.rotated && next in after.issued && f.progress.reply.Renewed? then Renewed(next) else Refused(true))
    ensures RefreshesOk(after) && OneInFlight(after.tab) && NoReuse(after.tab.refreshes) && CookieOk(after)
  {
    forall k | 0 <= k < |w.tab.refreshes|
      ensures w.tab.refreshes[k].presented != Some(next) && (k < r ==> w.tab.refreshes[k].progress.Settled?)
    {
      assert RefreshOk(w, k);
    }
    assert NeverPresented(after.tab.refreshes, next);
    forall k | 0 <= k < |w.tab.refreshes| ensures RefreshOk(after, k) {
      assert RefreshOk(w, k);
    }
    assert r + 1 == |w.tab.refreshes|;
  }

  lemma HandledRows(w: World, after: World, r: nat, e: S.Event)
    requires Inv(w) && r < |w.tab.refreshes| && e.call.Refresh? && |after.tab.refreshes| == |w.tab.refreshes|
    requires var (ok, table) := S.Serve(w.table, e);
      && after.table == table
      && after.issued == (if ok then w.issued + {e.call.next} else w.issued)
      && after.tab.refreshes[r].rotated == (w.tab.refreshes[r].rotated || ok)
    requires forall k | 0 <= k < |w.tab.refreshes| && k != r :: after.tab.refreshes[k] == w.tab.refreshes[k]
    requires after.tab.refreshes[r].presented == w.tab.refreshes[r].presented == Some(e.call.presented)
    ensures Accounted(after)
  {
    var (ok, table) := S.Serve(w.table, e);
    ServeLinks(w.table, e);
    SameRotations(w.tab.refreshes, after.tab.refreshes);
    forall i | i in table && table[i].successor.Some? && table[i].digest in after.issued
      ensures RotatedBy(after.tab.refreshes, table[i].digest)
    {
      if i in w.table && w.table[i].successor.Some? && w.table[i].digest == table[i].digest {
        assert RotatedBy(w.tab.refreshes, w.table[i].digest);
      } else {
        assert after.tab.refreshes[r].rotated;
      }
    }
  }

  /** The table moves without this tab's refreshes: somebody else's call, or this tab signing in. */
  lemma TableKeeps(w: World, e: S.Event, issued: set<Digest>, mail: set<Digest>)
    requires Inv(w)
    requires match e.call
      case Login(_, d) => d !in w.issued &&
        (if S.Serve(w.table, e).0 && d in issued then issued == w.issued + {d} && mail == w.mail + {d}
          else issued == w.issued && mail == w.mail)
      case _ => Foreign(w.issued, e.call) && issued == w.issued && mail == w.mail
    ensures Inv(w.(table := S.Serve(w.table, e).1, issued := issued, mail := mail))
  {
    var after := w.(table := S.Serve(w.table, e).1, issued := issued, mail := mail);
    ServeLinks(w.table, e);
    forall r | 0 <= r < |w.tab.refreshes| ensures RefreshOk(after, r) { assert RefreshOk(w, r); }
    forall i | i in after.table && after.table[i].successor.Some? && after.table[i].digest in issued
      ensures RotatedBy(w.tab.refreshes, after.table[i].digest)
    {
      assert i in w.table && w.table[i].successor.Some? && w.table[i].digest == after.table[i].digest;
      assert w.table[i].digest in w.issued;
    }
  }

  /** The cookie changes to one no refresh presented, or goes, between refreshes. */
  lemma CookieKeeps(w: World, cookie: Option<Digest>, mail: set<Digest>, accessToken: Option<Digest>)
    requires Inv(w) && mail <= w.mail
    requires cookie.Some? ==> cookie.value in w.mail && cookie.value !in mail
    ensures Inv(w.(cookie := cookie, mail := mail, tab := w.tab.(accessToken := accessToken)))
  {
    var after := w.(cookie := cookie, mail := mail, tab := w.tab.(accessToken := accessToken));
    forall r | 0 <= r < |w.tab.refreshes| ensures RefreshOk(after, r) { assert RefreshOk(w, r); }
    forall c | 0 <= c < |w.tab.calls|
      ensures CallOk(after.tab, w.tab.calls[c])
    {
      assert CallOk(w.tab, w.tab.calls[c]);
    }
  }

  lemma OpenKeeps(w: World)
    requires Inv(w) && CanReopen(w.tab)
    ensures Inv(w.(tab := Reopen(w.tab)))
  {
    var after := w.(tab := Reopen(w.tab));
    forall r | 0 <= r < |w.tab.refreshes| ensures RefreshOk(after, r) { assert RefreshOk(w, r); }
    forall c | 0 <= c < |w.tab.calls|
      ensures CallOk(after.tab, w.tab.calls[c])
    {
      assert CallOk(w.tab, w.tab.calls[c]);
    }
  }

  lemma StepKeeps(w: World, step: Step)
    requires Inv(w) && Enabled(w, step) && !LosesARotation(w, step)
    ensures Inv(Apply(w, step))
  {
    match step
    case Ask(_, _) => CallStepKeeps(w, step);
    case CutOff(_) => CallStepKeeps(w, step);
    case Wake(_) => CallStepKeeps(w, step);
    case Answer(c, status) => AnswerKeeps(w, c, status);
    case Restore => SharedKeeps(w);
    case RefreshHandled(r, now, ttl, next, id, minted) => HandleKeeps(w, r, now, ttl, next, id, minted);
    case Open => OpenKeeps(w);
    case LoginHandled(now, ttl, user, digest, id) =>
      var e := S.Event(now, S.Login(user, digest), id, ttl);
      if S.Serve(w.table, e).0 {
        TableKeeps(w, e, w.issued + {digest}, w.mail + {digest});
      } else {
        TableKeeps(w, e, w.issued, w.mail);
      }
    case LoginArrives(digest) => CookieKeeps(w, Some(digest), w.mail - {digest}, Some(digest));
    case SignOut => CookieKeeps(w, None, w.mail, None);
    case Elsewhere(e) => TableKeeps(w, e, w.issued, w.mail);
    case _ => RefreshStepKeeps(w, step);
  }

  lemma {:induction false} RunKeeps(w: World, steps: seq<Step>)
    requires Inv(w) && Reliable(w, steps)
    ensures Inv(Run(w, steps))
    decreases |steps|
  {
    if steps != [] {
      StepKeeps(w, steps[0]);
      RunKeeps(Apply(w, steps[0]), steps[1..]);
    }
  }

  // ------------------------------------------------------------ guarantees

  predicate UnderWay(tab: Tab, r: nat) {
    r < |tab.refreshes| && !tab.refreshes[r].progress.Settled?
  }

  /** At every moment of every reliable run: at most one refresh is under way, and none presents a rotated token. */
  lemma OneRefreshAtATime(w: World, steps: seq<Step>)
    requires Initial(w) && Reliable(w, steps)
    ensures var tab := Run(w, steps).tab;
      && (forall i, j | UnderWay(tab, i) && UnderWay(tab, j) :: i == j)
      && NoReuse(tab.refreshes)
  {
    RunKeeps(w, steps);
  }

  /** A call goes out at most twice, an upload or an anonymous call once, and none waits for a refresh nobody runs. */
  lemma CallsGoOutTwiceAtMost(w: World, steps: seq<Step>, c: nat)
    requires Initial(w) && Reliable(w, steps) && c < |Run(w, steps).tab.calls|
    ensures var tab := Run(w, steps).tab; var call := tab.calls[c];
      && 1 <= call.sent <= (if call.auth && !call.raw then 2 else 1)
      && (call.phase.Waiting? ==>
        CanResume(tab, c) || (tab.slot == Some(call.phase.refresh) && UnderWay(tab, call.phase.refresh)))
  {
    RunKeeps(w, steps);
    assert CallOk(Run(w, steps).tab, Run(w, steps).tab.calls[c]);
  }

  /**
   * When the server takes up a refresh, no row shows its token as replaced. So the tab is never taken for a thief by
   * its own doing: a token found revoked then was revoked by a sign-out.
   */
  lemma NeverMistakenForAThief(w: World, steps: seq<Step>, r: nat, i: Id)
    requires Initial(w) && Reliable(w, steps)
    requires var now := Run(w, steps);
      Is(now.tab, r, Asked) && i in now.table && now.tab.refreshes[r].presented == Some(now.table[i].digest)
    ensures Run(w, steps).table[i].successor.None?
  {
    RunKeeps(w, steps);
    var now := Run(w, steps);
    assert RefreshOk(now, r);
    assert forall k | 0 <= k < |now.tab.refreshes| && now.tab.refreshes[k].rotated :: k < r;
    assert !RotatedBy(now.tab.refreshes, now.table[i].digest);
  }

  /**
   * Were the answer of a rotation lost, the next refresh would present the rotated token, exactly when the cookie is
   * still that token: when neither a sign-in nor a sign-out came between.
   */
  lemma LostRotationIsReusedIff(w: World, r: nat)
    requires Inv(w) && Enabled(w, RefreshLost(r)) && w.tab.refreshes[r].rotated
    ensures var lost := Apply(w, RefreshLost(r));
      && Enabled(lost, Step.Open)
      && (NoReuse(Apply(Apply(lost, Step.Open), Restore).tab.refreshes) <==> w.cookie != w.tab.refreshes[r].presented)
  {
    assert RefreshOk(w, r);
    var lost := Apply(w, RefreshLost(r));
    var again := Apply(Apply(lost, Step.Open), Restore).tab.refreshes;
    var n := |w.tab.refreshes|;
    assert again[r].rotated && again[n].presented == w.cookie;
    forall k | 0 <= k < n
      ensures again[k].rotated == w.tab.refreshes[k].rotated && again[k].presented == w.tab.refreshes[k].presented
      ensures k != r && again[k].rotated ==> again[k].presented != w.cookie
    {
      assert RefreshOk(w, k);
    }
  }

  const AT_HOME: World := World(
    Tab(None, None, [], []), Some("a"), map[1 := S.Token(7, "a", 0, 30 * DAY, None, None)], {"a"}, {})

  /**
   * A tab opened on an earlier session asks for a refresh, the server exchanges the token, and the answer is under way.
   */
  lemma RotationUnderWay() returns (steps: seq<Step>)
    ensures Initial(AT_HOME) && Reliable(AT_HOME, steps)
    ensures var w := Run(AT_HOME, steps);
      && Inv(w) && Enabled(w, RefreshLost(0)) && w.tab.refreshes[0] == Refresh(Some("a"), true, Replied(Renewed("b")))
      && w.cookie == Some("a")
  {
    var handled := RefreshHandled(0, HOUR, 30 * DAY, "b", 2, true);
    steps := [Restore, handled];
    var asked := Apply(AT_HOME, Restore);
    assert asked.tab.refreshes == [Refresh(Some("a"), false, Asked)];
    S.RotateFinds(AT_HOME.table, HOUR, "a", "b", 2, HOUR + 30 * DAY, 1);
    assert AT_HOME.table[1].digest == "a" && "a" != "b";
    assert S.Serve(asked.table, S.Event(HOUR, S.Refresh("a", "b"), 2, 30 * DAY)).0;
    assert steps[1..] == [handled] && [handled][1..] == [];
    assert Reliable(asked, [handled]);
    assert Run(AT_HOME, steps) == Run(asked, [handled]) == Apply(asked, handled);
    RunKeeps(AT_HOME, steps);
  }

  /** Lose that answer, and the next refresh presents the token that was rotated. */
  lemma LostRotationIsReused() returns (steps: seq<Step>)
    ensures Initial(AT_HOME) && Reliable(AT_HOME, steps)
    ensures var w := Run(AT_HOME, steps);
      && Enabled(w, RefreshLost(0)) && w.tab.refreshes[0].rotated
      && Enabled(Apply(w, RefreshLost(0)), Step.Open)
      && !NoReuse(Apply(Apply(Apply(w, RefreshLost(0)), Step.Open), Restore).tab.refreshes)
  {
    steps := RotationUnderWay();
    LostRotationIsReusedIff(Run(AT_HOME, steps), 0);
  }

  // -------------------------------------------------------------- recovery

  /** The cookie's token can still be exchanged for one with this digest, in this row, to live this long. */
  predicate Exchangeable(w: World, i: Id, now: Time, ttl: int, next: Digest, id: Id) {
    && i in w.table && w.cookie == Some(w.table[i].digest)
    && w.table[i].revoked == None && w.table[i].expires > now
    && id !in w.table && S.NewDigest(w.table, next) && ttl > 0 && next !in w.issued
  }

  /**
   * A lapsed access token is invisible to a page: an authenticated call answered 401 the first time waits for a
   * refresh;
   * when the cookie's token can be exchanged, the call goes out again, with the new access token set and the new cookie
   * in place.
   */
  lemma LapsedCallRecovers(w: World, c: nat, i: Id, now: Time, ttl: int, next: Digest, id: Id)
    requires IsFlying(w.tab, c) && w.tab.calls[c].auth && w.tab.calls[c].retry && !w.tab.calls[c].raw
    requires w.tab.slot == None && S.Unique(w.table) && Exchangeable(w, i, now, ttl, next, id)
    ensures var r := |w.tab.refreshes|;
      && Enabled(w, Answer(c, 401))
      && var asked := Apply(w, Answer(c, 401)); var handling := RefreshHandled(r, now, ttl, next, id, true);
         && asked.tab.calls[c].phase == Waiting(r) && asked.tab.slot == Some(r) && Enabled(asked, handling)
         && var handled := Apply(asked, handling);
            && Enabled(handled, RefreshArrives(r))
            && var arrived := Apply(handled, RefreshArrives(r));
               && Enabled(arrived, Wake(c))
               && var woken := Apply(arrived, Wake(c));
                  && woken.tab.calls[c] == w.tab.calls[c].(retry := false, sent := w.tab.calls[c].sent + 1)
                  && woken.tab.accessToken == Some(next) && woken.cookie == Some(next)
  {
    var r := |w.tab.refreshes|;
    var asked := Apply(w, Answer(c, 401));
    assert asked.tab.refreshes[r] == Refresh(w.cookie, false, Asked) && asked.table == w.table;
    S.RefreshActs(w.table, S.Event(now, S.Refresh(w.cookie.value, next), id, ttl), i);
    var handled := Apply(asked, RefreshHandled(r, now, ttl, next, id, true));
    assert handled.tab.refreshes[r] == Refresh(w.cookie, true, Replied(Renewed(next)));
  }

  /** Any other answer ends the call with its status, and asks for nothing. */
  lemma OtherAnswersEndTheCall(w: World, c: nat, status: int)
    requires IsFlying(w.tab, c) && (status != 401 || !w.tab.calls[c].auth || !w.tab.calls[c].retry)
    ensures Apply(w, Answer(c, status))
      == w.(tab := w.tab.(calls := w.tab.calls[c := w.tab.calls[c].(phase := Finished(Some(status)))]))
  {
  }

  /** A sign-in the server grants puts its token in the cookie and arms the transport; signing out empties both. */
  lemma SigningInAndOut(w: World, now: Time, ttl: int, user: Id, digest: Digest, id: Id)
    requires digest !in w.issued && id !in w.table && S.NewDigest(w.table, digest) && ttl > 0
    ensures var granted := Apply(w, LoginHandled(now, ttl, user, digest, id));
      && Enabled(granted, LoginArrives(digest))
      && Apply(granted, LoginArrives(digest)).cookie == Some(digest)
      && Apply(granted, LoginArrives(digest)).tab == w.tab.(accessToken := Some(digest))
    ensures Apply(w, SignOut) == w.(cookie := None, tab := w.tab.(accessToken := None))
  {
    S.LoginActs(w.table, S.Event(now, S.Login(user, digest), id, ttl));
  }

  // ------------------------------------------------------------- the module

  /** How often the calls have gone out. */
  function Sent(calls: seq<Call>): nat {
    if calls == [] then 0 else Sent(calls[..|calls| - 1]) + calls[|calls| - 1].sent
  }

  lemma {:induction false} SentUpdated(calls: seq<Call>, c: nat, call: Call)
    requires c < |calls|
    ensures Sent(calls[c := call]) == Sent(calls) - calls[c].sent + call.sent
  {
    var n := |calls| - 1;
    if c < n {
      assert calls[c := call][..n] == calls[..n][c := call];
      SentUpdated(calls[..n], c, call);
    } else {
      assert calls[c := call][..n] == calls[..n];
    }
  }

  /** The transport as it runs: the module's variables, assigned and cleared between one await and the next. */
  class ApiClient {
    var accessToken: Option<Digest>
    var refreshInFlight: Option<nat>
    var refreshes: seq<Refresh>
    var calls: seq<Call>

    function View(): Tab
      reads this
    {
      Tab(accessToken, refreshInFlight, refreshes, calls)
    }

    /** Every call is sent as often as it may be, and one refresh at most is under way: the one in the slot. */
    predicate Valid()
      reads this
    {
      CallsOk(View()) && OneInFlight(View())
    }

    constructor ()
      ensures Valid() && View() == Tab(None, None, [], [])
    {
      accessToken, refreshInFlight, refreshes, calls := None, None, [], [];
    }

    method SetAccessToken(token: Option<Digest>)
      requires Valid()
      modifies this`accessToken
      ensures Valid() && View() == old(View()).(accessToken := token)
    {
      accessToken := token;
      assert forall k | 0 <= k < |calls| :: CallOk(old(View()), calls[k]);
    }

    /** A call of a page, up to its first await: it has gone out once. */
    method Send(auth: bool, raw: bool) returns (c: nat)
      requires Valid()
      modifies this`calls
      ensures Valid() && View() == Request(old(View()), auth, raw) && IsFlying(View(), c)
      ensures Sent(calls) == Sent(old(calls)) + 1
    {
      c := |calls|;
      assert forall k | 0 <= k < |calls| :: CallOk(old(View()), calls[k]);
      calls := calls + [Call(auth, raw, true, 1, Flying)];
      assert calls[..c] == old(calls);
    }

    /**
     * Whoever asks is given the newest refresh, the only one that can be under way. A request goes out exactly when
     * the slot was free, and carries the cookie of this moment; earlier refreshes had all settled by then.
     */
    method Shared(cookie: Option<Digest>) returns (r: nat)
      requires Valid()
      modifies this`refreshInFlight, this`refreshes
      ensures Valid() && (View(), r) == RefreshShared(old(View()), cookie)
      ensures r + 1 == |refreshes| && forall k: nat :: UnderWay(View(), k) ==> k == r
      ensures old(refreshInFlight).Some? ==> refreshes == old(refreshes)
      ensures old(refreshInFlight).None? ==>
        refreshes[..r] == old(refreshes) && refreshes[r].presented == cookie &&
        forall k | 0 <= k < r :: refreshes[k].progress.Settled?
    {
      assert forall k | 0 <= k < |calls| :: CallOk(old(View()), calls[k]);
      if refreshInFlight.None? {
        refreshInFlight := Some(|refreshes|);
        refreshes := refreshes + [Refresh(cookie, false, Asked)];
      }
      r := refreshInFlight.value;
    }

    /**
     * A call resumes with its response. It ends, or waits for the one refresh there is; nothing is sent but, perhaps,
     * that refresh. Only a first attempt waits, so a second 401 ends the call.
     */
    method Received(cookie: Option<Digest>, c: nat, status: int)
      requires Valid() && IsFlying(View(), c)
      modifies this
      ensures Valid() && View() == OnAnswer(old(View()), cookie, c, status)
      ensures Sent(calls) == Sent(old(calls)) && |old(refreshes)| <= |refreshes| <= |old(refreshes)| + 1
      ensures calls[c].phase.Waiting? <==> status == 401 && old(calls)[c].auth && old(calls)[c].retry
      ensures calls[c].phase.Waiting? ==>
        calls[c].sent == 1 && refreshInFlight == Some(calls[c].phase.refresh)
      ensures !calls[c].phase.Waiting? ==> calls[c].phase == Finished(Some(status)) && refreshes == old(refreshes)
      ensures forall k | 0 <= k < |calls| && k != c :: calls[k] == old(calls)[k]
    {
      var call := calls[c];
      assert CallOk(View(), call);
      if status == 401 && call.auth && call.retry {
        var r := Shared(cookie);
        Replace(c, call.(phase := Waiting(r)));
      } else {
        Replace(c, call.(phase := Finished(Some(status))));
      }
    }

    method Replace(c: nat, call: Call)
      requires Valid() && c < |calls| && CallOk(View(), call)
      modifies this`calls
      ensures Valid() && calls == old(calls)[c := call]
      ensures Sent(calls) == Sent(old(calls)) - old(calls)[c].sent + call.sent
    {
      SentUpdated(calls, c, call);
      assert forall k | 0 <= k < |calls| :: CallOk(old(View()), calls[k]);
      calls := calls[c := call];
    }

    method Failed(c: nat)
      requires Valid() && IsFlying(View(), c)
      modifies this`calls
      ensures Valid() && View() == OnUnreachable(old(View()), c)
      ensures Sent(calls) == Sent(old(calls))
    {
      assert CallOk(View(), calls[c]);
      Replace(c, calls[c].(phase := Finished(None)));
    }

    /**
     * A call resumes with the outcome of the refresh it waited for. It goes out a second time exactly if that worked
     * and its body can be sent again, and can then never wait again; otherwise it ends with its 401.
     */
    method Refreshed(c: nat)
      requires Valid() && CanResume(View(), c)
      modifies this`calls
      ensures Valid() && View() == Resume(old(View()), c)
      ensures Sent(calls) == Sent(old(calls)) + (if IsFlying(View(), c) then 1 else 0)
      ensures IsFlying(View(), c) ==> calls[c].sent == 2 && !calls[c].retry && !calls[c].raw
      ensures !IsFlying(View(), c) ==> calls[c] == old(calls)[c].(phase := Finished(Some(401)))
      ensures forall k | 0 <= k < |calls| && k != c :: calls[k] == old(calls)[k]
    {
      var call := calls[c];
      assert CallOk(View(), call);
      if refreshes[call.phase.refresh].progress.ok {
        if call.raw {
          Replace(c, call.(phase := Finished(Some(401))));
          return;
        }
        Replace(c, call.(retry := false, sent := call.sent + 1, phase := Flying));
      } else {
        Replace(c, call.(phase := Finished(Some(401))));
      }
    }

    /**
     * The shared promise settles, with the session it renewed or with an error. Now nothing is under way, the slot can
     * be cleared, and every call that waited for this refresh can resume with its outcome.
     */
    method Settled(r: nat, renewed: Option<Digest>)
      requires Valid() && UnderWay(View(), r)
      modifies this`accessToken, this`refreshes
      ensures Valid() && View() == Settle(old(View()), r, renewed)
      ensures accessToken == renewed && CanReopen(View()) && forall k: nat :: !UnderWay(View(), k)
      ensures forall c: nat :: c < |calls| && calls[c].phase == Waiting(r) ==> CanResume(View(), c)
    {
      assert forall k | 0 <= k < |calls| :: CallOk(old(View()), calls[k]);
      SetAccessToken(renewed);
      refreshes := refreshes[r := refreshes[r].(progress := Progress.Settled(renewed.Some?))];
    }

    /** The microtask that reopens the slot: every waiting call can resume already. */
    method Clear()
      requires Valid() && CanReopen(View())
      modifies this`refreshInFlight
      ensures Valid() && View() == Reopen(old(View()))
      ensures forall c: nat :: c < |calls| && calls[c].phase.Waiting? ==> CanResume(View(), c)
    {
      assert forall k | 0 <= k < |calls| :: CallOk(old(View()), calls[k]);
      refreshInFlight := None;
    }
  }
}
