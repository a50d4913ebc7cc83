// Who is refused, told from the answers of a trace alone: a request is refused exactly when the client has used up, in
// some stretch of the trace, its burst and all that the time of that stretch earned.

module Bursts {
  import opened Domain
  import opened Limiter

  // ------------------------------------------------------- answers of a trace

  /** How many of the client's requests from position `i` on, up to position `n`, were allowed. */
  function Passed(trace: seq<Request>, oks: seq<bool>, key: Key, i: nat, n: nat): nat
    requires n <= |trace| && |oks| == |trace|
    decreases n
  {
    if n <= i then 0
    else Passed(trace, oks, key, i, n - 1) + (if trace[n - 1].key == key && oks[n - 1] then 1 else 0)
  }

  /** Requests come in the order of their instants. */
  predicate Ordered(trace: seq<Request>) {
    forall i, j | 0 <= i <= j < |trace| :: trace[i].at <= trace[j].at
  }

  lemma {:induction false} OksPrefix(rate: Rate, trace: seq<Request>, n: nat)
    requires n <= |trace|
    ensures Oks(rate, trace)[..n] == Oks(rate, trace[..n])
    decreases |trace|
  {
    if n < |trace| {
      var m := |trace| - 1;
      OksPrefix(rate, trace[..m], n);
      assert trace[..m][..n] == trace[..n];
    } else {
      assert trace[..n] == trace;
    }
  }

  /** The limiter's own accounts are these. */
  lemma {:induction false} StateIsReplay(rate: Rate, before: map<Key, Account>, trace: seq<Request>, r: Request)
    ensures Replay(rate, before, trace + [r]) == Knock(rate, Replay(rate, before, trace), r.key, r.at).0
    decreases |trace|
  {
    if trace == [] {
      assert trace + [r] == [r] && [r][1..] == [];
    } else {
      assert (trace + [r])[0] == trace[0] && (trace + [r])[1..] == trace[1..] + [r];
      StateIsReplay(rate, Knock(rate, before, trace[0].key, trace[0].at).0, trace[1..], r);
    }
  }

  lemma {:induction false} StateOfTrace(rate: Rate, trace: seq<Request>)
    ensures State(rate, trace) == Replay(rate, map[], trace)
    decreases |trace|
  {
    if trace != [] {
      var n := |trace| - 1;
      StateOfTrace(rate, trace[..n]);
      StateIsReplay(rate, map[], trace[..n], trace[n]);
      assert trace == trace[..n] + [trace[n]];
    }
  }

  // ---------------------------------------------------- what an account holds

  /** What the client has used since position `i`, against the burst it could have had there. */
  function Left(rate: Rate, trace: seq<Request>, oks: seq<bool>, key: Key, i: nat, n: nat): int
    requires i < n <= |trace| && |oks| == |trace|
  {
    rate.burst * rate.every - Passed(trace, oks, key, i, n) * rate.every - trace[i].at
  }

  /** The account of a client, against the answers it was given up to position `n`. */
  ghost predicate Accounts(rate: Rate, trace: seq<Request>, oks: seq<bool>, key: Key, n: nat, accounts: map<Key,
      Account>)
    requires n <= |trace| && |oks| == |trace|
  {
    && (key !in accounts ==> forall i | 0 <= i < n :: trace[i].key != key)
    && (key in accounts ==>
      var a := accounts[key];
      && 0 <= a.credit <= rate.Full()
      && (exists i | 0 <= i < n :: trace[i].key == key && a.seen == trace[i].at)
      && (forall i | 0 <= i < n && trace[i].key == key ::
           trace[i].at <= a.seen && a.credit - a.seen <= Left(rate, trace, oks, key, i, n))
      && (exists i | 0 <= i < n :: trace[i].key == key && a.credit - a.seen == Left(rate, trace, oks, key, i, n)))
  }

  lemma LeftGoesOn(rate: Rate, trace: seq<Request>, oks: seq<bool>, key: Key, i: nat, n: nat)
    requires i < n < |trace| && |oks| == |trace|
    ensures Left(rate, trace, oks, key, i, n + 1)
      == Left(rate, trace, oks, key, i, n) - (if trace[n].key == key && oks[n] then rate.every else 0)
  {
    OneMore(Passed(trace, oks, key, i, n), rate.every);
  }

  lemma LeftStarts(rate: Rate, trace: seq<Request>, oks: seq<bool>, key: Key, n: nat)
    requires n < |trace| && |oks| == |trace|
    ensures Left(rate, trace, oks, key, n, n + 1)
      == rate.Full() - (if trace[n].key == key && oks[n] then rate.every else 0) - trace[n].at
  {
    assert Passed(trace, oks, key, n, n) == 0;
    assert Passed(trace, oks, key, n, n + 1) == if trace[n].key == key && oks[n] then 1 else 0;
  }

  lemma KnockAccounts(rate: Rate, trace: seq<Request>, oks: seq<bool>, key: Key, n: nat, accounts: map<Key, Account>)
    requires rate.Set() && Ordered(trace) && n < |trace| && |oks| == |trace|
    requires Accounts(rate, trace, oks, key, n, accounts)
    requires oks[n] == Knock(rate, accounts, trace[n].key, trace[n].at).1.ok
    ensures Accounts(rate, trace, oks, key, n + 1, Knock(rate, accounts, trace[n].key, trace[n].at).0)
  {
    var r := trace[n];
    var after := Knock(rate, accounts, r.key, r.at).0;
    FullCovers(rate);
    forall i | 0 <= i < n
      ensures Left(rate, trace, oks, key, i, n + 1)
        == Left(rate, trace, oks, key, i, n) - (if r.key == key && oks[n] then rate.every else 0)
    {
      LeftGoesOn(rate, trace, oks, key, i, n);
    }
    LeftStarts(rate, trace, oks, key, n);
    if r.key == key {
      OwnKnock(rate, trace, oks, key, n, accounts);
    } else if key in accounts {
      var i :| 0 <= i < n && trace[i].key == key && accounts[key].seen == trace[i].at;
      var j :| 0 <= j < n && trace[j].key == key &&
        accounts[key].credit - accounts[key].seen == Left(rate, trace, oks, key, j, n);
      assert after[key] == accounts[key];
      assert after[key].credit - after[key].seen == Left(rate, trace, oks, key, j, n + 1);
    }
  }

  lemma OwnKnock(rate: Rate, trace: seq<Request>, oks: seq<bool>, key: Key, n: nat, accounts: map<Key, Account>)
    requires rate.Set() && Ordered(trace) && n < |trace| && |oks| == |trace| && trace[n].key == key
    requires Accounts(rate, trace, oks, key, n, accounts)
    requires oks[n] == Knock(rate, accounts, key, trace[n].at).1.ok
    ensures Accounts(rate, trace, oks, key, n + 1, Knock(rate, accounts, key, trace[n].at).0)
  {
    var at := trace[n].at;
    var after := Knock(rate, accounts, key, at).0;
    var a := after[key];
    FullCovers(rate);
    LeftStarts(rate, trace, oks, key, n);
    forall i | 0 <= i < n
      ensures Left(rate, trace, oks, key, i, n + 1)
        == Left(rate, trace, oks, key, i, n) - (if oks[n] then rate.every else 0)
    {
      LeftGoesOn(rate, trace, oks, key, i, n);
    }
    assert a.seen == at == trace[n].at;
    if key in accounts && accounts[key].credit + (at - accounts[key].seen) <= rate.Full() {
      var j :| 0 <= j < n && trace[j].key == key &&
        accounts[key].credit - accounts[key].seen == Left(rate, trace, oks, key, j, n);
      assert a.credit - a.seen == Left(rate, trace, oks, key, j, n + 1);
    } else {
      assert a.credit - a.seen == Left(rate, trace, oks, key, n, n + 1);
    }
    forall i | 0 <= i < n + 1 && trace[i].key == key
      ensures trace[i].at <= a.seen && a.credit - a.seen <= Left(rate, trace, oks, key, i, n + 1)
    {
      assert trace[i].at <= trace[n].at;
    }
  }

  lemma {:induction false} AccountsHold(rate: Rate, trace: seq<Request>, key: Key, n: nat)
    requires rate.Set() && Ordered(trace) && n <= |trace|
    ensures Accounts(rate, trace, Oks(rate, trace), key, n, State(rate, trace[..n]))
    decreases n
  {
    if n > 0 {
      var m := n - 1;
      AccountsHold(rate, trace, key, m);
      OkAt(rate, trace, m);
      KnockAccounts(rate, trace, Oks(rate, trace), key, m, State(rate, trace[..m]));
      assert trace[..n][..m] == trace[..m];
    }
  }

  lemma OkAt(rate: Rate, trace: seq<Request>, n: nat)
    requires n < |trace|
    ensures Oks(rate, trace)[n] == Knock(rate, State(rate, trace[..n]), trace[n].key, trace[n].at).1.ok
  {
    OksPrefix(rate, trace, n + 1);
    assert trace[..n + 1][..n] == trace[..n];
    assert Oks(rate, trace)[n] == Oks(rate, trace)[..n + 1][n];
  }

  // ------------------------------------------------------------- who is refused

  /**
   * From position `i` on, what the client was allowed leaves less than one request of its burst and of what time
   * earned.
   */
  ghost predicate UsedUp(rate: Rate, trace: seq<Request>, oks: seq<bool>, i: nat, n: nat)
    requires i < n < |trace| && |oks| == |trace|
  {
    trace[i].key == trace[n].key &&
    Passed(trace, oks, trace[n].key, i, n) * rate.every
      > rate.burst * rate.every + (trace[n].at - trace[i].at) - rate.every
  }

  /**
   * A request is refused if and only if some earlier request of the same client begins a stretch in which the client
   * has used up its burst and all that the time since earned. So nobody is refused early, and nobody late.
   */
  lemma RefusedIff(rate: Rate, trace: seq<Request>, n: nat)
    requires rate.Set() && Ordered(trace) && n < |trace|
    ensures !Oks(rate, trace)[n] <==> exists i: nat | i < n :: UsedUp(rate, trace, Oks(rate, trace), i, n)
  {
    var oks, r, accounts := Oks(rate, trace), trace[n], State(rate, trace[..n]);
    FullCovers(rate);
    AccountsHold(rate, trace, r.key, n);
    OkAt(rate, trace, n);
    if !oks[n] {
      var a := accounts[r.key];
      var i: nat :| i < n && trace[i].key == r.key && a.credit - a.seen == Left(rate, trace, oks, r.key, i, n);
      assert a.credit + (r.at - a.seen) < rate.every;
      assert UsedUp(rate, trace, oks, i, n);
    }
    if exists i: nat | i < n :: UsedUp(rate, trace, oks, i, n) {
      var i: nat :| i < n && UsedUp(rate, trace, oks, i, n);
      var a := accounts[r.key];
      assert a.credit - a.seen <= Left(rate, trace, oks, r.key, i, n);
    }
  }

  /** The client's requests from position `m` up to position `n`. */
  function Asked(trace: seq<Request>, key: Key, m: nat, n: nat): nat
    requires n <= |trace|
    decreases n
  {
    if n <= m then 0 else Asked(trace, key, m, n - 1) + (if trace[n - 1].key == key then 1 else 0)
  }

  lemma {:induction false} PassedSplits(trace: seq<Request>, oks: seq<bool>, key: Key, i: nat, m: nat, n: nat)
    requires i <= m <= n <= |trace| && |oks| == |trace|
    ensures Passed(trace, oks, key, i, n) == Passed(trace, oks, key, i, m) + Passed(trace, oks, key, m, n)
    decreases n
  {
    if m < n { PassedSplits(trace, oks, key, i, m, n - 1); }
  }

  lemma {:induction false} PassedAreAsked(trace: seq<Request>, oks: seq<bool>, key: Key, i: nat, m: nat, n: nat)
    requires m <= i && n <= |trace| && |oks| == |trace|
    ensures Passed(trace, oks, key, i, n) <= Asked(trace, key, m, n)
    decreases n
  {
    if n > 0 { PassedAreAsked(trace, oks, key, i, m, n - 1); }
  }

  /** All of the client's requests before position `m` are at least `burst * every` older than the one there. */
  predicate Rested(rate: Rate, trace: seq<Request>, m: nat)
    requires m < |trace|
  {
    forall j | 0 <= j < m && trace[j].key == trace[m].key :: trace[j].at + rate.burst * rate.every <= trace[m].at
  }

  /**
   * A client never seen, or idle for `burst * every`, has its next `burst` requests allowed, whenever it makes them.
   */
  lemma RestedClientHasItsBurst(rate: Rate, trace: seq<Request>, m: nat, n: nat)
    requires rate.Set() && Ordered(trace) && m <= n < |trace| && trace[n].key == trace[m].key
    requires Rested(rate, trace, m) && Asked(trace, trace[m].key, m, n) < rate.burst
    ensures Oks(rate, trace)[n]
  {
    forall i: nat | i < n ensures !UsedUp(rate, trace, Oks(rate, trace), i, n) {
      if trace[i].key == trace[m].key { RestedHasLeft(rate, trace, i, m, n); }
    }
    RefusedIff(rate, trace, n);
  }

  lemma RestedHasLeft(rate: Rate, trace: seq<Request>, i: nat, m: nat, n: nat)
    requires rate.Set() && Ordered(trace) && m <= n < |trace| && trace[n].key == trace[m].key
    requires Rested(rate, trace, m) && Asked(trace, trace[m].key, m, n) < rate.burst
    requires i < n && trace[i].key == trace[m].key
    ensures !UsedUp(rate, trace, Oks(rate, trace), i, n)
  {
    var early, late := BeforeAndAfter(rate, trace, i, m, n);
    var total := Passed(trace, Oks(rate, trace), trace[n].key, i, n);
    FewerThanTheBurst(total, early, late, rate.burst, rate.every, trace[n].at - trace[i].at);
  }

  /** What was allowed since `i`: before the rest, which time has paid for, and after it, less than a burst. */
  lemma BeforeAndAfter(rate: Rate, trace: seq<Request>, i: nat, m: nat, n: nat) returns (early: nat, late: nat)
    requires rate.Set() && Ordered(trace) && m <= n < |trace| && i < n
    requires trace[i].key == trace[m].key && Rested(rate, trace, m)
    ensures Passed(trace, Oks(rate, trace), trace[m].key, i, n) == early + late
    ensures early * rate.every <= trace[n].at - trace[i].at && late <= Asked(trace, trace[m].key, m, n)
  {
    var oks, key := Oks(rate, trace), trace[m].key;
    var from := if i < m then m else i;
    early, late := Passed(trace, oks, key, i, from), Passed(trace, oks, key, from, n);
    EarlyIsPaid(rate, trace, i, m, n);
    PassedSplits(trace, oks, key, i, from, n);
    PassedAreAsked(trace, oks, key, from, m, n);
  }

  lemma EarlyIsPaid(rate: Rate, trace: seq<Request>, i: nat, m: nat, n: nat)
    requires rate.Set() && Ordered(trace) && m <= n < |trace| && i < n
    requires trace[i].key == trace[m].key && Rested(rate, trace, m)
    ensures Passed(trace, Oks(rate, trace), trace[m].key, i, if i < m then m else i) * rate.every
      <= trace[n].at - trace[i].at
  {
    if i < m {
      SpentBefore(rate, trace, i, m);
      assert trace[m].at <= trace[n].at;
    } else {
      NothingYet(trace, Oks(rate, trace), trace[m].key, i, rate.every);
      assert trace[i].at <= trace[n].at;
    }
  }

  lemma NothingYet(trace: seq<Request>, oks: seq<bool>, key: Key, i: nat, every: int)
    requires i <= |trace| && |oks| == |trace|
    ensures Passed(trace, oks, key, i, i) * every == 0
  {
  }

  lemma FewerThanTheBurst(total: int, early: int, late: int, burst: int, every: int, length: int)
    requires total == early + late && every > 0 && early * every <= length && late <= burst - 1
    ensures total * every <= burst * every + length - every
  {
    Distribute(early, late, every);
    AtMost(late, burst - 1, every);
    Distribute(burst - 1, 1, every);
  }

  /** What a rested client was allowed before its rest is paid for by the time since. */
  lemma SpentBefore(rate: Rate, trace: seq<Request>, i: nat, m: nat)
    requires rate.Set() && Ordered(trace) && i < m < |trace| && trace[i].key == trace[m].key && Rested(rate, trace, m)
    ensures Passed(trace, Oks(rate, trace), trace[m].key, i, m) * rate.every <= trace[m].at - trace[i].at
  {
    var key := trace[m].key;
    AccountsHold(rate, trace, key, m);
    var a := State(rate, trace[..m])[key];
    var j: nat :| j < m && trace[j].key == key && a.seen == trace[j].at;
    assert a.seen + rate.burst * rate.every <= trace[m].at;
    assert a.credit - a.seen <= Left(rate, trace, Oks(rate, trace), key, i, m);
  }

  lemma Distribute(x: int, y: int, e: int)
    ensures (x + y) * e == x * e + y * e
  {
  }

  lemma AtMost(x: int, y: int, e: int)
    requires x <= y && e > 0
    ensures x * e <= y * e
  {
  }
}
