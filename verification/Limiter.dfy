// The login rate limiter: one token bucket per client, swept of idle ones. The code keeps fractional tokens; one
// token is worth `every` of time, so a bucket is equally an account of whole time units, and that is how the
// specification keeps it: an account per client that nothing ever sweeps.

module Limiter {
  import opened Domain

  type Key = string

  datatype Rate = Rate(burst: int, every: int, disabled: bool) {
    predicate Set() { burst > 0 && every > 0 }
    function Full(): int { burst * every }

    /** A zero or negative figure means "no opinion". */
    function OrDefault(): (r: Rate)
      ensures r.disabled == disabled && (!disabled ==> r.Set())
      ensures Set() ==> r == this
      ensures !disabled ==> r.burst == (if burst > 0 then burst else 5)
      ensures !disabled ==> r.every == (if every > 0 then every else 12 * SECOND)
    {
      if disabled then this
      else Rate(if burst <= 0 then DEFAULT_RATE.burst else burst,
                if every <= 0 then DEFAULT_RATE.every else every, false)
    }
  }

  const DEFAULT_RATE := Rate(5, 12 * SECOND, false)
  const GC_INTERVAL: int := 5 * MINUTE

  // ----------------------------------------------------------- specification

  datatype Account = Account(credit: int, seen: Time)

  datatype Answer = Answer(ok: bool, wait: int)

  function Earned(rate: Rate, a: Account, now: Time): int {
    var c := a.credit + (now - a.seen);
    if c > rate.Full() then rate.Full() else c
  }

  /** What a client has to spend; one never seen has a full account. */
  function Worth(rate: Rate, accounts: map<Key, Account>, key: Key, now: Time): int {
    if key in accounts then Earned(rate, accounts[key], now) else rate.Full()
  }

  function Knock(rate: Rate, accounts: map<Key, Account>, key: Key, now: Time): (map<Key, Account>, Answer) {
    var c := Worth(rate, accounts, key, now);
    if c < rate.every then (accounts[key := Account(c, now)], Answer(false, rate.every - c))
    else (accounts[key := Account(c - rate.every, now)], Answer(true, 0))
  }

  datatype Request = Request(key: Key, at: Time)

  /** The accounts after a trace of requests. */
  function Replay(rate: Rate, accounts: map<Key, Account>, trace: seq<Request>): map<Key, Account>
    decreases |trace|
  {
    if trace == [] then accounts else Replay(rate, Knock(rate, accounts, trace[0].key, trace[0].at).0, trace[1..])
  }

  /** How many of one client's requests a trace lets through. */
  function Allowed(rate: Rate, accounts: map<Key, Account>, trace: seq<Request>, key: Key): nat
    decreases |trace|
  {
    if trace == [] then 0
    else
      var (next, answer) := Knock(rate, accounts, trace[0].key, trace[0].at);
      (if trace[0].key == key && answer.ok then 1 else 0) + Allowed(rate, next, trace[1..], key)
  }

  /** What each request of a trace is told, by a limiter that has seen nothing before. */
  function Oks(rate: Rate, trace: seq<Request>): (oks: seq<bool>)
    ensures |oks| == |trace|
  {
    if trace == [] then []
    else
      var n := |trace| - 1;
      Oks(rate, trace[..n]) + [Knock(rate, State(rate, trace[..n]), trace[n].key, trace[n].at).1.ok]
  }

  /** The accounts a trace leaves. */
  function State(rate: Rate, trace: seq<Request>): map<Key, Account> {
    if trace == [] then map[]
    else
      var n := |trace| - 1;
      Knock(rate, State(rate, trace[..n]), trace[n].key, trace[n].at).0
  }

  lemma OneMoreRequest(rate: Rate, trace: seq<Request>, r: Request)
    ensures State(rate, trace + [r]) == Knock(rate, State(rate, trace), r.key, r.at).0
    ensures Oks(rate, trace + [r]) == Oks(rate, trace) + [Knock(rate, State(rate, trace), r.key, r.at).1.ok]
  {
    assert (trace + [r])[..|trace|] == trace;
  }

  predicate InOrder(now: Time, trace: seq<Request>)
    decreases |trace|
  {
    trace == [] || (now <= trace[0].at && InOrder(trace[0].at, trace[1..]))
  }

  function End(now: Time, trace: seq<Request>): Time {
    if trace == [] then now else trace[|trace| - 1].at
  }

  predicate Sound(rate: Rate, accounts: map<Key, Account>, now: Time) {
    forall k :: k in accounts ==> 0 <= accounts[k].credit <= rate.Full() && accounts[k].seen <= now
  }

  lemma FullCovers(rate: Rate)
    requires rate.Set()
    ensures rate.Full() >= rate.every
  {
  }

  lemma KnockSound(rate: Rate, accounts: map<Key, Account>, now: Time, key: Key, at: Time)
    requires rate.Set() && Sound(rate, accounts, now) && now <= at
    ensures Sound(rate, Knock(rate, accounts, key, at).0, at)
  {
    FullCovers(rate);
  }

  /** One request pays for itself out of what its client had and what time earned it; other requests cost nothing. */
  lemma KnockIsPaidFor(rate: Rate, accounts: map<Key, Account>, now: Time, key: Key, r: Request)
    requires rate.Set() && Sound(rate, accounts, now) && now <= r.at
    ensures var (next, answer) := Knock(rate, accounts, r.key, r.at);
      Worth(rate, next, key, r.at) + (if r.key == key && answer.ok then rate.every else 0)
        <= Worth(rate, accounts, key, now) + (r.at - now)
  {
    FullCovers(rate);
  }

  /** What is let through is paid for out of what the client had and what time earned it. */
  lemma {:induction false} AllowedIsPaidFor(rate: Rate, accounts: map<Key, Account>, now: Time, trace: seq<Request>,
      key: Key)
    requires rate.Set() && Sound(rate, accounts, now) && InOrder(now, trace)
    ensures Allowed(rate, accounts, trace, key) * rate.every
      <= Worth(rate, accounts, key, now) + (End(now, trace) - now)
    decreases |trace|
  {
    if trace == [] {
      WorthIsSound(rate, accounts, key, now);
    } else {
      var r := trace[0];
      var (next, answer) := Knock(rate, accounts, r.key, r.at);
      KnockSound(rate, accounts, now, r.key, r.at);
      KnockIsPaidFor(rate, accounts, now, key, r);
      AllowedIsPaidFor(rate, next, r.at, trace[1..], key);
      assert End(r.at, trace[1..]) == End(now, trace);
      OneMore(Allowed(rate, next, trace[1..], key), rate.every);
    }
  }

  lemma WorthIsSound(rate: Rate, accounts: map<Key, Account>, key: Key, now: Time)
    requires rate.Set() && Sound(rate, accounts, now)
    ensures 0 <= Worth(rate, accounts, key, now) <= rate.Full()
  {
    FullCovers(rate);
  }

  lemma OneMore(n: int, every: int)
    ensures (1 + n) * every == every + n * every
  {
  }

  lemma {:induction false} EndIsLast(now: Time, trace: seq<Request>)
    requires InOrder(now, trace)
    ensures now <= End(now, trace)
    decreases |trace|
  {
    if trace != [] {
      assert End(trace[0].at, trace[1..]) == End(now, trace);
      EndIsLast(trace[0].at, trace[1..]);
    }
  }

  lemma {:induction false} ReplaySound(rate: Rate, accounts: map<Key, Account>, now: Time, trace: seq<Request>)
    requires rate.Set() && Sound(rate, accounts, now) && InOrder(now, trace)
    ensures Sound(rate, Replay(rate, accounts, trace), End(now, trace)) && now <= End(now, trace)
    decreases |trace|
  {
    if trace != [] {
      KnockSound(rate, accounts, now, trace[0].key, trace[0].at);
      ReplaySound(rate, Knock(rate, accounts, trace[0].key, trace[0].at).0, trace[0].at, trace[1..]);
      assert End(trace[0].at, trace[1..]) == End(now, trace);
    }
  }

  /**
   * In any window of length `length`, wherever in a trace it lies and whatever other clients do, one client is allowed
   * at most burst + length / every requests.
   */
  lemma WindowBound(rate: Rate, now: Time, before: seq<Request>, window: seq<Request>, length: int, key: Key)
    requires rate.Set() && InOrder(now, before) && InOrder(End(now, before), window)
    requires window != [] ==> window[|window| - 1].at - window[0].at <= length
    requires length >= 0
    ensures Allowed(rate, Replay(rate, map[], before), window, key) * rate.every <= rate.burst * rate.every + length
    ensures Allowed(rate, Replay(rate, map[], before), window, key) <= rate.burst + length / rate.every
  {
    ReplaySound(rate, map[], now, before);
    var accounts := Replay(rate, map[], before);
    FullCovers(rate);
    if window != [] {
      assert Sound(rate, accounts, window[0].at);
      assert InOrder(window[0].at, window);
      AllowedIsPaidFor(rate, accounts, window[0].at, window, key);
    }
    WholeRequests(Allowed(rate, accounts, window, key), rate.burst, rate.every, length);
  }

  lemma WholeRequests(n: int, burst: int, every: int, length: int)
    requires every > 0 && n * every <= burst * every + length
    ensures n <= burst + length / every
  {
    var excess := n - burst;
    assert excess * every == n * every - burst * every;
    Quotient(excess, every, length);
  }

  lemma Quotient(m: int, every: int, length: int)
    requires every > 0 && m * every <= length
    ensures m <= length / every
  {
    var q := length / every;
    assert length < q * every + every;
    assert (m - q) * every < every;
    Less(m - q, every);
  }

  lemma Less(d: int, every: int)
    requires every > 0 && d * every < every
    ensures d <= 0
  {
  }

  /** Every request of the client in the trace comes before `until`. */
  predicate OnlyBefore(trace: seq<Request>, key: Key, until: Time) {
    forall i :: 0 <= i < |trace| && trace[i].key == key ==> trace[i].at < until
  }

  /**
   * After a refusal at `now`, and any trace of other clients' requests and of this client's own before the wait is
   * over, its next request is allowed exactly when the wait is over. None before that is.
   */
  lemma {:induction false} WaitIsExact(rate: Rate, accounts: map<Key, Account>, key: Key, now: Time,
      trace: seq<Request>, wait: int, at: Time, from: Time)
    requires rate.Set() && key in accounts && accounts[key].seen <= from <= at
    requires 0 <= accounts[key].credit && accounts[key].credit - accounts[key].seen == rate.every - wait - now
    requires accounts[key].seen < now + wait
    requires InOrder(from, trace) && End(from, trace) <= at && OnlyBefore(trace, key, now + wait)
    ensures Allowed(rate, accounts, trace, key) == 0
    ensures Knock(rate, Replay(rate, accounts, trace), key, at).1.ok <==> at >= now + wait
    decreases |trace|
  {
    FullCovers(rate);
    if trace != [] {
      var next := Knock(rate, accounts, trace[0].key, trace[0].at).0;
      assert trace[0] in trace && trace[0].key == key ==> trace[0].at < now + wait;
      assert End(trace[0].at, trace[1..]) == End(from, trace);
      EndIsLast(trace[0].at, trace[1..]);
      WaitIsExact(rate, next, key, now, trace[1..], wait, at, trace[0].at);
    }
  }

  /** The wait a refused client is told is that one. */
  lemma RefusalTellsTheWait(rate: Rate, accounts: map<Key, Account>, now: Time, key: Key, trace: seq<Request>, at: Time)
    requires rate.Set() && Sound(rate, accounts, now) && !Knock(rate, accounts, key, now).1.ok
    requires var wait := Knock(rate, accounts, key, now).1.wait;
      InOrder(now, trace) && End(now, trace) <= at && now <= at && OnlyBefore(trace, key, now + wait)
    ensures var (after, refusal) := Knock(rate, accounts, key, now);
      && refusal.wait > 0
      && Allowed(rate, after, trace, key) == 0
      && (Knock(rate, Replay(rate, after, trace), key, at).1.ok <==> at >= now + refusal.wait)
  {
    FullCovers(rate);
    var (after, refusal) := Knock(rate, accounts, key, now);
    WaitIsExact(rate, after, key, now, trace, refusal.wait, at, now);
  }

  // ---------------------------------------------------------- implementation

  datatype Bucket = Bucket(tokens: real, seen: Time)

  /** The bucket holds what the account says, in tokens. */
  ghost predicate Holds(rate: Rate, b: Bucket, a: Account) {
    b.seen == a.seen && b.tokens * (rate.every as real) == a.credit as real
  }

  /** Every bucket holds its account; an account without a bucket has refilled. */
  ghost predicate Mirrors(rate: Rate, buckets: map<Key, Bucket>, accounts: map<Key, Account>, now: Time) {
    && Sound(rate, accounts, now)
    && (forall k :: k in buckets ==> k in accounts && Holds(rate, buckets[k], accounts[k]))
    && (forall k :: k in accounts && k !in buckets ==> accounts[k].credit + (now - accounts[k].seen) >= rate.Full())
  }

  lemma PutKeepsMirror(rate: Rate, buckets: map<Key, Bucket>, accounts: map<Key, Account>, now: Time, key: Key,
      b: Bucket, a: Account)
    requires Mirrors(rate, buckets, accounts, now)
    requires Holds(rate, b, a) && a.seen == now && 0 <= a.credit <= rate.Full()
    ensures Mirrors(rate, buckets[key := b], accounts[key := a], now)
  {
  }

  lemma TokensEarned(rate: Rate, tokens: real, credit: int, elapsed: int)
    requires rate.Set() && tokens * (rate.every as real) == credit as real
    ensures var more := tokens + elapsed as real / rate.every as real;
      && more * (rate.every as real) == (credit + elapsed) as real
      && (more <= rate.burst as real <==> credit + elapsed <= rate.Full())
      && (rate.burst as real) * (rate.every as real) == rate.Full() as real
  {
    var e := rate.every as real;
    var q := elapsed as real / e;
    assert q * e == elapsed as real;
    var more := tokens + q;
    assert more * e == tokens * e + q * e;
    Product(rate.burst, rate.every);
    if more <= rate.burst as real {
      assert more * e <= rate.burst as real * e;
    } else {
      assert (more - rate.burst as real) * e > 0.0;
    }
  }

  lemma Product(a: int, b: int)
    ensures (a as real) * (b as real) == (a * b) as real
  {
  }

  lemma OneTokenIsEvery(rate: Rate, tokens: real, credit: int)
    requires rate.Set() && tokens * (rate.every as real) == credit as real
    ensures tokens < 1.0 <==> credit < rate.every
    ensures (tokens - 1.0) * (rate.every as real) == (credit - rate.every) as real
    ensures ((1.0 - tokens) * (rate.every as real)).Floor == rate.every - credit
  {
    var e := rate.every as real;
    assert (tokens - 1.0) * e == tokens * e - e;
    assert (1.0 - tokens) * e == e - tokens * e;
    SameSign(1.0 - tokens, e);
  }

  lemma SameSign(x: real, e: real)
    requires e > 0.0
    ensures x > 0.0 <==> x * e > 0.0
  {
    if x <= 0.0 { NotPositive(x, e); }
  }

  lemma NotPositive(x: real, e: real)
    requires e > 0.0 && x <= 0.0
    ensures x * e <= 0.0
  {
    assert (-x) * e >= 0.0;
  }

  class BucketLimiter {
    const rate: Rate
    var buckets: map<Key, Bucket>
    var lastGC: Time

    /** The accounts of a limiter that is asked the same and never sweeps, and when it was last asked. */
    ghost var accounts: map<Key, Account>
    ghost var clock: Time

    /** All it was ever asked, in order. */
    ghost var trace: seq<Request>

    ghost predicate Valid()
      reads this
    {
      && (rate.disabled || rate.Set())
      && (!rate.disabled ==> Mirrors(rate, buckets, accounts, clock) && accounts == State(rate, trace))
    }

    constructor (rate: Rate, now: Time)
      ensures Valid() && this.rate == rate.OrDefault() && accounts == map[] && clock == now && trace == []
    {
      this.rate := rate.OrDefault();
      buckets := map[];
      lastGC := now;
      accounts := map[];
      clock := now;
      trace := [];
    }

    /** Answers exactly as the limiter that never sweeps would. */
    method Allow(key: Key, now: Time) returns (ok: bool, wait: int)
      requires Valid() && clock <= now
      modifies this
      ensures Valid()
      ensures rate.disabled ==> ok && wait == 0 && buckets == old(buckets)
      ensures !rate.disabled ==> clock == now && accounts == Knock(rate, old(accounts), key, now).0
      ensures !rate.disabled ==> Answer(ok, wait) == Knock(rate, old(accounts), key, now).1
      ensures !rate.disabled ==> key in buckets && 0.0 <= buckets[key].tokens <= rate.burst as real
      ensures !rate.disabled ==>
        trace == old(trace) + [Request(key, now)] && ok == Oks(rate, trace)[|old(trace)|]
    {
      if rate.disabled { return true, 0; }
      clock := now;
      Sweep(now);
      OneMoreRequest(rate, trace, Request(key, now));
      ok, wait := Take(key, now);
      trace := trace + [Request(key, now)];
    }

    /** Refills the client's bucket for the time that has passed and takes a token from it, if there is one. */
    method Take(key: Key, now: Time) returns (ok: bool, wait: int)
      requires rate.Set() && Mirrors(rate, buckets, accounts, now)
      modifies this`buckets, this`accounts
      ensures Mirrors(rate, buckets, accounts, now)
      ensures accounts == Knock(rate, old(accounts), key, now).0
      ensures Answer(ok, wait) == Knock(rate, old(accounts), key, now).1
      ensures key in buckets && 0.0 <= buckets[key].tokens <= rate.burst as real
    {
      ghost var credit := Worth(rate, accounts, key, now);
      WorthIsSound(rate, accounts, key, now);
      ghost var account := Account(if credit < rate.every then credit else credit - rate.every, now);
      var b;
      if key !in buckets {
        b := NewBucket(rate, now);
        ok, wait := true, 0;
      } else {
        var refilled := Refill(rate, buckets[key], accounts[key], now);
        b, ok, wait := Spend(rate, refilled, credit);
      }
      PutKeepsMirror(rate, buckets, accounts, now, key, b, account);
      buckets := buckets[key := b];
      accounts := accounts[key := account];
    }

    /** Drops buckets idle long enough to have refilled. No account is affected. */
    method Sweep(now: Time)
      requires Valid() && !rate.disabled && clock == now
      modifies this`buckets, this`lastGC
      ensures Valid()
      ensures forall k :: k in buckets ==> k in old(buckets) && buckets[k] == old(buckets)[k]
      ensures forall k :: k in old(buckets) && k !in buckets ==> now - old(buckets)[k].seen >= rate.Full()
    {
      if now - lastGC < GC_INTERVAL { return; }
      lastGC := now;
      var full := rate.burst * rate.every;
      var keys := buckets.Keys;
      while keys != {}
        invariant keys <= buckets.Keys
        invariant forall k :: k in buckets ==> k in old(buckets) && buckets[k] == old(buckets)[k]
        invariant forall k :: k in old(buckets) && k !in buckets ==> now - old(buckets)[k].seen >= full
        decreases keys
      {
        var key :| key in keys;
        keys := keys - {key};
        if now - buckets[key].seen >= full {
          buckets := buckets - {key};
        }
      }
    }
  }

  lemma NotNegative(tokens: real, every: real)
    requires every > 0.0 && tokens * every >= 0.0
    ensures 0.0 <= tokens
  {
  }

  /** A new client starts full, minus the request it is making. */
  method NewBucket(rate: Rate, now: Time) returns (b: Bucket)
    requires rate.Set()
    ensures Holds(rate, b, Account(rate.Full() - rate.every, now))
    ensures 0.0 <= b.tokens <= rate.burst as real && rate.Full() >= rate.every
  {
    FullCovers(rate);
    Product(rate.burst, rate.every);
    OneTokenIsEvery(rate, rate.burst as real, rate.Full());
    b := Bucket(rate.burst as real - 1.0, now);
  }

  /** Refilling a bucket, capped at the burst, is refilling its account. */
  method Refill(rate: Rate, b: Bucket, ghost a: Account, now: Time) returns (refilled: Bucket)
    requires rate.Set() && Holds(rate, b, a)
    ensures Holds(rate, refilled, Account(Earned(rate, a, now), now)) && refilled.tokens <= rate.burst as real
  {
    TokensEarned(rate, b.tokens, a.credit, now - b.seen);
    var tokens := b.tokens + (now - b.seen) as real / rate.every as real;
    if tokens > rate.burst as real { tokens := rate.burst as real; }
    refilled := Bucket(tokens, now);
  }

  /** What a bucket decides, and what it is left with, is what its account decides and is left with. */
  method Spend(rate: Rate, b: Bucket, ghost credit: int) returns (left: Bucket, ok: bool, wait: int)
    requires rate.Set() && Holds(rate, b, Account(credit, b.seen)) && 0 <= credit && b.tokens <= rate.burst as real
    ensures ok <==> credit >= rate.every
    ensures wait == if ok then 0 else rate.every - credit
    ensures Holds(rate, left, Account(if ok then credit - rate.every else credit, b.seen))
    ensures 0.0 <= left.tokens <= rate.burst as real
  {
    NotNegative(b.tokens, rate.every as real);
    OneTokenIsEvery(rate, b.tokens, credit);
    if b.tokens < 1.0 {
      return b, false, ((1.0 - b.tokens) * rate.every as real).Floor;
    }
    return Bucket(b.tokens - 1.0, b.seen), true, 0;
  }
}
