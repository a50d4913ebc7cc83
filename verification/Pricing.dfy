// What a slot costs: the rule that wins for its start, read on the venue's own wall clock, times the hours billed.

module Pricing {
  import opened Domain

  // ------------------------------------------------------------ wall clock

  /** The number of local days since the first of January of year 1, for a zone `off` ahead of UTC. */
  function LocalDay(t: Time, off: int): int { (t + off) / DAY }

  function TimeOfDay(t: Time, off: int): int { (t + off) % DAY }

  function LocalHour(t: Time, off: int): int { TimeOfDay(t, off) / HOUR }

  /** Sunday is 0. The first of January of year 1 was a Monday. */
  function Weekday(t: Time, off: int): int { (LocalDay(t, off) + 1) % 7 }

  // ----------------------------------------------------------------- rules

  datatype Rule = Rule(id: Id, ruleLabel: string, days: seq<int>, startHour: int, endHour: int, price: int,
      isPeak: bool, priority: int) {

    predicate Covers(t: Time, off: int) {
      Weekday(t, off) in days && startHour <= LocalHour(t, off) < endHour
    }

    function Span(): int { endHour - startHour }
  }

  predicate Beats(a: Rule, b: Rule) {
    if a.priority != b.priority then a.priority > b.priority
    else if a.Span() != b.Span() then a.Span() < b.Span()
    else a.price > b.price
  }

  /** Neither rule beats the other. */
  predicate Tied(a: Rule, b: Rule) { !Beats(a, b) && !Beats(b, a) }

  lemma BeatsIsAStrictWeakOrder(a: Rule, b: Rule, c: Rule)
    ensures !Beats(a, a)
    ensures Beats(a, b) ==> !Beats(b, a)
    ensures Beats(a, b) && Beats(b, c) ==> Beats(a, c)
    ensures Tied(a, b) && Tied(b, c) ==> Tied(a, c)
    ensures Tied(a, b) ==> a.price == b.price
    ensures !Beats(b, a) <==> AtLeastAsGood(a, b)
  {
  }

  /**
   * Rule `k` covers the instant, nothing that covers it beats rule `k`, and rule `k` beats every covering rule before
   * it.
   */
  predicate Wins(rules: seq<Rule>, at: Time, off: int, k: nat) {
    && k < |rules| && rules[k].Covers(at, off)
    && (forall j :: 0 <= j < |rules| && rules[j].Covers(at, off) ==> !Beats(rules[j], rules[k]))
    && (forall j :: 0 <= j < k && rules[j].Covers(at, off) ==> Beats(rules[k], rules[j]))
  }

  predicate Uncovered(rules: seq<Rule>, at: Time, off: int) {
    forall j :: 0 <= j < |rules| ==> !rules[j].Covers(at, off)
  }

  /** The position of the winning rule. */
  function Pick(rules: seq<Rule>, at: Time, off: int): (best: Option<nat>)
    ensures best.None? ==> Uncovered(rules, at, off)
    ensures best.Some? ==> Wins(rules, at, off, best.value)
  {
    if rules == [] then None
    else
      var n := |rules| - 1;
      var best := Pick(rules[..n], at, off);
      if !rules[n].Covers(at, off) then best
      else if best.None? || Beats(rules[n], rules[best.value]) then Some(n)
      else best
  }

  /** The rule is for this weekday and for an interval of the day that holds this instant. */
  predicate Applies(r: Rule, at: Time, off: int) {
    ((at + off) / DAY + 1) % 7 in r.days && r.startHour * HOUR <= (at + off) % DAY < r.endHour * HOUR
  }

  /** Weekdays count from Sunday, 0: the first of January 2024, day 738885, was a Monday. */
  lemma WeekdaysAreRight(t: Time, off: int)
    ensures t + off == 738885 * DAY ==> Weekday(t, off) == 1
    ensures Weekday(t + DAY, off) == (Weekday(t, off) + 1) % 7
  {
    NextDay(t + off);
    NextWeekday(LocalDay(t, off) + 1);
    assert t + DAY + off == t + off + DAY;
    if t + off == 738885 * DAY { WholeDays(738885); }
  }

  lemma NextDay(x: int)
    ensures (x + DAY) / DAY == x / DAY + 1
  {
  }

  lemma WholeDays(d: int)
    ensures d * DAY / DAY == d
  {
  }

  lemma NextWeekday(d: int)
    ensures (d + 1) % 7 == (d % 7 + 1) % 7
  {
  }

  lemma CoversIsApplies(r: Rule, at: Time, off: int)
    ensures r.Covers(at, off) <==> Applies(r, at, off)
  {
    var tod := TimeOfDay(at, off);
    assert tod == LocalHour(at, off) * HOUR + tod % HOUR && 0 <= tod % HOUR < HOUR;
  }

  /**
   * Of two rules that apply, the first is preferred: for its priority, then for its shorter span, then for its price.
   */
  predicate AtLeastAsGood(a: Rule, b: Rule) {
    && a.priority >= b.priority
    && (a.priority == b.priority ==> a.endHour - a.startHour <= b.endHour - b.startHour)
    && (a.priority == b.priority && a.endHour - a.startHour == b.endHour - b.startHour ==> a.price >= b.price)
  }

  /** `best` is a rule that applies and is at least as good as all that do; there is none only if none applies. */
  predicate IsBest(rules: seq<Rule>, at: Time, off: int, best: Option<nat>) {
    && (best.None? <==> forall j | 0 <= j < |rules| :: !Applies(rules[j], at, off))
    && (best.Some? ==>
      && best.value < |rules| && Applies(rules[best.value], at, off)
      && forall j | 0 <= j < |rules| && Applies(rules[j], at, off) :: AtLeastAsGood(rules[best.value], rules[j]))
  }

  lemma PickIsBest(rules: seq<Rule>, at: Time, off: int)
    ensures IsBest(rules, at, off, Pick(rules, at, off))
  {
    forall j | 0 <= j < |rules| ensures rules[j].Covers(at, off) <==> Applies(rules[j], at, off) {
      CoversIsApplies(rules[j], at, off);
    }
  }

  /** One pass over the rules, keeping the best so far. */
  method PickRule(rules: seq<Rule>, at: Time, off: int) returns (best: Option<nat>)
    ensures IsBest(rules, at, off, best)
    ensures best.None? ==> Uncovered(rules, at, off)
    ensures best.Some? ==> Wins(rules, at, off, best.value)
    ensures best == Pick(rules, at, off)
  {
    best := None;
    for i := 0 to |rules|
      invariant best == Pick(rules[..i], at, off)
    {
      assert rules[..i + 1][..i] == rules[..i];
      if rules[i].Covers(at, off) && (best.None? || Beats(rules[i], rules[best.value])) {
        best := Some(i);
      }
    }
    assert rules[..|rules|] == rules;
    PickIsBest(rules, at, off);
  }

  lemma WinnerIsUnique(rules: seq<Rule>, at: Time, off: int, i: nat, j: nat)
    requires Wins(rules, at, off, i) && Wins(rules, at, off, j)
    ensures i == j
  {
  }

  const BASE_RATE := "Base rate"

  function ResolvePrice(base: int, rules: seq<Rule>, slot: Slot, off: int): Price {
    match Pick(rules, slot.start, off)
    case None => Price(base, base * slot.Hours(), false, None, BASE_RATE)
    case Some(k) =>
      var r := rules[k];
      Price(r.price, r.price * slot.Hours(), r.isPeak, Some(r.id), if r.ruleLabel != "" then r.ruleLabel else BASE_RATE)
  }

  /** How many hours are billed: as many as begin. */
  predicate BilledHours(slot: Slot, h: int) {
    (h - 1) * HOUR < slot.end - slot.start <= h * HOUR
  }

  lemma HoursAreBilled(slot: Slot, h: int)
    ensures slot.Hours() == h <==> BilledHours(slot, h)
  {
    var d := slot.end - slot.start;
    assert d == (d / HOUR) * HOUR + d % HOUR;
  }

  /** What a slot costs and is labelled, told from the fields of the rules that apply at its start. */
  lemma PriceByFields(base: int, rules: seq<Rule>, slot: Slot, off: int, h: int)
    requires BilledHours(slot, h)
    ensures var price := ResolvePrice(base, rules, slot, off);
      && price.total == price.perHour * h
      && ((forall j | 0 <= j < |rules| :: !Applies(rules[j], slot.start, off)) ==>
           price.perHour == base && !price.isPeak && price.rule == None)
      && ((exists j | 0 <= j < |rules| :: Applies(rules[j], slot.start, off)) ==>
           exists k: nat | k < |rules| ::
             && IsBest(rules, slot.start, off, Some(k)) && price.perHour == rules[k].price
             && price.isPeak == rules[k].isPeak && price.rule == Some(rules[k].id))
  {
    HoursAreBilled(slot, h);
    PickIsBest(rules, slot.start, off);
    var best := Pick(rules, slot.start, off);
    if best.Some? {
      assert IsBest(rules, slot.start, off, Some(best.value));
    }
  }

  // --------------------------------------------------- the order of the rows

  predicate Permuted(a: seq<Rule>, b: seq<Rule>) { multiset(a) == multiset(b) }

  lemma PermutedMember(a: seq<Rule>, b: seq<Rule>, i: nat) returns (j: nat)
    requires Permuted(a, b) && i < |a|
    ensures j < |b| && b[j] == a[i]
  {
    assert a[i] in multiset(b);
    j :| 0 <= j < |b| && b[j] == a[i];
  }

  /** Whatever order the rows come in, the winner of one order is tied with the winner of another. */
  lemma WinnersTie(a: seq<Rule>, b: seq<Rule>, at: Time, off: int)
    requires Permuted(a, b)
    ensures Pick(a, at, off).Some? <==> Pick(b, at, off).Some?
    ensures Pick(a, at, off).Some? ==> Tied(a[Pick(a, at, off).value], b[Pick(b, at, off).value])
  {
    var x, y := Pick(a, at, off), Pick(b, at, off);
    if x.Some? {
      var j := PermutedMember(a, b, x.value);
    }
    if y.Some? {
      var i := PermutedMember(b, a, y.value);
    }
  }

  /** The price does not depend on the order of the rules. */
  lemma PriceIgnoresOrder(base: int, a: seq<Rule>, b: seq<Rule>, slot: Slot, off: int)
    requires Permuted(a, b)
    ensures ResolvePrice(base, a, slot, off).total == ResolvePrice(base, b, slot, off).total
    ensures ResolvePrice(base, a, slot, off).perHour == ResolvePrice(base, b, slot, off).perHour
  {
    WinnersTie(a, b, slot.start, off);
    if Pick(a, slot.start, off).Some? {
      BeatsIsAStrictWeakOrder(a[Pick(a, slot.start, off).value], b[Pick(b, slot.start, off).value], a[0]);
    }
  }

  predicate Unbeaten(rules: seq<Rule>, at: Time, off: int, k: nat) {
    && k < |rules| && rules[k].Covers(at, off)
    && forall j :: 0 <= j < |rules| && rules[j].Covers(at, off) ==> !Beats(rules[j], rules[k])
  }

  /** Any unbeaten rule wins once it is moved to the front. */
  lemma FrontWins(rules: seq<Rule>, at: Time, off: int, k: nat)
    requires Unbeaten(rules, at, off, k)
    ensures var moved := [rules[k]] + rules[..k] + rules[k + 1..];
      Permuted(rules, moved) && Pick(moved, at, off) == Some(0)
  {
    var moved := [rules[k]] + rules[..k] + rules[k + 1..];
    assert rules == rules[..k] + [rules[k]] + rules[k + 1..];
    forall j | 0 <= j < |moved| && moved[j].Covers(at, off) ensures !Beats(moved[j], moved[0]) {
      assert moved[j] in rules;
    }
    assert Wins(moved, at, off, 0);
    WinnerIsUnique(moved, at, off, 0, Pick(moved, at, off).value);
  }

  ghost predicate PeakIgnoresOrder(base: int, rules: seq<Rule>, slot: Slot, off: int) {
    forall b :: Permuted(rules, b) ==>
      ResolvePrice(base, b, slot, off).isPeak == ResolvePrice(base, rules, slot, off).isPeak
  }

  ghost predicate UnbeatenAgree(rules: seq<Rule>, at: Time, off: int) {
    forall i: nat, j: nat :: Unbeaten(rules, at, off, i) && Unbeaten(rules, at, off, j) ==>
      rules[i].isPeak == rules[j].isPeak
  }

  /** The peak flag, unlike the price, is independent of row order exactly when the unbeaten rules agree on it. */
  lemma PeakIgnoresOrderIff(base: int, rules: seq<Rule>, slot: Slot, off: int)
    ensures PeakIgnoresOrder(base, rules, slot, off) <==> UnbeatenAgree(rules, slot.start, off)
  {
    var at := slot.start;
    if UnbeatenAgree(rules, at, off) {
      forall b | Permuted(rules, b)
        ensures ResolvePrice(base, b, slot, off).isPeak == ResolvePrice(base, rules, slot, off).isPeak
      {
        WinnersTie(rules, b, at, off);
        if Pick(b, at, off).Some? {
          var i := PermutedMember(b, rules, Pick(b, at, off).value);
          assert Unbeaten(rules, at, off, Pick(rules, at, off).value);
          forall j | 0 <= j < |rules| && rules[j].Covers(at, off) ensures !Beats(rules[j], rules[i]) {
            var k := PermutedMember(rules, b, j);
          }
          assert Unbeaten(rules, at, off, i);
        }
      }
    } else {
      var i: nat, j: nat :| Unbeaten(rules, at, off, i) && Unbeaten(rules, at, off, j) &&
        rules[i].isPeak != rules[j].isPeak;
      FrontWins(rules, at, off, i);
      FrontWins(rules, at, off, j);
    }
  }
}
