// Prize money: which splits a tournament may have, and what they pay.

module Prizes {
  import opened Domain

  const MAX_PLACES := 8

  datatype SplitError = Empty | TooManyPlaces | Negative | Rising | NotWhole(total: int)

  function Sum(split: seq<int>): int {
    if split == [] then 0 else Sum(split[..|split| - 1]) + split[|split| - 1]
  }

  predicate NonIncreasing(split: seq<int>) {
    forall i, j | 0 <= i < j < |split| :: split[j] <= split[i]
  }

  predicate NonNegative(split: seq<int>) {
    forall i | 0 <= i < |split| :: 0 <= split[i]
  }

  predicate Acceptable(split: seq<int>) {
    1 <= |split| <= MAX_PLACES && NonNegative(split) && NonIncreasing(split) && Sum(split) == 100
  }

  /** The share at this place is the first that breaks a rule, and this is the rule. */
  predicate FirstFault(split: seq<int>, i: nat, e: SplitError) {
    && i < |split| && NonNegative(split[..i]) && NonIncreasing(split[..i])
    && (e == Negative <==> split[i] < 0)
    && (e == Rising <==> split[i] >= 0 && i > 0 && split[i] > split[i - 1])
  }

  /** Accepts exactly the acceptable splits, and names the first fault of any other. */
  method ValidatePrizeSplit(split: seq<int>) returns (e: Option<SplitError>)
    ensures e.None? <==> Acceptable(split)
    ensures e == Some(Empty) <==> split == []
    ensures e == Some(TooManyPlaces) <==> |split| > MAX_PLACES
    ensures e == Some(Negative) || e == Some(Rising) ==> exists i: nat :: FirstFault(split, i, e.value)
    ensures e.Some? && e.value.NotWhole? ==>
      NonNegative(split) && NonIncreasing(split) && e.value.total == Sum(split) != 100
  {
    if |split| == 0 { return Some(Empty); }
    if |split| > MAX_PLACES { return Some(TooManyPlaces); }
    var total := 0;
    for i := 0 to |split|
      invariant NonNegative(split[..i]) && NonIncreasing(split[..i]) && total == Sum(split[..i])
    {
      assert i > 0 ==> split[..i][i - 1] == split[i - 1];
      if split[i] < 0 {
        assert FirstFault(split, i, Negative);
        return Some(Negative);
      }
      if i > 0 && split[i] > split[i - 1] {
        assert FirstFault(split, i, Rising);
        return Some(Rising);
      }
      assert split[..i + 1][..i] == split[..i];
      total := total + split[i];
    }
    assert split[..|split|] == split;
    if total != 100 { return Some(NotWhole(total)); }
    return None;
  }

  /** Division toward zero. */
  function Quo(a: int, b: int): int
    requires b > 0
  {
    if a >= 0 then a / b else -(-a / b)
  }

  /** What a finishing position wins, counted from 1; positions outside the split win nothing. */
  function PrizeFor(pool: int, split: seq<int>, place: int): int {
    if place < 1 || place > |split| then 0 else Quo(pool * split[place - 1], 100)
  }

  /** A place wins its share in whole rupees, rounded down, and a place outside the split nothing. */
  lemma PrizeIsTheShare(pool: int, split: seq<int>, place: int)
    requires pool >= 0 && NonNegative(split)
    ensures 1 <= place <= |split| ==>
      100 * PrizeFor(pool, split, place) <= pool * split[place - 1] < 100 * PrizeFor(pool, split, place) + 100
    ensures !(1 <= place <= |split|) ==> PrizeFor(pool, split, place) == 0
  {
    if 1 <= place <= |split| {
      assert split[place - 1] >= 0;
      NotNegative(pool, split[place - 1]);
    }
  }

  lemma NotNegative(x: int, y: int)
    requires x >= 0 && y >= 0
    ensures x * y >= 0
  {
  }

  /** What the first `n` positions win together. */
  function Paid(pool: int, split: seq<int>, n: nat): int {
    if n == 0 then 0 else Paid(pool, split, n - 1) + PrizeFor(pool, split, n)
  }

  lemma ShareOfMore(pool: int, more: int, less: int)
    requires pool >= 0 && 0 <= less <= more
    ensures 0 <= Quo(pool * less, 100) <= Quo(pool * more, 100)
  {
    assert 0 <= pool * less <= pool * more by {
      assert pool * (more - less) >= 0;
    }
  }

  lemma {:induction false} PaidIsNearTheShares(pool: int, split: seq<int>, n: nat)
    requires pool >= 0 && NonNegative(split) && n <= |split|
    ensures 100 * Paid(pool, split, n) <= pool * Sum(split[..n])
    ensures n > 0 ==> pool * Sum(split[..n]) < 100 * Paid(pool, split, n) + 100 * n
    ensures n == 0 ==> Paid(pool, split, n) == 0
  {
    if n > 0 {
      PaidIsNearTheShares(pool, split, n - 1);
      assert split[..n][..n - 1] == split[..n - 1];
      var sum, share := Sum(split[..n - 1]), split[n - 1];
      assert pool * (sum + share) == pool * sum + pool * share;
      assert pool * share >= 0;
    }
  }

  lemma {:induction false} NothingPastTheSplit(pool: int, split: seq<int>, n: nat)
    requires n >= |split|
    ensures Paid(pool, split, n) == Paid(pool, split, |split|)
    decreases n
  {
    if n > |split| { NothingPastTheSplit(pool, split, n - 1); }
  }

  /** Whatever the pool and the accepted split, no place wins more than one above it, and nobody owes money. */
  lemma BetterPlacesWinMore(pool: int, split: seq<int>, better: int, worse: int)
    requires pool >= 0 && Acceptable(split) && 1 <= better <= worse
    ensures 0 <= PrizeFor(pool, split, worse) <= PrizeFor(pool, split, better)
  {
    if worse <= |split| {
      ShareOfMore(pool, split[better - 1], split[worse - 1]);
    } else if better <= |split| {
      ShareOfMore(pool, split[better - 1], 0);
    }
  }

  /** However many places are paid, the pool covers them; once all are, less than one rupee a place is left over. */
  lemma PoolCoversThePrizes(pool: int, split: seq<int>, n: nat)
    requires pool >= 0 && Acceptable(split)
    ensures Paid(pool, split, n) <= pool
    ensures n >= |split| ==> pool - Paid(pool, split, n) < |split|
  {
    PaidIsNearTheShares(pool, split, |split|);
    assert split[..|split|] == split;
    if n >= |split| {
      NothingPastTheSplit(pool, split, n);
    } else {
      MorePlacesPayMore(pool, split, n, |split|);
    }
  }

  lemma {:induction false} MorePlacesPayMore(pool: int, split: seq<int>, n: nat, m: nat)
    requires pool >= 0 && Acceptable(split) && n <= m
    ensures Paid(pool, split, n) <= Paid(pool, split, m)
    decreases m
  {
    if n < m {
      MorePlacesPayMore(pool, split, n, m - 1);
      BetterPlacesWinMore(pool, split, m, m);
    }
  }
}
