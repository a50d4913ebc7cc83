// Verified money on a booking adds up: it is the price, if the booking is paid, plus what is flagged to go back,
// and over a run it is never lost.

module Money {
  import opened Domain
  import opened Transactions
  import opened Invariant
  import opened Protocol
  import opened Guarantees

  /** The sum of `f` over the payments with these ids. */
  ghost function Total(ps: map<Id, Payment>, ids: set<Id>, f: Payment -> int): int
    requires ids <= ps.Keys
  {
    if ids == {} then 0
    else
      var i :| i in ids;
      f(ps[i]) + Total(ps, ids - {i}, f)
  }

  ghost function OnBooking(bid: Id, counts: Payment -> bool): Payment -> int {
    (p: Payment) => if p.booking == bid && counts(p) then p.amount else 0
  }

  ghost function VerifiedMoney(ps: map<Id, Payment>, bid: Id): int {
    Total(ps, ps.Keys, OnBooking(bid, (p: Payment) => p.status == Verified))
  }

  ghost function FlaggedMoney(ps: map<Id, Payment>, bid: Id): int {
    Total(ps, ps.Keys, OnBooking(bid, (p: Payment) => Flagged(p)))
  }

  ghost function KeptMoney(ps: map<Id, Payment>, bid: Id): int {
    Total(ps, ps.Keys, OnBooking(bid, (p: Payment) => Kept(p)))
  }

  lemma {:induction false} TotalTakes(ps: map<Id, Payment>, ids: set<Id>, f: Payment -> int, k: Id)
    requires ids <= ps.Keys && k in ids
    ensures Total(ps, ids, f) == f(ps[k]) + Total(ps, ids - {k}, f)
    decreases |ids|
  {
    var i :| i in ids && Total(ps, ids, f) == f(ps[i]) + Total(ps, ids - {i}, f);
    if i != k {
      TotalTakes(ps, ids - {i}, f, k);
      TotalTakes(ps, ids - {k}, f, i);
      assert ids - {i} - {k} == ids - {k} - {i};
    }
  }

  lemma {:induction false} TotalAdds(ps: map<Id, Payment>, ids: set<Id>, f: Payment -> int, g: Payment -> int,
      h: Payment -> int)
    requires ids <= ps.Keys && forall i :: i in ids ==> f(ps[i]) == g(ps[i]) + h(ps[i])
    ensures Total(ps, ids, f) == Total(ps, ids, g) + Total(ps, ids, h)
    decreases |ids|
  {
    if ids != {} {
      var i :| i in ids;
      TotalTakes(ps, ids, f, i);
      TotalTakes(ps, ids, g, i);
      TotalTakes(ps, ids, h, i);
      TotalAdds(ps, ids - {i}, f, g, h);
    }
  }

  lemma {:induction false} TotalGrows(a: map<Id, Payment>, b: map<Id, Payment>, small: set<Id>, large: set<Id>,
      f: Payment -> int)
    requires small <= a.Keys && large <= b.Keys && small <= large
    requires forall i :: i in small ==> f(a[i]) <= f(b[i])
    requires forall i :: i in large ==> 0 <= f(b[i])
    ensures Total(a, small, f) <= Total(b, large, f)
    decreases |large|
  {
    if large != {} {
      var i :| i in large;
      TotalTakes(b, large, f, i);
      if i in small {
        TotalTakes(a, small, f, i);
        TotalGrows(a, b, small - {i}, large - {i}, f);
      } else {
        TotalGrows(a, b, small, large - {i}, f);
      }
    } else {
      assert small == {};
    }
  }

  lemma {:induction false} TotalOfNothing(ps: map<Id, Payment>, ids: set<Id>, f: Payment -> int)
    requires ids <= ps.Keys && forall i :: i in ids ==> f(ps[i]) == 0
    ensures Total(ps, ids, f) == 0
    decreases |ids|
  {
    if ids != {} {
      var i :| i in ids && Total(ps, ids, f) == f(ps[i]) + Total(ps, ids - {i}, f);
      TotalOfNothing(ps, ids - {i}, f);
    }
  }

  lemma KeptIsThePrice(db: DB, bid: Id)
    requires Inv(db) && bid in db.bookings
    ensures KeptMoney(db.payments, bid) == if HasKept(db.payments, bid) then db.bookings[bid].price else 0
  {
    var f := OnBooking(bid, (p: Payment) => Kept(p));
    if HasKept(db.payments, bid) {
      var k :| k in db.payments && db.payments[k].booking == bid && Kept(db.payments[k]);
      assert PaymentRow(db.bookings, db.payments[k]) && Claim(db.payments[k]);
      TotalTakes(db.payments, db.payments.Keys, f, k);
      TotalOfNothing(db.payments, db.payments.Keys - {k}, f);
    } else {
      TotalOfNothing(db.payments, db.payments.Keys, f);
    }
  }

  lemma VerifiedIsKeptOrFlagged(ps: map<Id, Payment>, bid: Id)
    ensures VerifiedMoney(ps, bid) == KeptMoney(ps, bid) + FlaggedMoney(ps, bid)
  {
    TotalAdds(ps, ps.Keys, OnBooking(bid, (p: Payment) => p.status == Verified),
      OnBooking(bid, (p: Payment) => Kept(p)), OnBooking(bid, (p: Payment) => Flagged(p)));
  }

  /** In every reachable state verified money is the price, if paid, plus what is flagged to be returned. */
  lemma MoneyAddsUp(s: Sys, steps: seq<Step>, bid: Id)
    requires Initial(s) && bid in Run(s, steps).db.bookings
    ensures var db := Run(s, steps).db;
      VerifiedMoney(db.payments, bid)
        == (if HasKept(db.payments, bid) then db.bookings[bid].price else 0) + FlaggedMoney(db.payments, bid)
  {
    InitialInv(s);
    RunKeeps(s, steps);
    KeptIsThePrice(Run(s, steps).db, bid);
    VerifiedIsKeptOrFlagged(Run(s, steps).db.payments, bid);
  }

  /** Between any two points of a run the verified money on a booking does not shrink. */
  lemma MoneyIsNeverLost(s: Sys, steps: seq<Step>, i: nat, j: nat, bid: Id)
    requires Initial(s) && i <= j <= |steps|
    ensures VerifiedMoney(Run(s, steps[..i]).db.payments, bid) <= VerifiedMoney(Run(s, steps[..j]).db.payments, bid)
  {
    RowsEvolve(s, steps, i, j);
    var a, b := Run(s, steps[..i]).db, Run(s, steps[..j]).db;
    var f := OnBooking(bid, (p: Payment) => p.status == Verified);
    forall k | k in a.payments ensures k in b.payments && f(a.payments[k]) <= f(b.payments[k]) {
      assert PaymentEvolves(a.payments[k], b.payments[k]);
      assert PaymentRow(b.bookings, b.payments[k]);
    }
    forall k | k in b.payments ensures 0 <= f(b.payments[k]) {
      assert PaymentRow(b.bookings, b.payments[k]);
    }
    TotalGrows(a.payments, b.payments, a.payments.Keys, b.payments.Keys, f);
  }

  /** A flagged payment is always explained: the booking is cancelled, or another payment was kept for it. */
  lemma FlagsAreExplained(s: Sys, steps: seq<Step>, pid: Id)
    requires Initial(s)
    requires var db := Run(s, steps).db; pid in db.payments && Flagged(db.payments[pid])
    ensures var db := Run(s, steps).db; var bid := db.payments[pid].booking;
      && bid in db.bookings
      && (db.bookings[bid].status == Cancelled || KeptByAnother(db.payments, bid, pid))
  {
    InitialInv(s);
    RunKeeps(s, steps);
    var db := Run(s, steps).db;
    assert Explained(db, db.payments[pid]);
    if HasKept(db.payments, db.payments[pid].booking) {
      var k :| k in db.payments && db.payments[k].booking == db.payments[pid].booking && Kept(db.payments[k]);
      assert k != pid;
    }
  }
}
