/**
 * Calendar periods (year, month), the key of every monthly series of the
 * application, their chronological order, and the walk over a series' keys
 * in ascending (year, month) order that the views obtain with
 * `order_by('ano', 'mes')` and `sorted(..., key=(ano, mes))`.
 */
module Periods {
  import opened Calendar

  datatype Period = Period(year: int, month: Month)

  /** A daily rate accrued over the whole month `p`: `rate * monthrange(year, month)[1]`. */
  function MonthTotal(rate: real, p: Period): real {
    rate * (DaysInMonth(p.year, p.month) as real)
  }

  /** A non-negative daily rate accrues between 28 and 31 days' worth; the month total is zero exactly when the rate is. */
  lemma MonthTotalBounds(rate: real, p: Period)
    ensures rate >= 0.0 ==> 28.0 * rate <= MonthTotal(rate, p) <= 31.0 * rate
    ensures rate == 0.0 <==> MonthTotal(rate, p) == 0.0
  {
    var d := DaysInMonth(p.year, p.month) as real;
    assert 28.0 <= d <= 31.0;
  }

  /** Strict chronological order on periods: by year, then by month. */
  predicate Before(p: Period, q: Period) {
    p.year < q.year || (p.year == q.year && p.month < q.month)
  }

  /** A sequence of periods in strictly ascending (year, month) order. */
  predicate Ascending(ps: seq<Period>) {
    forall i, j :: 0 <= i < j < |ps| ==> Before(ps[i], ps[j])
  }

  /** `ps` lists exactly the periods of `s`. */
  ghost predicate Enumerates(ps: seq<Period>, s: set<Period>) {
    forall p :: p in ps <==> p in s
  }

  lemma BeforeIsTotal(p: Period, q: Period)
    ensures p == q || Before(p, q) || Before(q, p)
    ensures !(Before(p, q) && Before(q, p))
  {
  }

  /** The earliest period of a non-empty set of periods. */
  method Earliest(s: set<Period>) returns (p: Period)
    requires s != {}
    ensures p in s
    ensures forall q :: q in s && q != p ==> Before(p, q)
  {
    p :| p in s;
    var rest := s - {p};
    while rest != {}
      invariant rest <= s && p in s && p !in rest
      invariant forall q :: q in s && q !in rest && q != p ==> Before(p, q)
      decreases |rest|
    {
      var q :| q in rest;
      BeforeIsTotal(p, q);
      if Before(q, p) {
        p := q;
      }
      rest := rest - {q};
    }
  }

  /** The periods of `s` in ascending (year, month) order, taking the earliest remaining one each time. */
  method AscendingPeriods(s: set<Period>) returns (ps: seq<Period>)
    ensures Ascending(ps)
    ensures Enumerates(ps, s)
    ensures |ps| == |s|
  {
    ps := [];
    var rest := s;
    while rest != {}
      invariant rest <= s
      invariant Ascending(ps)
      invariant forall p :: p in ps <==> p in s && p !in rest
      invariant forall i, q :: 0 <= i < |ps| && q in rest ==> Before(ps[i], q)
      invariant |ps| + |rest| == |s|
      decreases |rest|
    {
      var p := Earliest(rest);
      ps := ps + [p];
      rest := rest - {p};
    }
  }

  /** The last period of an ascending enumeration is the latest period of the set. */
  lemma LastIsLatest(ps: seq<Period>, s: set<Period>)
    requires Ascending(ps) && Enumerates(ps, s) && ps != []
    ensures forall q :: q in s && q != ps[|ps| - 1] ==> Before(q, ps[|ps| - 1])
  {
    forall q | q in s && q != ps[|ps| - 1]
      ensures Before(q, ps[|ps| - 1])
    {
      var i :| 0 <= i < |ps| && ps[i] == q;
    }
  }

  /** In an ascending sequence, the tail holds every element but the head. */
  lemma InTail(a: seq<Period>, p: Period)
    requires Ascending(a) && a != []
    ensures p in a[1..] <==> p in a && p != a[0]
  {
    if p in a[1..] {
      var k :| 1 <= k < |a| && a[k] == p;
      assert Before(a[0], a[k]);
    }
    if p in a && p != a[0] {
      var k :| 0 <= k < |a| && a[k] == p;
      assert a[1..][k - 1] == p;
    }
  }

  /** A set of periods has exactly one ascending enumeration. */
  lemma {:induction false} AscendingUnique(a: seq<Period>, b: seq<Period>)
    requires Ascending(a) && Ascending(b)
    requires forall p :: p in a <==> p in b
    ensures a == b
    decreases |a|
  {
    assert a != [] ==> a[0] in a;
    assert b != [] ==> b[0] in b;
    if a != [] && b != [] {
      var i :| 0 <= i < |b| && b[i] == a[0];
      var j :| 0 <= j < |a| && a[j] == b[0];
      if i != 0 {
        assert Before(b[0], b[i]);
        assert j != 0;
        assert Before(a[0], a[j]);
        BeforeIsTotal(a[0], b[0]);
        assert false;
      }
      forall p
        ensures p in a[1..] <==> p in b[1..]
      {
        InTail(a, p);
        InTail(b, p);
      }
      AscendingUnique(a[1..], b[1..]);
      assert a == [a[0]] + a[1..];
      assert b == [b[0]] + b[1..];
    }
  }
}
