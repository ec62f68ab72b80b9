/** Sums over finite maps and counting in bounded ranges. */
module FiniteSums {

  lemma EmptyOrInhabited(s: set<int>)
    ensures s == {} || exists x :: x in s
  {
    if forall x :: x !in s { assert s <= {}; }
  }

  lemma {:induction false} MinimumExists(s: set<int>)
    requires s != {}
    ensures exists k :: k in s && forall j :: j in s ==> k <= j
    decreases |s|
  {
    EmptyOrInhabited(s);
    var x :| x in s;
    var rest := s - {x};
    if rest == {} {
      assert forall j :: j in s ==> j == x || j in rest;
    } else {
      MinimumExists(rest);
      var y :| y in rest && forall j :: j in rest ==> y <= j;
      var k := if x < y then x else y;
      forall j | j in s ensures k <= j { assert j == x || j in rest; }
    }
  }

  function Least(s: set<int>): (k: int)
    requires s != {}
    ensures k in s && forall j :: j in s ==> k <= j
  {
    MinimumExists(s);
    var k :| k in s && forall j :: j in s ==> k <= j;
    k
  }

  /** The sum of all values. */
  function Sum(m: map<int, nat>): nat {
    if m.Keys == {} then 0
    else
      var k := Least(m.Keys);
      m[k] + Sum(m - {k})
  }

  lemma {:induction false} SumRemove(m: map<int, nat>, k: int)
    requires k in m
    ensures Sum(m) == m[k] + Sum(m - {k})
    decreases |m|
  {
    var l := Least(m.Keys);
    if k != l {
      SumRemove(m - {l}, k);
      SumRemove(m - {k}, l);
      assert m - {l} - {k} == m - {k} - {l};
    }
  }

  lemma SumUpdate(m: map<int, nat>, k: int, v: nat)
    ensures Sum(m[k := v]) == Sum(m) - (if k in m then m[k] else 0) + v
  {
    SumRemove(m[k := v], k);
    assert m[k := v] - {k} == m - {k};
    if k in m {
      SumRemove(m, k);
    } else {
      assert m - {k} == m;
    }
  }

  function Range(n: nat): (s: set<int>)
    ensures forall i :: i in s <==> 1 <= i <= n
    ensures |s| == n
  {
    if n == 0 then {} else Range(n - 1) + {n}
  }

  /** A set of `n` ordinals within 1..n is all of 1..n. */
  lemma Pigeonhole(s: set<int>, n: nat)
    requires |s| == n && forall i :: i in s ==> 1 <= i <= n
    ensures s == Range(n)
  {
    SubsetOfSameSize(s, Range(n));
  }

  lemma {:induction false} SubsetOfSameSize(a: set<int>, b: set<int>)
    requires a <= b && |a| == |b|
    ensures a == b
    decreases |a|
  {
    EmptyOrInhabited(a);
    if a != {} {
      var x :| x in a;
      SubsetOfSameSize(a - {x}, b - {x});
      assert a == (a - {x}) + {x} && b == (b - {x}) + {x};
    }
  }
}
