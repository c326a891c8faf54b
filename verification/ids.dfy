/** Ascending lists of ids: the `ORDER BY t.id` of the store. */
module Ids {
  predicate Ascending(q: seq<nat>) {
    forall i, j :: 0 <= i < j < |q| ==> q[i] < q[j]
  }

  function Elements(q: seq<nat>): set<nat> {
    set id | id in q
  }

  lemma {:induction false} FindMin(s: set<nat>) returns (m: nat)
    requires s != {}
    ensures m in s && forall x :: x in s ==> m <= x
  {
    var first :| first in s;
    var rest := s - {first};
    if rest == {} {
      m := first;
      assert s == {first};
    } else {
      var r := FindMin(rest);
      m := if r < first then r else first;
      forall x | x in s ensures m <= x {
        assert x == first || x in rest;
      }
    }
  }

  lemma MinExists(s: set<nat>)
    requires s != {}
    ensures exists m :: m in s && forall x :: x in s ==> m <= x
  {
    var m := FindMin(s);
  }

  function Min(s: set<nat>): (m: nat)
    requires s != {}
    ensures m in s && forall x :: x in s ==> m <= x
  {
    MinExists(s);
    var m :| m in s && forall x :: x in s ==> m <= x;
    m
  }

  /** The elements of s in ascending order. */
  function Sorted(s: set<nat>): (q: seq<nat>)
    ensures Ascending(q)
    ensures forall id :: id in q <==> id in s
  {
    if s == {} then [] else [Min(s)] + Sorted(s - {Min(s)})
  }

  /** An ascending list is determined by its elements. */
  lemma {:induction false} AscendingUnique(a: seq<nat>, b: seq<nat>)
    requires Ascending(a) && Ascending(b)
    requires forall id :: id in a <==> id in b
    ensures a == b
  {
    assert |b| > 0 ==> b[0] in b;
    if a != [] {
      assert a[0] in b;
      assert b[0] in a;
      assert a[0] == b[0];
      forall id ensures id in a[1..] <==> id in b[1..] {
        assert id in a[1..] <==> id in a && id != a[0];
        assert id in b[1..] <==> id in b && id != b[0];
      }
      AscendingUnique(a[1..], b[1..]);
      assert a == [a[0]] + a[1..] && b == [b[0]] + b[1..];
    }
  }

  lemma AscendingLength(q: seq<nat>)
    requires Ascending(q)
    ensures |Elements(q)| == |q|
    decreases |q|
  {
    if q != [] {
      AscendingLength(q[1..]);
      assert Elements(q) == {q[0]} + Elements(q[1..]);
    }
  }

  function Take<T>(q: seq<T>, n: nat): seq<T> {
    if n < |q| then q[..n] else q
  }

  /** Where an element of an ascending list sits: below it are exactly the smaller elements. */
  lemma RankOf(q: seq<nat>, k: nat)
    requires Ascending(q) && k < |q|
    ensures (set id | id in q && id < q[k]) == Elements(q[..k])
    ensures |set id | id in q && id < q[k]| == k
  {
    AscendingLength(q[..k]);
    forall id | id in q && id < q[k] ensures id in q[..k] {
      var i :| 0 <= i < |q| && q[i] == id;
      assert q[..k][i] == id;
    }
    forall id | id in q[..k] ensures id in q && id < q[k] {
      var i :| 0 <= i < k && q[..k][i] == id;
    }
  }
}
