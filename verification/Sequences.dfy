/** Facts about finite sequences used as queues. */
module Sequences {

  ghost predicate Distinct<T>(q: seq<T>) {
    forall i, j :: 0 <= i < j < |q| ==> q[i] != q[j]
  }

  ghost function Elements<T>(q: seq<T>): set<T> {
    set x | x in q
  }

  lemma InElements<T>(q: seq<T>, x: T)
    ensures x in Elements(q) <==> x in q
  {
  }

  function Without<T(==,!new)>(q: seq<T>, x: T): (r: seq<T>)
    ensures forall y :: y in r <==> y in q && y != x
  {
    if q == [] then []
    else if q[0] == x then Without(q[1..], x)
    else [q[0]] + Without(q[1..], x)
  }

  lemma {:induction false} WithoutDistinct<T(!new)>(q: seq<T>, x: T)
    requires Distinct(q)
    ensures Distinct(Without(q, x))
  {
    if q != [] {
      WithoutDistinct(q[1..], x);
      assert q[0] !in q[1..];
    }
  }

  lemma AppendDistinct<T>(q: seq<T>, x: T)
    requires Distinct(q) && x !in q
    ensures Distinct(q + [x])
  {
  }

  lemma {:induction false} ElementsSize<T>(q: seq<T>)
    requires Distinct(q)
    ensures |Elements(q)| == |q|
  {
    if q == [] {
    } else {
      ElementsSize(q[1..]);
      assert Elements(q) == {q[0]} + Elements(q[1..]);
    }
  }

  lemma RestElements<T>(q: seq<T>)
    requires Distinct(q) && q != []
    ensures Distinct(q[1..]) && Elements(q[1..]) == Elements(q) - {q[0]}
    ensures |Elements(q[1..])| < |Elements(q)|
  {
    assert q == [q[0]] + q[1..];
    assert q[0] !in q[1..];
    ElementsSize(q);
    ElementsSize(q[1..]);
  }
}
