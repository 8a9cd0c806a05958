/** Sums over the rows of a finite table, independent of the order of the rows. */
module Sums {

  /** The sum of the values of a map. */
  ghost function Sum(m: map<string, nat>): nat
  {
    if m.Keys == {} then 0
    else var k :| k in m.Keys; m[k] + Sum(m - {k})
  }

  lemma {:induction false} SumWithout(m: map<string, nat>, k: string)
    requires k in m
    ensures Sum(m) == m[k] + Sum(m - {k})
    decreases m.Keys
  {
    var j :| j in m.Keys && Sum(m) == m[j] + Sum(m - {j});
    if j != k {
      SumWithout(m - {j}, k);
      SumWithout(m - {k}, j);
      assert m - {j} - {k} == m - {k} - {j};
    }
  }

  lemma SumWith(m: map<string, nat>, k: string, v: nat)
    requires k !in m
    ensures Sum(m[k := v]) == Sum(m) + v
  {
    SumWithout(m[k := v], k);
    assert m[k := v] - {k} == m;
  }

  lemma SumReplaced(m: map<string, nat>, k: string, v: nat)
    requires k in m
    ensures Sum(m[k := v]) + m[k] == Sum(m) + v
  {
    SumWithout(m[k := v], k);
    SumWithout(m, k);
    assert m[k := v] - {k} == m - {k};
  }

  lemma {:induction false} SumUnion(a: map<string, nat>, b: map<string, nat>)
    requires a.Keys !! b.Keys
    ensures Sum(a + b) == Sum(a) + Sum(b)
    decreases a.Keys
  {
    if a.Keys == {} {
      assert a + b == b;
    } else {
      var k :| k in a.Keys;
      SumWithout(a, k);
      SumWithout(a + b, k);
      assert (a + b) - {k} == (a - {k}) + b;
      SumUnion(a - {k}, b);
    }
  }

  lemma {:induction false} CardinalityBound<T>(part: set<T>, whole: set<T>)
    requires part <= whole
    ensures |part| <= |whole|
    decreases part
  {
    if part != {} {
      var x :| x in part;
      CardinalityBound(part - {x}, whole - {x});
    }
  }
}
