/** The order Python's `sorted()` puts `str` values in: lexicographic by code
    point, a proper prefix coming first. `Sorted(s)` is `sorted(list(s))` for a
    set of strings. */
module StringOrder {

  /** `a <= b` on Python strings. */
  predicate Le(a: string, b: string)
  {
    |a| == 0 || (|b| > 0 && (a[0] < b[0] || (a[0] == b[0] && Le(a[1..], b[1..]))))
  }

  predicate Lt(a: string, b: string)
  {
    Le(a, b) && a != b
  }

  /** Strictly increasing: sorted and free of duplicates. */
  predicate StrictlySorted(r: seq<string>)
  {
    forall i, j :: 0 <= i < j < |r| ==> Lt(r[i], r[j])
  }

  lemma {:induction false} LeReflexive(a: string)
    ensures Le(a, a)
  {
    if |a| > 0 {
      LeReflexive(a[1..]);
    }
  }

  lemma {:induction false} LeAntisymmetric(a: string, b: string)
    requires Le(a, b) && Le(b, a)
    ensures a == b
  {
    if |a| > 0 && |b| > 0 {
      assert a[0] == b[0];
      LeAntisymmetric(a[1..], b[1..]);
      assert a == [a[0]] + a[1..];
      assert b == [b[0]] + b[1..];
    }
  }

  lemma {:induction false} LeTransitive(a: string, b: string, c: string)
    requires Le(a, b) && Le(b, c)
    ensures Le(a, c)
  {
    if |a| > 0 && |b| > 0 && |c| > 0 && a[0] == b[0] == c[0] {
      LeTransitive(a[1..], b[1..], c[1..]);
    }
  }

  lemma {:induction false} LeTotal(a: string, b: string)
    ensures Le(a, b) || Le(b, a)
  {
    if |a| > 0 && |b| > 0 && a[0] == b[0] {
      LeTotal(a[1..], b[1..]);
    }
  }

  lemma LeAntisymmetricAll()
    ensures forall a, b :: Le(a, b) && Le(b, a) ==> a == b
  {
    forall a, b | Le(a, b) && Le(b, a)
      ensures a == b
    {
      LeAntisymmetric(a, b);
    }
  }

  predicate IsMin(m: string, s: set<string>)
  {
    m in s && forall y :: y in s ==> Le(m, y)
  }

  /** Every non-empty finite set of strings has a least element. */
  lemma {:induction false} MinExists(s: set<string>)
    requires s != {}
    ensures exists m :: IsMin(m, s)
    decreases |s|
  {
    var x :| x in s;
    if s != {x} {
      var rest := s - {x};
      MinExists(rest);
      var m :| IsMin(m, rest);
      LeTotal(x, m);
      if Le(x, m) {
        forall y | y in s
          ensures Le(x, y)
        {
          if y == x { LeReflexive(x); } else { LeTransitive(x, m, y); }
        }
        assert IsMin(x, s);
      } else {
        LeReflexive(x);
        assert IsMin(m, s);
      }
    } else {
      LeReflexive(x);
      assert IsMin(x, s);
    }
  }

  /** The least string of a non-empty set. */
  function Min(s: set<string>): (m: string)
    requires s != {}
    ensures IsMin(m, s)
  {
    MinExists(s);
    LeAntisymmetricAll();
    var m :| IsMin(m, s); m
  }

  /** `sorted(list(s))`: the elements of `s`, each once, in increasing order. */
  function Sorted(s: set<string>): (r: seq<string>)
    ensures |r| == |s|
    ensures forall x :: x in r <==> x in s
    ensures StrictlySorted(r)
    decreases s
  {
    if s == {} then []
    else
      var m := Min(s);
      var rest := Sorted(s - {m});
      assert forall j :: 0 <= j < |rest| ==> Lt(m, rest[j]);
      [m] + rest
  }

  /** A set has exactly one strictly increasing listing, so `Sorted` is
      determined by its contract alone. */
  lemma {:induction false} SortedUnique(r: seq<string>, s: set<string>)
    requires StrictlySorted(r)
    requires forall x :: x in r <==> x in s
    ensures r == Sorted(s)
    decreases |r|
  {
    if r == [] {
      assert s == {};
    } else {
      assert r[0] in s;
      HeadIsMin(r, s);
      TailListsRest(r, s);
      SortedUnique(r[1..], s - {r[0]});
      assert r == [r[0]] + r[1..];
    }
  }

  /** The head of a strictly increasing listing is the set's least element. */
  lemma HeadIsMin(r: seq<string>, s: set<string>)
    requires StrictlySorted(r) && r != []
    requires forall x :: x in r <==> x in s
    ensures r[0] in s
    ensures r[0] == Min(s)
  {
    assert r[0] in s;
    var m := Min(s);
    assert m in r;
    var k :| 0 <= k < |r| && r[k] == m;
    if k != 0 {
      assert Lt(r[0], r[k]);
    } else {
      LeReflexive(r[0]);
    }
    LeAntisymmetric(r[0], m);
  }

  /** The tail of a strictly increasing listing lists the rest of the set. */
  lemma TailListsRest(r: seq<string>, s: set<string>)
    requires StrictlySorted(r) && r != []
    requires forall x :: x in r <==> x in s
    ensures StrictlySorted(r[1..])
    ensures forall x :: x in r[1..] <==> x in s - {r[0]}
  {
    var tail := r[1..];
    forall x
      ensures x in tail <==> x in s - {r[0]}
    {
      if x in tail {
        var j :| 0 <= j < |tail| && tail[j] == x;
        assert Lt(r[0], r[j + 1]);
      }
      if x in s - {r[0]} {
        assert x in r;
        var j :| 0 <= j < |r| && r[j] == x;
        assert tail[j - 1] == x;
      }
    }
  }
}
