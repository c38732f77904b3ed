/**
 ORDER BY over a finite set: the one strictly increasing sequence of its elements.
 Every query of the store that orders its rows is an instance of `Arrange`.
 */
module Ordering {

  type Less<!T> = (T, T) -> bool

  ghost predicate StrictTotal<T(!new)>(less: Less<T>, s: set<T>) {
    && (forall a | a in s :: !less(a, a))
    && (forall a, b | a in s && b in s :: a == b || less(a, b) || less(b, a))
    && (forall a, b, c | a in s && b in s && c in s :: less(a, b) && less(b, c) ==> less(a, c))
  }

  ghost predicate Increasing<T(!new)>(less: Less<T>, q: seq<T>) {
    forall i, j | 0 <= i < j < |q| :: less(q[i], q[j])
  }

  function Elements<T>(q: seq<T>): set<T> {
    set x | x in q
  }

  lemma {:induction false} LeastExists<T(!new)>(less: Less<T>, s: set<T>)
    requires StrictTotal(less, s) && s != {}
    ensures exists m :: m in s && forall x | x in s :: x == m || less(m, x)
    decreases |s|
  {
    var a :| a in s;
    var rest := s - {a};
    if rest == {} {
      assert s == {a};
    } else {
      LeastExists(less, rest);
      var m :| m in rest && forall x | x in rest :: x == m || less(m, x);
      var least := if less(a, m) then a else m;
      assert forall x | x in s :: x == least || less(least, x);
    }
  }

  /** The elements of `s`, least first. */
  function Arrange<T(!new, ==)>(less: Less<T>, s: set<T>): (q: seq<T>)
    requires StrictTotal(less, s)
    ensures |q| == |s|
    ensures Elements(q) == s
    ensures Increasing(less, q)
    decreases |s|
  {
    if s == {} then []
    else
      LeastExists(less, s);
      var m :| m in s && forall x | x in s :: x == m || less(m, x);
      var rest := Arrange(less, s - {m});
      AppendIncreasing(less, [m], rest);
      assert Elements([m]) == {m};
      [m] + rest
  }

  lemma AppendIncreasing<T(!new)>(less: Less<T>, p: seq<T>, q: seq<T>)
    requires Increasing(less, p) && Increasing(less, q)
    requires forall a, b | a in Elements(p) && b in Elements(q) :: less(a, b)
    ensures Elements(p + q) == Elements(p) + Elements(q)
    ensures Increasing(less, p + q)
  {
    assert forall x :: x in p + q <==> x in p || x in q;
    forall i, j | 0 <= i < j < |p + q|
      ensures less((p + q)[i], (p + q)[j])
    {
      if i < |p| <= j {
        assert p[i] in Elements(p) && q[j - |p|] in Elements(q);
      }
    }
  }

  /** An increasing sequence is determined by its elements. */
  lemma {:induction false} IncreasingUnique<T(!new)>(less: Less<T>, p: seq<T>, q: seq<T>)
    requires Elements(p) == Elements(q)
    requires StrictTotal(less, Elements(p))
    requires Increasing(less, p) && Increasing(less, q)
    ensures p == q
    decreases |p|
  {
    if q != [] {
      assert q[0] in Elements(q);
    }
    if p == [] {
    } else {
      assert p[0] in Elements(p) && p[0] in q;
      assert q != [] && q[0] in Elements(q) && q[0] in p;
      assert p[0] == q[0];
      assert Elements(p[1..]) == Elements(p) - {p[0]} by { TailElements(less, p); }
      assert Elements(q[1..]) == Elements(q) - {q[0]} by { TailElements(less, q); }
      IncreasingUnique(less, p[1..], q[1..]);
      assert p == [p[0]] + p[1..] && q == [q[0]] + q[1..];
    }
  }

  lemma TailElements<T(!new)>(less: Less<T>, p: seq<T>)
    requires p != [] && Increasing(less, p)
    requires StrictTotal(less, Elements(p))
    ensures Elements(p[1..]) == Elements(p) - {p[0]}
  {
    assert p == [p[0]] + p[1..];
    assert p[0] in Elements(p);
    forall x | x in p[1..]
      ensures x != p[0]
    {
      var i :| 1 <= i < |p| && p[i] == x;
      assert less(p[0], p[i]);
    }
  }

  /** Arranging a set that splits into an earlier and a later part. */
  lemma ArrangeSplit<T(!new)>(less: Less<T>, early: set<T>, late: set<T>)
    requires StrictTotal(less, early + late)
    requires forall a, b | a in early && b in late :: less(a, b)
    ensures StrictTotal(less, early) && StrictTotal(less, late)
    ensures Arrange(less, early + late) == Arrange(less, early) + Arrange(less, late)
  {
    var p := Arrange(less, early);
    var q := Arrange(less, late);
    hide *;
    AppendIncreasing(less, p, q);
    IncreasingUnique(less, Arrange(less, early + late), p + q);
  }

  /** ORDER BY ... LIMIT n. */
  function First<T(!new, ==)>(less: Less<T>, s: set<T>, n: nat): (q: seq<T>)
    requires StrictTotal(less, s)
    ensures Increasing(less, q)
    ensures Elements(q) <= s
    ensures |q| == if n < |s| then n else |s|
    ensures |Elements(q)| == |q|
    ensures forall a, b | a in Elements(q) && b in s - Elements(q) :: less(a, b)
  {
    var all := Arrange(less, s);
    var q := if n < |all| then all[..n] else all;
    assert forall x | x in q :: x in all && x in Elements(all);
    CountIncreasing(less, q);
    assert forall a, b | a in Elements(q) && b in s - Elements(q) :: less(a, b) by {
      forall a, b | a in Elements(q) && b in s - Elements(q)
        ensures less(a, b)
      {
        var i :| 0 <= i < |q| && q[i] == a;
        assert b in Elements(all);
        var j :| 0 <= j < |all| && all[j] == b;
        assert forall x | x in q :: x != b;
        assert less(all[i], all[j]);
      }
    }
    q
  }

  lemma {:induction false} CountIncreasing<T(!new)>(less: Less<T>, q: seq<T>)
    requires Increasing(less, q)
    requires StrictTotal(less, Elements(q))
    ensures |Elements(q)| == |q|
    decreases |q|
  {
    if q == [] {
      assert Elements(q) == {};
    } else {
      TailElements(less, q);
      assert forall x | x in Elements(q[1..]) :: x in Elements(q);
      CountIncreasing(less, q[1..]);
      assert q[0] in Elements(q);
    }
  }

  /** What LIMIT leaves out is arranged after what it took. */
  lemma FirstThenRest<T(!new)>(less: Less<T>, s: set<T>, n: nat)
    requires StrictTotal(less, s)
    ensures var q := First(less, s, n);
            && Arrange(less, s) == q + Arrange(less, s - Elements(q))
            && Arrange(less, Elements(q)) == q
  {
    var q := First(less, s, n);
    var early := Elements(q);
    assert early + (s - early) == s;
    ArrangeSplit(less, early, s - early);
    IncreasingUnique(less, Arrange(less, early), q);
  }
}
