/** Python's ordering of `str` values (code point by code point, a proper
    prefix first) and `sorted()` applied to a set of strings. */
module StringOrder {

  /** `a <= b` on Python strings. */
  predicate LessEq(a: string, b: string)
  {
    |a| == 0 || (|b| > 0 && (a[0] < b[0] || (a[0] == b[0] && LessEq(a[1..], b[1..]))))
  }

  /** `a < b` on Python strings. */
  predicate Less(a: string, b: string)
  {
    LessEq(a, b) && a != b
  }

  lemma {:induction false} LessEqReflexive(a: string)
    ensures LessEq(a, a)
  {
    if |a| > 0 {
      LessEqReflexive(a[1..]);
    }
  }

  lemma {:induction false} LessEqAntisymmetric(a: string, b: string)
    requires LessEq(a, b) && LessEq(b, a)
    ensures a == b
  {
    if |a| > 0 && |b| > 0 {
      LessEqAntisymmetric(a[1..], b[1..]);
      assert a == [a[0]] + a[1..] && b == [b[0]] + b[1..];
    }
  }

  lemma {:induction false} LessEqTransitive(a: string, b: string, c: string)
    requires LessEq(a, b) && LessEq(b, c)
    ensures LessEq(a, c)
  {
    if |a| > 0 && a[0] == b[0] && b[0] == c[0] {
      LessEqTransitive(a[1..], b[1..], c[1..]);
    }
  }

  lemma {:induction false} LessEqTotal(a: string, b: string)
    ensures LessEq(a, b) || LessEq(b, a)
  {
    if |a| > 0 && |b| > 0 && a[0] == b[0] {
      LessEqTotal(a[1..], b[1..]);
    }
  }

  /** `m` is the least element of `s`. */
  predicate IsLeast(m: string, s: set<string>)
  {
    m in s && forall x :: x in s ==> LessEq(m, x)
  }

  /** No two distinct strings are both least in a set. */
  lemma LeastIsUnique(s: set<string>)
    ensures forall m, n :: IsLeast(m, s) && IsLeast(n, s) ==> m == n
  {
    forall m, n | IsLeast(m, s) && IsLeast(n, s)
      ensures m == n
    {
      LessEqAntisymmetric(m, n);
    }
  }

  /** Every non-empty finite set of strings has a least element. */
  lemma {:induction false} LeastExists(s: set<string>) returns (m: string)
    requires s != {}
    ensures IsLeast(m, s)
    decreases |s|
  {
    var y :| y in s;
    var rest := s - {y};
    if rest == {} {
      assert s == {y};
      LessEqReflexive(y);
      m := y;
    } else {
      var k := LeastExists(rest);
      LessEqTotal(y, k);
      if LessEq(y, k) {
        forall x | x in s ensures LessEq(y, x) {
          if x == y { LessEqReflexive(y); } else { LessEqTransitive(y, k, x); }
        }
        m := y;
      } else {
        m := k;
      }
    }
  }

  lemma HasLeast(s: set<string>)
    requires s != {}
    ensures exists m :: IsLeast(m, s)
  {
    var m := LeastExists(s);
  }

  /** The least element of a non-empty set of strings. */
  function Least(s: set<string>): (m: string)
    requires s != {}
    ensures m in s
    ensures forall x :: x in s ==> LessEq(m, x)
  {
    HasLeast(s);
    LeastIsUnique(s);
    var m :| IsLeast(m, s);
    m
  }

  /** Every element is below every later element. */
  predicate StrictlySorted(r: seq<string>)
  {
    forall i, j :: 0 <= i < j < |r| ==> Less(r[i], r[j])
  }

  /** `sorted(s)` for a set of strings: its elements, each once, ascending. */
  function SortedElems(s: set<string>): (r: seq<string>)
    ensures |r| == |s|
    ensures forall x :: x in r <==> x in s
    ensures StrictlySorted(r)
    decreases |s|
  {
    if s == {} then []
    else
      var m := Least(s);
      var tail := SortedElems(s - {m});
      assert forall x :: x in tail ==> Less(m, x);
      [m] + tail
  }

  /** A strictly sorted listing of a set is unique: it is `SortedElems`. */
  lemma {:induction false} SortedElemsUnique(s: set<string>, r: seq<string>)
    requires StrictlySorted(r)
    requires forall x :: x in r <==> x in s
    ensures r == SortedElems(s)
    decreases |r|
  {
    var q := SortedElems(s);
    if r == [] {
      assert s == {};
    } else {
      assert r[0] in r;
      var m := Least(s);
      assert q[0] == m;
      forall x | x in s ensures LessEq(r[0], x) {
        var i :| 0 <= i < |r| && r[i] == x;
        if i == 0 { LessEqReflexive(x); }
      }
      LessEqAntisymmetric(r[0], m);
      forall x ensures x in r[1..] <==> x in s - {m} {
        if x in r[1..] {
          var i :| 1 <= i < |r| && r[i] == x;
          assert Less(r[0], r[i]);
        }
        if x in s - {m} {
          var i :| 0 <= i < |r| && r[i] == x;
          assert i != 0;
          assert x == r[1..][i - 1];
        }
      }
      SortedElemsUnique(s - {m}, r[1..]);
    }
  }
}
