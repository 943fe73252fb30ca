/** Small shared vocabulary: optional values, error outcomes and the total order Python uses on strings. */
module Common {

  datatype Option<+T> = None | Some(value: T)

  /** The exception kinds the modelled code raises. */
  datatype Error = KeyError | ValueError | InvalidTransition

  datatype Result<+T> = Ok(value: T) | Err(error: Error)

  /** Code-point lexicographic order, Python's `<=` on `str`. */
  predicate StrLeq(a: string, b: string)
  {
    |a| == 0 || (|b| > 0 && (a[0] < b[0] || (a[0] == b[0] && StrLeq(a[1..], b[1..]))))
  }

  lemma StrLeqTotal(a: string, b: string)
    ensures StrLeq(a, b) || StrLeq(b, a)
  {}

  lemma {:induction false} StrLeqAntisymmetric(a: string, b: string)
    requires StrLeq(a, b) && StrLeq(b, a)
    ensures a == b
  {
    if |a| > 0 && |b| > 0 {
      StrLeqAntisymmetric(a[1..], b[1..]);
      assert a == [a[0]] + a[1..] && b == [b[0]] + b[1..];
    }
  }

  /** A string comes before its extensions, and otherwise the first difference decides. */
  lemma {:induction false} StrLeqIs(a: string, b: string)
    ensures StrLeq(a, b) <==> a <= b || exists i | 0 <= i < |a| && i < |b| :: a[..i] == b[..i] && a[i] < b[i]
  {
    if |a| > 0 && |b| > 0 && a[0] == b[0] {
      var x, y := a[1..], b[1..];
      StrLeqIs(x, y);
      assert a == [a[0]] + x && b == [b[0]] + y;
      forall i | 0 <= i < |x| && i < |y| ensures x[..i] == y[..i] <==> a[..i + 1] == b[..i + 1] {
        assert a[..i + 1] == [a[0]] + x[..i] && b[..i + 1] == [b[0]] + y[..i];
        assert a[..i + 1][1..] == x[..i] && b[..i + 1][1..] == y[..i];
      }
      if exists i | 0 <= i < |x| && i < |y| :: x[..i] == y[..i] && x[i] < y[i] {
        var i :| 0 <= i < |x| && i < |y| && x[..i] == y[..i] && x[i] < y[i];
        assert a[..i + 1] == b[..i + 1] && a[i + 1] < b[i + 1];
      }
      if exists i | 0 <= i < |a| && i < |b| :: a[..i] == b[..i] && a[i] < b[i] {
        var i :| 0 <= i < |a| && i < |b| && a[..i] == b[..i] && a[i] < b[i];
        assert x[..i - 1] == y[..i - 1] && x[i - 1] < y[i - 1];
      }
    } else if |a| > 0 && |b| > 0 {
      assert a[..0] == b[..0];
      assert forall i | 0 < i < |a| && i < |b| :: a[..i][0] == a[0] && b[..i][0] == b[0];
    }
  }

  lemma StrLeqTransitive(a: string, b: string, c: string)
    requires StrLeq(a, b) && StrLeq(b, c)
    ensures StrLeq(a, c)
  {}

  lemma {:induction false} LeastString(s: set<string>) returns (m: string)
    requires s != {}
    ensures m in s && forall y | y in s :: StrLeq(m, y)
  {
    var x :| x in s;
    if s == {x} {
      StrLeqTotal(x, x);
      m := x;
    } else {
      var rest := s - {x};
      var r := LeastString(rest);
      StrLeqTotal(x, r);
      m := if StrLeq(x, r) then x else r;
      forall y | y in s ensures StrLeq(m, y) {
        if y == x {
          StrLeqTotal(x, x);
        } else {
          assert y in rest;
          if m == x { StrLeqTransitive(x, r, y); }
        }
      }
    }
  }

  /** Python's `min` on a set of strings. */
  function Least(s: set<string>): (m: string)
    requires s != {}
    ensures m in s && forall y | y in s :: StrLeq(m, y)
  {
    assert exists m :: m in s && forall y | y in s :: StrLeq(m, y) by {
      var m := LeastString(s);
    }
    assert forall a, b | StrLeq(a, b) && StrLeq(b, a) :: a == b by {
      forall a, b | StrLeq(a, b) && StrLeq(b, a) ensures a == b { StrLeqAntisymmetric(a, b); }
    }
    var m :| m in s && forall y | y in s :: StrLeq(m, y);
    m
  }

  ghost predicate Ascending(r: seq<string>) { forall i, j | 0 <= i < j < |r| :: StrLeq(r[i], r[j]) && r[i] != r[j] }

  lemma AscendingFrom(m: string, r: seq<string>)
    requires Ascending(r) && forall x | x in r :: StrLeq(m, x) && x != m
    ensures Ascending([m] + r)
  {
    hide StrLeq;
  }

  /** Python's `sorted` on a set of strings. */
  function SortedStrings(s: set<string>): (r: seq<string>)
    ensures |r| == |s|
    ensures forall x :: x in r <==> x in s
    ensures Ascending(r)
  {
    hide StrLeq, Least, Ascending;
    if s == {} then
      assert Ascending([]) by { EmptyAscends(); }
      []
    else
      var m := Least(s);
      var r := SortedStrings(s - {m});
      AscendingFrom(m, r);
      [m] + r
  }

  lemma EmptyAscends()
    ensures Ascending([])
  {}

  /** The elements of a list, Python's `frozenset(list)`. */
  function SetOf<T>(xs: seq<T>): set<T> { set x | x in xs }
}
