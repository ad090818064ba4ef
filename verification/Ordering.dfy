/**
  Strict total orders, the code-point order on strings, and sorting a
  collection into a strictly increasing sequence.
*/
module Ordering {

  ghost predicate StrictTotalOrder<T(!new)>(lt: (T, T) -> bool) {
    && (forall a :: !lt(a, a))
    && (forall a, b :: a == b || lt(a, b) || lt(b, a))
    && (forall a, b, c :: lt(a, b) && lt(b, c) ==> lt(a, c))
  }

  ghost predicate Increasing<T>(lt: (T, T) -> bool, s: seq<T>) {
    forall i, j :: 0 <= i < j < |s| ==> lt(s[i], s[j])
  }

  // Code-point order, as Python compares strings.
  predicate StringLess(a: string, b: string) {
    b != [] && (a == [] || a[0] < b[0] || (a[0] == b[0] && StringLess(a[1..], b[1..])))
  }

  lemma {:induction false} StringLessIrreflexive(a: string)
    ensures !StringLess(a, a)
  {
    if a != [] { StringLessIrreflexive(a[1..]); }
  }

  lemma {:induction false} StringLessTotal(a: string, b: string)
    ensures a == b || StringLess(a, b) || StringLess(b, a)
  {
    if a != [] && b != [] && a[0] == b[0] {
      StringLessTotal(a[1..], b[1..]);
      if a[1..] == b[1..] {
        assert a == [a[0]] + a[1..] && b == [b[0]] + b[1..];
      }
    }
  }

  lemma {:induction false} StringLessTransitive(a: string, b: string, c: string)
    requires StringLess(a, b) && StringLess(b, c)
    ensures StringLess(a, c)
  {
    if a != [] && a[0] == b[0] == c[0] {
      StringLessTransitive(a[1..], b[1..], c[1..]);
    }
  }

  lemma StringLessIsStrictTotalOrder()
    ensures StrictTotalOrder(StringLess)
  {
    forall a ensures !StringLess(a, a) { StringLessIrreflexive(a); }
    forall a, b ensures a == b || StringLess(a, b) || StringLess(b, a) { StringLessTotal(a, b); }
    forall a, b, c | StringLess(a, b) && StringLess(b, c) ensures StringLess(a, c) {
      StringLessTransitive(a, b, c);
    }
  }

  // Inserts x into an increasing sequence unless it is already there.
  function Insert<T(==,!new)>(lt: (T, T) -> bool, x: T, s: seq<T>): (r: seq<T>)
    ensures forall y :: y in r <==> y == x || y in s
  {
    if s == [] then [x]
    else if s[0] == x then s
    else if lt(x, s[0]) then [x] + s
    else
      assert s == [s[0]] + s[1..];
      [s[0]] + Insert(lt, x, s[1..])
  }

  // The distinct elements of a list in increasing order, as `sorted(set(xs))`.
  function SortDistinct<T(==,!new)>(lt: (T, T) -> bool, xs: seq<T>): (r: seq<T>)
    ensures forall y :: y in r <==> y in xs
  {
    if xs == [] then []
    else
      assert xs == [xs[0]] + xs[1..];
      Insert(lt, xs[0], SortDistinct(lt, xs[1..]))
  }

  lemma {:induction false} InsertIncreasing<T(!new)>(lt: (T, T) -> bool, x: T, s: seq<T>)
    requires StrictTotalOrder(lt) && Increasing(lt, s)
    ensures Increasing(lt, Insert(lt, x, s))
  {
    if s != [] && s[0] != x && !lt(x, s[0]) {
      var rest := s[1..];
      assert forall i :: 0 <= i < |rest| ==> rest[i] == s[i + 1];
      InsertIncreasing(lt, x, rest);
      var r := Insert(lt, x, rest);
      forall i | 0 <= i < |r| ensures lt(s[0], r[i]) {
        assert r[i] in r;
      }
    } else if s != [] && lt(x, s[0]) {
      forall i | 0 <= i < |s| ensures lt(x, s[i]) {
        assert i == 0 || lt(s[0], s[i]);
      }
    }
  }

  lemma {:induction false} SortDistinctIncreasing<T(!new)>(lt: (T, T) -> bool, xs: seq<T>)
    requires StrictTotalOrder(lt)
    ensures Increasing(lt, SortDistinct(lt, xs))
  {
    if xs != [] {
      SortDistinctIncreasing(lt, xs[1..]);
      InsertIncreasing(lt, xs[0], SortDistinct(lt, xs[1..]));
    }
  }

  // An increasing sequence is determined by its elements.
  lemma {:induction false} IncreasingUnique<T(!new)>(lt: (T, T) -> bool, s: seq<T>, t: seq<T>)
    requires StrictTotalOrder(lt) && Increasing(lt, s) && Increasing(lt, t)
    requires forall y :: y in s <==> y in t
    ensures s == t
  {
    if s == [] {
      assert forall i :: 0 <= i < |t| ==> t[i] in s;
    } else {
      assert s[0] in t;
      assert t[0] in s;
      assert s[0] == t[0];
      var s1, t1 := s[1..], t[1..];
      forall y ensures y in s1 <==> y in t1 {
        TailMembers(lt, s, y);
        TailMembers(lt, t, y);
      }
      IncreasingUnique(lt, s1, t1);
      assert s == [s[0]] + s1 && t == [t[0]] + t1;
    }
  }

  lemma TailMembers<T(!new)>(lt: (T, T) -> bool, s: seq<T>, y: T)
    requires StrictTotalOrder(lt) && Increasing(lt, s) && s != []
    ensures y in s[1..] <==> y in s && y != s[0]
  {
    if y in s[1..] {
      var i :| 0 <= i < |s[1..]| && s[1..][i] == y;
      assert lt(s[0], s[i + 1]);
    }
    if y in s && y != s[0] {
      var i :| 0 <= i < |s| && s[i] == y;
      assert s[1..][i - 1] == y;
    }
  }

  // No element occurs twice.
  predicate Distinct<T(==)>(s: seq<T>) {
    forall i, j :: 0 <= i < j < |s| ==> s[i] != s[j]
  }

  lemma DistinctAppend<T>(a: seq<T>, b: seq<T>)
    requires Distinct(a) && Distinct(b)
    requires forall x :: x in b ==> x !in a
    ensures Distinct(a + b)
  {
    forall i, j | 0 <= i < j < |a + b| ensures (a + b)[i] != (a + b)[j] {
      if i < |a| <= j {
        assert (a + b)[j] == b[j - |a|] && b[j - |a|] in b;
        assert a[i] in a;
      }
    }
  }

  lemma IncreasingDistinct<T(!new)>(lt: (T, T) -> bool, s: seq<T>)
    requires StrictTotalOrder(lt) && Increasing(lt, s)
    ensures Distinct(s)
  {
  }
}
