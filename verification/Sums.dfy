/** Finite sums of exact quantities, indexed by a map. */
module Sums {
  ghost function Sum<T>(m: map<T, real>): real
  {
    if m == map[] then 0.0
    else
      var x :| x in m;
      m[x] + Sum(m - {x})
  }

  lemma {:induction false} SumAt<T>(m: map<T, real>, x: T)
    requires x in m
    ensures Sum(m) == m[x] + Sum(m - {x})
    decreases |m|
  {
    var p :| p in m && Sum(m) == m[p] + Sum(m - {p});
    if p != x {
      SumAt(m - {p}, x);
      SumAt(m - {x}, p);
      assert m - {p} - {x} == m - {x} - {p};
    }
  }

  lemma SumWithout<T>(m: map<T, real>, x: T)
    ensures Sum(m) == Sum(m - {x}) + if x in m then m[x] else 0.0
  {
    if x in m { SumAt(m, x); } else { assert m - {x} == m; }
  }

  lemma {:induction false} SumZero<T>(m: map<T, real>)
    requires forall x :: x in m ==> m[x] == 0.0
    ensures Sum(m) == 0.0
    decreases |m|
  {
    if m != map[] {
      var x :| x in m;
      SumAt(m, x);
      SumZero(m - {x});
    }
  }

  /** Only one entry counts. */
  lemma SumOne<T>(m: map<T, real>, x: T)
    requires x in m && forall y :: y in m && y != x ==> m[y] == 0.0
    ensures Sum(m) == m[x]
  {
    SumAt(m, x);
    SumZero(m - {x});
  }

  lemma {:induction false} SumAdd<T>(a: map<T, real>, b: map<T, real>, c: map<T, real>)
    requires a.Keys == b.Keys == c.Keys && forall x :: x in c ==> c[x] == a[x] + b[x]
    ensures Sum(c) == Sum(a) + Sum(b)
    decreases |c|
  {
    if c == map[] {
      assert a == map[] && b == map[];
    } else {
      var x :| x in c;
      SumAt(a, x);
      SumAt(b, x);
      SumAt(c, x);
      SumAdd(a - {x}, b - {x}, c - {x});
    }
  }

  lemma {:induction false} SumSplit<T>(m: map<T, real>, part: set<T>)
    ensures Sum(m) == Sum(map x | x in m && x in part :: m[x]) + Sum(m - part)
    decreases |m|
  {
    var here := map x | x in m && x in part :: m[x];
    if m == map[] {
      assert here == map[] && m - part == map[];
    } else {
      var x :| x in m;
      var rest := m - {x};
      SumAt(m, x);
      SumSplit(rest, part);
      var there := map y | y in rest && y in part :: rest[y];
      if x in part {
        SumAt(here, x);
        assert here - {x} == there && m - part == rest - part;
      } else {
        SumAt(m - part, x);
        assert here == there && (m - part) - {x} == rest - part;
      }
    }
  }

  /** A sum of nothing negative is zero exactly when every entry is. */
  lemma {:induction false} SumSign<T>(m: map<T, real>)
    requires forall x :: x in m ==> m[x] >= 0.0
    ensures Sum(m) >= 0.0 && (Sum(m) == 0.0 <==> forall x :: x in m ==> m[x] == 0.0)
    decreases |m|
  {
    if m != map[] {
      var x :| x in m;
      SumAt(m, x);
      SumSign(m - {x});
      assert forall y :: y in m && y != x ==> y in m - {x};
    }
  }

  ghost function RowOf<A, B>(x: A, ys: set<B>, f: (A, B) -> real): map<B, real>
  {
    map y | y in ys :: f(x, y)
  }

  ghost function ColumnOf<A, B>(xs: set<A>, y: B, f: (A, B) -> real): map<A, real>
  {
    map x | x in xs :: f(x, y)
  }

  ghost function RowSums<A, B>(xs: set<A>, ys: set<B>, f: (A, B) -> real): map<A, real>
  {
    map x | x in xs :: Sum(RowOf(x, ys, f))
  }

  ghost function ColumnSums<A, B>(xs: set<A>, ys: set<B>, f: (A, B) -> real): map<B, real>
  {
    map y | y in ys :: Sum(ColumnOf(xs, y, f))
  }

  lemma RowsLess<A, B>(xs: set<A>, ys: set<B>, f: (A, B) -> real, x: A)
    requires x in xs
    ensures Sum(RowSums(xs, ys, f)) == Sum(RowOf(x, ys, f)) + Sum(RowSums(xs - {x}, ys, f))
  {
    hide Sum;
    SumAt(RowSums(xs, ys, f), x);
    assert RowSums(xs, ys, f) - {x} == RowSums(xs - {x}, ys, f);
  }

  lemma ColumnLess<A, B>(xs: set<A>, y: B, f: (A, B) -> real, x: A)
    requires x in xs
    ensures Sum(ColumnOf(xs, y, f)) == f(x, y) + Sum(ColumnOf(xs - {x}, y, f))
  {
    hide Sum;
    SumAt(ColumnOf(xs, y, f), x);
    assert ColumnOf(xs, y, f) - {x} == ColumnOf(xs - {x}, y, f);
  }

  lemma ColumnsLess<A, B>(xs: set<A>, ys: set<B>, f: (A, B) -> real, x: A)
    requires x in xs
    ensures Sum(ColumnSums(xs, ys, f)) == Sum(RowOf(x, ys, f)) + Sum(ColumnSums(xs - {x}, ys, f))
  {
    hide Sum;
    forall y | y in ys
      ensures ColumnSums(xs, ys, f)[y] == RowOf(x, ys, f)[y] + ColumnSums(xs - {x}, ys, f)[y]
    {
      ColumnLess(xs, y, f, x);
    }
    SumAdd(RowOf(x, ys, f), ColumnSums(xs - {x}, ys, f), ColumnSums(xs, ys, f));
  }

  lemma ColumnsMore<A, B>(xs: set<A>, ys: set<B>, f: (A, B) -> real, y: B)
    requires y !in ys
    ensures Sum(ColumnSums(xs, {y} + ys, f)) == Sum(ColumnOf(xs, y, f)) + Sum(ColumnSums(xs, ys, f))
  {
    hide Sum;
    SumAt(ColumnSums(xs, {y} + ys, f), y);
    assert ColumnSums(xs, {y} + ys, f) - {y} == ColumnSums(xs, ys, f);
  }

  lemma NoRows<A, B>(ys: set<B>, f: (A, B) -> real)
    ensures Sum(RowSums({}, ys, f)) == 0.0 && Sum(ColumnSums({}, ys, f)) == 0.0
  {
    SumZero(RowSums({}, ys, f));
    forall y | y in ys
      ensures ColumnSums({}, ys, f)[y] == 0.0
    {
      SumZero(ColumnOf({}, y, f));
    }
    SumZero(ColumnSums({}, ys, f));
  }

  /** Summing rows first or columns first makes no difference. */
  lemma {:induction false} SumSwap<A, B>(xs: set<A>, ys: set<B>, f: (A, B) -> real)
    ensures Sum(RowSums(xs, ys, f)) == Sum(ColumnSums(xs, ys, f))
    decreases |xs|
  {
    hide Sum, RowSums, ColumnSums, RowOf;
    if xs == {} {
      NoRows(ys, f);
    } else {
      var x :| x in xs;
      RowsLess(xs, ys, f, x);
      ColumnsLess(xs, ys, f, x);
      SumSwap(xs - {x}, ys, f);
    }
  }
}
