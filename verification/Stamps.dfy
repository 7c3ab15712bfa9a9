/** Hybrid logical clock stamps: a wall reading, a tiebreak counter and the stamping node.

    The order on stamps is what decides every last-writer-wins register and the order in
    which a log streams its rows, so it is proved to be a strict total order before anything
    is built on it. Widths are explicit: a wall reading is a 64-bit signed integer that wraps,
    a counter is a 32-bit unsigned integer.
 */
module Stamps {

  const MAX_INT64: int := 0x7FFF_FFFF_FFFF_FFFF
  const MIN_INT64: int := -0x8000_0000_0000_0000
  const MAX_UINT32: int := 0xFFFF_FFFF

  type Int64 = x: int | MIN_INT64 <= x <= MAX_INT64
  type Uint32 = x: int | 0 <= x <= MAX_UINT32

  type NodeId = string

  datatype Hlc = Hlc(wall: Int64, logical: Uint32, node: NodeId)

  // The zero value a register starts from.
  const ZERO_STAMP := Hlc(0, 0, "")

  const TWO_64: int := 0x1_0000_0000_0000_0000

  /** Two's complement truncation of an exact result to 64 bits: the representative of x
      modulo 2^64 in the signed range. */
  function Wrap64(x: int): (r: Int64)
    ensures MIN_INT64 <= x <= MAX_INT64 ==> r == x
    decreases if x > MAX_INT64 then x - MAX_INT64 else if x < MIN_INT64 then MIN_INT64 - x else 0
  {
    if x > MAX_INT64 then Wrap64(x - TWO_64)
    else if x < MIN_INT64 then Wrap64(x + TWO_64)
    else x
  }

  lemma {:induction false} WrapShift(x: int)
    ensures Wrap64(x - TWO_64) == Wrap64(x)
  {
  }

  /** Truncating early or late makes no difference to a sum. */
  lemma {:induction false} Wrap64Add(x: int, y: int)
    ensures Wrap64(Wrap64(x) + y) == Wrap64(x + y)
    decreases if x > MAX_INT64 then x - MAX_INT64 else if x < MIN_INT64 then MIN_INT64 - x else 0
  {
    if x > MAX_INT64 {
      Wrap64Add(x - TWO_64, y);
      WrapShift(x + y);
    } else if x < MIN_INT64 {
      Wrap64Add(x + TWO_64, y);
      WrapShift(x + TWO_64 + y);
    }
  }

  lemma {:induction false} Wrap64Sub(x: int, y: int)
    ensures Wrap64(y - Wrap64(x)) == Wrap64(y - x)
    decreases if x > MAX_INT64 then x - MAX_INT64 else if x < MIN_INT64 then MIN_INT64 - x else 0
  {
    if x > MAX_INT64 {
      Wrap64Sub(x - TWO_64, y);
      WrapShift(y - x + TWO_64);
    } else if x < MIN_INT64 {
      Wrap64Sub(x + TWO_64, y);
      WrapShift(y - x);
    }
  }

  /** Byte-wise comparison of two node names: -1, 0 or 1. */
  function CompareNames(a: string, b: string): int
  {
    if a == [] && b == [] then 0
    else if a == [] then -1
    else if b == [] then 1
    else if a[0] < b[0] then -1
    else if b[0] < a[0] then 1
    else CompareNames(a[1..], b[1..])
  }

  /** Compare orders by wall reading, then counter, then node name. */
  function Compare(a: Hlc, b: Hlc): int
  {
    if a.wall != b.wall then (if a.wall < b.wall then -1 else 1)
    else if a.logical != b.logical then (if a.logical < b.logical then -1 else 1)
    else CompareNames(a.node, b.node)
  }

  predicate Before(a: Hlc, b: Hlc)
  {
    Compare(a, b) < 0
  }

  /** a is past b in wall reading and counter, whoever took them. */
  predicate LaterReading(a: Hlc, b: Hlc)
  {
    a.wall > b.wall || (a.wall == b.wall && a.logical > b.logical)
  }

  /** r is the least reading that is not before the wall clock and past all of the priors. */
  ghost predicate LeastPast(r: Hlc, wall: Int64, priors: set<Hlc>)
  {
    && PastAll(r, wall, priors)
    && forall s: Hlc :: PastAll(s, wall, priors) ==> s.wall > r.wall || (s.wall == r.wall && s.logical >= r.logical)
  }

  ghost predicate PastAll(s: Hlc, wall: Int64, priors: set<Hlc>)
  {
    s.wall >= wall && forall p :: p in priors ==> s.wall > p.wall || (s.wall == p.wall && s.logical > p.logical)
  }

  lemma {:induction false} NamesAntisymmetric(a: string, b: string)
    ensures CompareNames(a, b) == -CompareNames(b, a)
    ensures CompareNames(a, b) == 0 <==> a == b
  {
    if a != [] && b != [] && a[0] == b[0] {
      NamesAntisymmetric(a[1..], b[1..]);
      assert a == [a[0]] + a[1..] && b == [b[0]] + b[1..];
    }
  }

  /** The order of names is the byte-wise one: a proper prefix comes first, otherwise the first
      difference decides. */
  lemma {:induction false} NamesAreLexicographic(a: string, b: string)
    ensures CompareNames(a, b) < 0 <==>
              exists i :: 0 <= i <= |a| && i <= |b| && a[..i] == b[..i] && (if i == |a| then i < |b| else i < |b| && a[i] < b[i])
    decreases |a|
  {
    if a == [] {
      if b != [] { assert a[..0] == b[..0]; }
    } else if b != [] && a[0] == b[0] {
      NamesAreLexicographic(a[1..], b[1..]);
      var c, d := a[1..], b[1..];
      if i :| 0 <= i <= |c| && i <= |d| && c[..i] == d[..i] && (if i == |c| then i < |d| else i < |d| && c[i] < d[i]) {
        assert a[..i + 1] == [a[0]] + c[..i] && b[..i + 1] == [b[0]] + d[..i];
      }
      if i :| 0 <= i <= |a| && i <= |b| && a[..i] == b[..i] && (if i == |a| then i < |b| else i < |b| && a[i] < b[i]) {
        assert i > 0;
        assert c[..i - 1] == a[..i][1..] && d[..i - 1] == b[..i][1..];
      }
    } else if b != [] {
      if a[0] < b[0] { assert a[..0] == b[..0]; }
      forall i | 0 < i <= |a| && i <= |b|
        ensures a[..i] != b[..i]
      {
        assert a[..i][0] != b[..i][0];
      }
    }
  }

  lemma {:induction false} NamesTransitive(a: string, b: string, c: string)
    requires CompareNames(a, b) < 0 && CompareNames(b, c) < 0
    ensures CompareNames(a, c) < 0
  {
    if a != [] && b != [] && c != [] && a[0] == b[0] == c[0] {
      NamesTransitive(a[1..], b[1..], c[1..]);
    }
  }

  /** Before is a strict total order: of two stamps exactly one precedes the other, or they are equal. */
  lemma BeforeTotal(a: Hlc, b: Hlc)
    ensures !(Before(a, b) && Before(b, a))
    ensures !Before(a, b) && !Before(b, a) <==> a == b
    ensures !Before(a, a)
  {
    NamesAntisymmetric(a.node, b.node);
    NamesAntisymmetric(a.node, a.node);
  }

  lemma BeforeTransitive(a: Hlc, b: Hlc, c: Hlc)
    requires Before(a, b) && Before(b, c)
    ensures Before(a, c)
  {
    if a.wall == b.wall == c.wall && a.logical == b.logical == c.logical {
      NamesTransitive(a.node, b.node, c.node);
    }
  }

  /** !Before(b, a) reads "a at or before b"; it composes with Before on either side. */
  lemma NotAfterThenBefore(a: Hlc, b: Hlc, c: Hlc)
    requires !Before(b, a) && Before(b, c)
    ensures Before(a, c)
  {
    BeforeTotal(a, b);
    if a != b {
      BeforeTransitive(a, b, c);
    }
  }
}
