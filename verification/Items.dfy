/** The merged state of one stock item and the fold that builds it.

    Quantities are a pair of per-node counters, metadata fields are last-writer-wins
    registers. Applying an event is not idempotent; it is order-independent, and this module
    says exactly what any order computes.
 */
module Items {
  import opened Stamps
  import opened Events

  datatype Lww<T> = Lww(value: T, at: Hlc)

  /** A write is taken only if it strictly follows the stamp held. */
  function Set<T>(r: Lww<T>, v: T, at: Hlc): Lww<T>
  {
    if Before(r.at, at) then Lww(v, at) else r
  }

  type Counters = map<NodeId, Int64>

  datatype Item = Item(pos: Counters, neg: Counters, name: Lww<string>, reorderPoint: Lww<Int64>, deleted: Lww<bool>)

  const NEW_ITEM := Item(map[], map[], Lww("", ZERO_STAMP), Lww(0, ZERO_STAMP), Lww(false, ZERO_STAMP))

  function Count(c: Counters, n: NodeId): Int64
  {
    if n in c then c[n] else 0
  }

  function Bump(c: Counters, n: NodeId, amount: int): Counters
  {
    c[n := Wrap64(Count(c, n) + amount)]
  }

  function SetIf<T>(r: Lww<T>, v: Option<T>, at: Hlc): Lww<T>
  {
    if v.Some? then Set(r, v.value, at) else r
  }

  /** What one event does to an item. Counter slots are 64-bit and wrap. */
  function Applied(s: Item, e: Event): Item
  {
    if e.kind == KIND_QUANTITY_DELTA then
      if e.delta >= 0 then s.(pos := Bump(s.pos, e.id.node, e.delta))
      else s.(neg := Bump(s.neg, e.id.node, -(e.delta as int)))
    else if e.kind == KIND_META_SET then
      if e.meta.None? then s
      else s.(name := SetIf(s.name, e.meta.value.name, e.hlc),
              reorderPoint := SetIf(s.reorderPoint, e.meta.value.reorderPoint, e.hlc))
    else if e.kind == KIND_DELETE_SET then
      s.(deleted := SetIf(s.deleted, e.deletedTo, e.hlc))
    else s
  }

  function Fold(s: Item, es: seq<Event>): Item
    decreases |es|
  {
    if es == [] then s else Fold(Applied(s, es[0]), es[1..])
  }

  lemma {:induction false} FoldSnoc(s: Item, es: seq<Event>, e: Event)
    ensures Fold(s, es + [e]) == Applied(Fold(s, es), e)
    decreases |es|
  {
    if es == [] {
      assert [e][1..] == [];
    } else {
      assert (es + [e])[1..] == es[1..] + [e];
      FoldSnoc(Applied(s, es[0]), es[1..], e);
    }
  }

  // ---------------------------------------------------------------- commutation

  lemma SetCommutes<T>(r: Lww<T>, v: T, a: Hlc, w: T, b: Hlc)
    requires a != b
    ensures Set(Set(r, v, a), w, b) == Set(Set(r, w, b), v, a)
  {
    BeforeTotal(a, b);
    BeforeTotal(r.at, a);
    BeforeTotal(r.at, b);
    if Before(r.at, a) && Before(a, b) { BeforeTransitive(r.at, a, b); }
    if Before(r.at, b) && Before(b, a) { BeforeTransitive(r.at, b, a); }
  }

  lemma SetIfCommutes<T>(r: Lww<T>, v: Option<T>, a: Hlc, w: Option<T>, b: Hlc)
    requires a != b
    ensures SetIf(SetIf(r, v, a), w, b) == SetIf(SetIf(r, w, b), v, a)
  {
    if v.Some? && w.Some? {
      SetCommutes(r, v.value, a, w.value, b);
    }
  }

  lemma BumpCommutes(c: Counters, m: NodeId, x: int, n: NodeId, y: int)
    ensures Bump(Bump(c, m, x), n, y) == Bump(Bump(c, n, y), m, x)
  {
    hide Wrap64;
    if m == n {
      Wrap64Add(Count(c, m) + x, y);
      Wrap64Add(Count(c, n) + y, x);
    }
    assert Bump(Bump(c, m, x), n, y) == Bump(Bump(c, n, y), m, x);
  }

  lemma DeltasCommute(s: Item, d: Event, e: Event)
    requires d.kind == KIND_QUANTITY_DELTA && e.kind == KIND_QUANTITY_DELTA
    ensures Applied(Applied(s, d), e) == Applied(Applied(s, e), d)
  {
    hide Bump;
    if d.delta >= 0 && e.delta >= 0 {
      BumpCommutes(s.pos, d.id.node, d.delta, e.id.node, e.delta);
    } else if d.delta < 0 && e.delta < 0 {
      BumpCommutes(s.neg, d.id.node, -(d.delta as int), e.id.node, -(e.delta as int));
    }
  }

  /** Two events with different stamps may be applied in either order, from any state. */
  lemma ApplyCommutes(s: Item, d: Event, e: Event)
    requires d.hlc != e.hlc
    ensures Applied(Applied(s, d), e) == Applied(Applied(s, e), d)
  {
    if d.kind == KIND_QUANTITY_DELTA && e.kind == KIND_QUANTITY_DELTA {
      DeltasCommute(s, d, e);
    } else if d.kind == KIND_META_SET && e.kind == KIND_META_SET && d.meta.Some? && e.meta.Some? {
      SetIfCommutes(s.name, d.meta.value.name, d.hlc, e.meta.value.name, e.hlc);
      SetIfCommutes(s.reorderPoint, d.meta.value.reorderPoint, d.hlc, e.meta.value.reorderPoint, e.hlc);
    } else if d.kind == KIND_DELETE_SET && e.kind == KIND_DELETE_SET {
      SetIfCommutes(s.deleted, d.deletedTo, d.hlc, e.deletedTo, e.hlc);
    }
  }

  // ---------------------------------------------------------------- the fold of a set

  ghost predicate DistinctStamps(es: set<Event>)
  {
    forall d, e :: d in es && e in es && d.hlc == e.hlc ==> d == e
  }

  /** The state a set of events stands for: the fold of its members in some order. */
  ghost function Merged(es: set<Event>): Item
  {
    if es == {} then NEW_ITEM
    else
      var e :| e in es;
      Applied(Merged(es - {e}), e)
  }

  /** Any member may be the last one applied. */
  lemma {:induction false} MergedAdd(es: set<Event>, e: Event)
    requires e !in es && DistinctStamps(es + {e})
    ensures Merged(es + {e}) == Applied(Merged(es), e)
    decreases |es|
  {
    var all := es + {e};
    var p :| p in all && Merged(all) == Applied(Merged(all - {p}), p);
    if p == e {
      assert all - {p} == es;
    } else {
      var rest := es - {p};
      assert all - {p} == rest + {e} && es == rest + {p};
      MergedAdd(rest, e);
      MergedAdd(rest, p);
      ApplyCommutes(Merged(rest), e, p);
    }
  }

  ghost predicate Enumerates(order: seq<Event>, es: set<Event>)
  {
    && (forall e :: e in order <==> e in es)
    && (forall i, j :: 0 <= i < j < |order| ==> order[i] != order[j])
  }

  /** Folding more events on top of a merged set, each exactly once and in any order,
      gives the merge of the union. */
  lemma {:induction false} FoldExtendsMerged(base: set<Event>, order: seq<Event>, es: set<Event>)
    requires Enumerates(order, es) && base !! es && DistinctStamps(base + es)
    ensures Fold(Merged(base), order) == Merged(base + es)
    decreases |order|
  {
    if order == [] {
      assert base + es == base;
    } else {
      var e := order[0];
      assert e in order && e in es;
      MergedAdd(base, e);
      var rest := es - {e};
      assert Enumerates(order[1..], rest) by {
        forall x
          ensures x in order[1..] <==> x in rest
        {
          if x in rest {
            var i :| 0 <= i < |order| && order[i] == x;
            assert order[1..][i - 1] == x;
          }
          if x in order[1..] {
            var i :| 0 <= i < |order[1..]| && order[1..][i] == x;
            assert order[i + 1] == x;
          }
        }
      }
      assert base + es == (base + {e}) + rest;
      FoldExtendsMerged(base + {e}, order[1..], rest);
    }
  }

  /** Order independence: every order of a set of events with distinct stamps folds to one state. */
  lemma FoldIsOrderIndependent(order: seq<Event>, other: seq<Event>, es: set<Event>)
    requires Enumerates(order, es) && Enumerates(other, es) && DistinctStamps(es)
    ensures Fold(NEW_ITEM, order) == Fold(NEW_ITEM, other) == Merged(es)
  {
    assert {} + es == es;
    FoldExtendsMerged({}, order, es);
    FoldExtendsMerged({}, other, es);
  }

  // ---------------------------------------------------------------- what the fold means

  ghost function CounterSum(c: Counters): int
  {
    if c == map[] then 0
    else
      var n :| n in c;
      c[n] + CounterSum(c - {n})
  }

  lemma {:induction false} CounterSumAt(c: Counters, n: NodeId)
    requires n in c
    ensures CounterSum(c) == c[n] + CounterSum(c - {n})
    decreases |c|
  {
    var p :| p in c && CounterSum(c) == c[p] + CounterSum(c - {p});
    if p != n {
      CounterSumAt(c - {p}, n);
      CounterSumAt(c - {n}, p);
      assert c - {p} - {n} == c - {n} - {p};
    }
  }

  lemma CounterSumBump(c: Counters, n: NodeId, amount: int)
    ensures CounterSum(Bump(c, n, amount)) == CounterSum(c) - Count(c, n) + Wrap64(Count(c, n) + amount)
  {
    var d := Bump(c, n, amount);
    CounterSumAt(d, n);
    assert d - {n} == c - {n};
    if n in c {
      CounterSumAt(c, n);
    } else {
      assert c - {n} == c;
    }
  }

  /** The quantity of an item: everything added minus everything taken, in 64 bits. */
  ghost function Quantity(s: Item): Int64
  {
    Wrap64(CounterSum(s.pos) - CounterSum(s.neg))
  }

  lemma QuantityAdded(s: Item, e: Event)
    requires e.kind == KIND_QUANTITY_DELTA && e.delta >= 0
    ensures Quantity(Applied(s, e)) == Wrap64(Quantity(s) + e.delta)
  {
    var added, taken, n := CounterSum(s.pos), CounterSum(s.neg), e.id.node;
    var c: int, d: int := Count(s.pos, n), e.delta;
    hide Wrap64, CounterSum;
    CounterSumBump(s.pos, n, d);
    Wrap64Add(c + d, added - c - taken);
    Wrap64Add(added - taken, d);
  }

  lemma QuantityTaken(s: Item, e: Event)
    requires e.kind == KIND_QUANTITY_DELTA && e.delta < 0
    ensures Quantity(Applied(s, e)) == Wrap64(Quantity(s) + e.delta)
  {
    var added, taken, n := CounterSum(s.pos), CounterSum(s.neg), e.id.node;
    var c: int, d: int := Count(s.neg, n), e.delta;
    hide Wrap64, CounterSum;
    CounterSumBump(s.neg, n, -d);
    Wrap64Sub(c - d, added - taken + c);
    Wrap64Add(added - taken, d);
  }

  lemma QuantityStep(s: Item, e: Event)
    requires e.kind != KIND_QUANTITY_DELTA ==> e.delta == 0
    ensures Quantity(Applied(s, e)) == Wrap64(Quantity(s) + e.delta)
  {
    if e.kind == KIND_QUANTITY_DELTA {
      if e.delta >= 0 { QuantityAdded(s, e); } else { QuantityTaken(s, e); }
    }
  }

  ghost function DeltaSum(es: set<Event>): int
  {
    if es == {} then 0
    else
      var e :| e in es;
      e.delta + DeltaSum(es - {e})
  }

  lemma {:induction false} DeltaSumAt(es: set<Event>, e: Event)
    requires e in es
    ensures DeltaSum(es) == e.delta + DeltaSum(es - {e})
    decreases |es|
  {
    var p :| p in es && DeltaSum(es) == p.delta + DeltaSum(es - {p});
    if p != e {
      DeltaSumAt(es - {p}, e);
      DeltaSumAt(es - {e}, p);
      assert es - {p} - {e} == es - {e} - {p};
    }
  }

  lemma EmptyQuantity()
    ensures Quantity(Merged({})) == Wrap64(DeltaSum({}))
  {
  }

  lemma EmptySum()
    ensures CounterSum(map[]) == 0 && Wrap64(0) == 0
  {
  }

  lemma ValidDelta(e: Event)
    requires Valid(e)
    ensures e.kind != KIND_QUANTITY_DELTA ==> e.delta == 0
  {
  }

  lemma MergedPick(es: set<Event>) returns (e: Event)
    requires es != {}
    ensures e in es && Merged(es) == Applied(Merged(es - {e}), e)
  {
    e :| e in es && Merged(es) == Applied(Merged(es - {e}), e);
  }

  lemma WrapTracks(q: Int64, q': Int64, before: int, after: int)
    requires q == Wrap64(before) && q' == Wrap64(q + after - before)
    ensures q' == Wrap64(after)
  {
    Wrap64Add(before, after - before);
  }

  /** The quantity of a set of valid events is the sum of their deltas, truncated to 64 bits. */
  lemma {:induction false} QuantityIsDeltaSum(es: set<Event>)
    requires forall e :: e in es ==> Valid(e)
    ensures Quantity(Merged(es)) == Wrap64(DeltaSum(es))
    decreases |es|
  {
    hide *;
    if es == {} {
      EmptyQuantity();
    } else {
      var e := MergedPick(es);
      QuantityIsDeltaSum(es - {e});
      DeltaSumAt(es, e);
      assert Valid(e);
      ValidDelta(e);
      QuantityStep(Merged(es - {e}), e);
      WrapTracks(Quantity(Merged(es - {e})), Quantity(Merged(es)), DeltaSum(es - {e}), DeltaSum(es));
    }
  }

  // The write an event makes to each register, if any.
  function NameWrite(e: Event): Option<string>
  {
    if e.kind == KIND_META_SET && e.meta.Some? then e.meta.value.name else None
  }

  function ReorderWrite(e: Event): Option<Int64>
  {
    if e.kind == KIND_META_SET && e.meta.Some? then e.meta.value.reorderPoint else None
  }

  function DeletedWrite(e: Event): Option<bool>
  {
    if e.kind == KIND_DELETE_SET then e.deletedTo else None
  }

  /** r holds the write with the greatest stamp among those es makes through w, or the
      untouched initial value when none of them follows the zero stamp. */
  ghost predicate HoldsLatest<T(!new)>(r: Lww<T>, initial: T, w: Event -> Option<T>, es: set<Event>)
  {
    && (r == Lww(initial, ZERO_STAMP) || exists e :: e in es && w(e) == Some(r.value) && e.hlc == r.at && Before(ZERO_STAMP, e.hlc))
    && forall e :: e in es && w(e).Some? ==> !Before(r.at, e.hlc)
  }

  lemma RegisterStep(s: Item, e: Event)
    ensures Applied(s, e).name == SetIf(s.name, NameWrite(e), e.hlc)
    ensures Applied(s, e).reorderPoint == SetIf(s.reorderPoint, ReorderWrite(e), e.hlc)
    ensures Applied(s, e).deleted == SetIf(s.deleted, DeletedWrite(e), e.hlc)
  {
  }

  lemma HoldsLatestStep<T(!new)>(r: Lww<T>, initial: T, w: Event -> Option<T>, es: set<Event>, e: Event)
    requires HoldsLatest(r, initial, w, es)
    ensures HoldsLatest(SetIf(r, w(e), e.hlc), initial, w, es + {e})
  {
    var r' := SetIf(r, w(e), e.hlc);
    BeforeTotal(e.hlc, e.hlc);
    if r' != r {
      assert w(e) == Some(r'.value) && e.hlc == r'.at;
      if r.at != ZERO_STAMP { BeforeTransitive(ZERO_STAMP, r.at, e.hlc); }
      assert e in es + {e};
      forall d | d in es + {e} && w(d).Some?
        ensures !Before(r'.at, d.hlc)
      {
        if d != e && Before(r'.at, d.hlc) {
          BeforeTransitive(r.at, e.hlc, d.hlc);
        }
      }
    }
  }

  /** Every register of a merged item holds the write with the greatest stamp. */
  lemma {:induction false} RegistersHoldLatest(es: set<Event>)
    requires DistinctStamps(es)
    ensures HoldsLatest(Merged(es).name, "", NameWrite, es)
    ensures HoldsLatest(Merged(es).reorderPoint, 0, ReorderWrite, es)
    ensures HoldsLatest(Merged(es).deleted, false, DeletedWrite, es)
    decreases |es|
  {
    if es != {} {
      var e :| e in es && Merged(es) == Applied(Merged(es - {e}), e);
      var prior := Merged(es - {e});
      RegistersHoldLatest(es - {e});
      HoldsLatestStep(prior.name, "", NameWrite, es - {e}, e);
      HoldsLatestStep(prior.reorderPoint, 0, ReorderWrite, es - {e}, e);
      HoldsLatestStep(prior.deleted, false, DeletedWrite, es - {e}, e);
      assert es - {e} + {e} == es;
      RegisterStep(prior, e);
    }
  }

  /** What the fold means, independently of any order: the quantity is the sum of the deltas
      and each register holds the write with the greatest stamp. */
  lemma FoldMeaning(order: seq<Event>, es: set<Event>)
    requires Enumerates(order, es) && DistinctStamps(es)
    requires forall e :: e in es ==> Valid(e)
    ensures Quantity(Fold(NEW_ITEM, order)) == Wrap64(DeltaSum(es))
    ensures HoldsLatest(Fold(NEW_ITEM, order).name, "", NameWrite, es)
    ensures HoldsLatest(Fold(NEW_ITEM, order).reorderPoint, 0, ReorderWrite, es)
    ensures HoldsLatest(Fold(NEW_ITEM, order).deleted, false, DeletedWrite, es)
  {
    FoldIsOrderIndependent(order, order, es);
    QuantityIsDeltaSum(es);
    RegistersHoldLatest(es);
  }

  lemma SlotAdded(left: Counters, n: NodeId, total: Int64, done: int, all: int)
    requires n in left && total == Wrap64(done) && done + CounterSum(left) == all
    ensures Wrap64(total + left[n]) == Wrap64(done + left[n]) && done + left[n] + CounterSum(left - {n}) == all
  {
    hide Wrap64;
    CounterSumAt(left, n);
    Wrap64Add(done, left[n]);
  }

  lemma SlotTaken(left: Counters, n: NodeId, total: Int64, done: int, all: int)
    requires n in left && total == Wrap64(done) && done - CounterSum(left) == all
    ensures Wrap64(total - left[n]) == Wrap64(done - left[n]) && done - left[n] - CounterSum(left - {n}) == all
  {
    hide Wrap64;
    CounterSumAt(left, n);
    Wrap64Add(done, -(left[n] as int));
  }

  /** The mutable state the projector folds into. */
  class ItemState {
    var pos: Counters
    var neg: Counters
    var name: Lww<string>
    var reorderPoint: Lww<Int64>
    var deleted: Lww<bool>

    function Value(): Item
      reads this
    {
      Item(pos, neg, name, reorderPoint, deleted)
    }

    /** Restores a stored state; NEW_ITEM gives the identity. */
    constructor (s: Item)
      ensures Value() == s
    {
      pos, neg := s.pos, s.neg;
      name, reorderPoint, deleted := s.name, s.reorderPoint, s.deleted;
    }

    method Apply(e: Event)
      modifies this
      ensures Value() == Applied(old(Value()), e)
    {
      if e.kind == KIND_QUANTITY_DELTA {
        if e.delta >= 0 {
          pos := pos[e.id.node := Wrap64(Count(pos, e.id.node) + e.delta)];
        } else {
          neg := neg[e.id.node := Wrap64(Count(neg, e.id.node) + Wrap64(-(e.delta as int)))];
          Wrap64Add(-(e.delta as int), Count(old(neg), e.id.node));
        }
      } else if e.kind == KIND_META_SET {
        if e.meta.Some? {
          if e.meta.value.name.Some? {
            name := Set(name, e.meta.value.name.value, e.hlc);
          }
          if e.meta.value.reorderPoint.Some? {
            reorderPoint := Set(reorderPoint, e.meta.value.reorderPoint.value, e.hlc);
          }
        }
      } else if e.kind == KIND_DELETE_SET {
        if e.deletedTo.Some? {
          deleted := Set(deleted, e.deletedTo.value, e.hlc);
        }
      }
    }

    /** Sums the two counter tables slot by slot, wrapping as it goes. */
    method GetQuantity() returns (total: Int64)
      ensures total == Quantity(Value())
    {
      total := AddAll(pos);
      total := TakeAll(total, CounterSum(pos), neg);
    }

    static method AddAll(c: Counters) returns (total: Int64)
      ensures total == Wrap64(CounterSum(c))
    {
      hide Wrap64, CounterSum, Quantity, Merged, DeltaSum;
      total := 0;
      var left := c;
      ghost var done: int := 0;
      EmptySum();
      while left != map[]
        invariant total == Wrap64(done)
        invariant done + CounterSum(left) == CounterSum(c)
        decreases |left|
      {
        var n :| n in left;
        SlotAdded(left, n, total, done, CounterSum(c));
        done := done + left[n];
        total := Wrap64(total + left[n]);
        left := left - {n};
      }
    }

    static method TakeAll(start: Int64, ghost exact: int, c: Counters) returns (total: Int64)
      requires start == Wrap64(exact)
      ensures total == Wrap64(exact - CounterSum(c))
    {
      hide Wrap64, CounterSum, Quantity, Merged, DeltaSum;
      total := start;
      var left := c;
      ghost var done: int := exact;
      EmptySum();
      while left != map[]
        invariant total == Wrap64(done)
        invariant done - CounterSum(left) == exact - CounterSum(c)
        decreases |left|
      {
        var n :| n in left;
        SlotTaken(left, n, total, done, exact - CounterSum(c));
        done := done - left[n];
        total := Wrap64(total - left[n]);
        left := left - {n};
      }
    }
  }
}
