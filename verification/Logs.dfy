/** The node's event log as a value: event rows, one snapshot per SKU, and the per-node
    watermark compaction leaves behind; and the queries the code runs over them.
 */
module Logs {
  import opened Stamps
  import opened Events
  import opened Items

  datatype Snapshot = Snapshot(state: Item, covers: VersionVector)

  datatype Log = Log(rows: map<EventId, Event>, snaps: map<string, Snapshot>, mark: VersionVector)

  const EMPTY_LOG := Log(map[], map[], map[])

  // ---------------------------------------------------------------- the version vector query

  /** The rows of n the query looks at: those above the watermark. */
  function RowsAbove(l: Log, n: NodeId): set<nat>
  {
    set id | id in l.rows && id.node == n && id.seqNo > At(l.mark, n) :: id.seqNo
  }

  /** ROW_NUMBER() OVER (PARTITION BY node_id ORDER BY seq). */
  function RowNumber(l: Log, n: NodeId, s: nat): nat
  {
    |set x | x in RowsAbove(l, n) && x <= s|
  }

  /** The rows whose group number seq - row_number - watermark is zero. */
  function FirstGroup(l: Log, n: NodeId): set<nat>
  {
    set s | s in RowsAbove(l, n) && s - RowNumber(l, n, s) - At(l.mark, n) == 0
  }

  function MaxOf(s: set<nat>): (m: nat)
    ensures forall x :: x in s ==> x <= m
    ensures if s == {} then m == 0 else m in s
  {
    if s == {} then 0
    else
      MaxExists(s);
      var m :| m in s && forall x :: x in s ==> x <= m;
      m
  }

  lemma {:induction false} MaxExists(s: set<nat>)
    requires s != {}
    ensures exists m :: m in s && forall x :: x in s ==> x <= m
    decreases |s|
  {
    var a :| a in s;
    if s != {a} {
      MaxExists(s - {a});
      var b :| b in s - {a} && forall x :: x in s - {a} ==> x <= b;
      var m := if a > b then a else b;
      forall x | x in s
        ensures x <= m
      {
        assert x == a || x in s - {a};
      }
      assert m in s;
    }
  }

  /** The version vector the gaps-and-islands query returns: per node the larger of the
      watermark and the last row of the first group. */
  function QueryVector(l: Log): VersionVector
  {
    map n | n in l.mark.Keys + (set id | id in l.rows && FirstGroup(l, id.node) != {} :: id.node)
      :: if MaxOf(FirstGroup(l, n)) > At(l.mark, n) then MaxOf(FirstGroup(l, n)) else At(l.mark, n)
  }

  function Interval(lo: nat, hi: nat): (s: set<nat>)
    requires lo <= hi
    ensures |s| == hi - lo && forall x :: x in s <==> lo < x <= hi
  {
    if lo == hi then {} else Interval(lo, hi - 1) + {hi}
  }

  lemma {:induction false} SubsetOfSameSize(a: set<nat>, b: set<nat>)
    requires a <= b && |a| == |b|
    ensures a == b
  {
    if a != b {
      var x :| x in b && x !in a;
      SubsetSize(a, b - {x});
    }
  }

  lemma {:induction false} SubsetSize(a: set<nat>, b: set<nat>)
    requires a <= b
    ensures |a| <= |b|
  {
    if a != {} {
      var x :| x in a;
      SubsetSize(a - {x}, b - {x});
    }
  }

  /** A row is in the first group exactly when no number between the watermark and it is missing. */
  lemma FirstGroupIsGapFree(l: Log, n: NodeId, s: nat)
    requires s in RowsAbove(l, n)
    ensures s in FirstGroup(l, n) <==> forall x :: At(l.mark, n) < x <= s ==> EventId(n, x) in l.rows
  {
    var upTo := set x | x in RowsAbove(l, n) && x <= s;
    var all := Interval(At(l.mark, n), s);
    assert upTo <= all;
    if forall x :: At(l.mark, n) < x <= s ==> EventId(n, x) in l.rows {
      forall x | x in all
        ensures x in upTo
      {
        assert EventId(n, x) in l.rows;
      }
      assert upTo == all;
    }
    if s in FirstGroup(l, n) {
      SubsetOfSameSize(upTo, all);
      forall x | At(l.mark, n) < x <= s
        ensures EventId(n, x) in l.rows
      {
        assert x in all;
      }
    }
  }

  /** f is the end of the gap-free run of rows that continues the watermark of n. */
  ghost predicate EndsRun(l: Log, n: NodeId, f: nat)
  {
    && At(l.mark, n) <= f
    && (forall x :: At(l.mark, n) < x <= f ==> EventId(n, x) in l.rows)
    && EventId(n, f + 1) !in l.rows
  }

  /** What the row-number query computes, without row numbers or groups. */
  lemma QueryEndsRun(l: Log, n: NodeId)
    ensures EndsRun(l, n, At(QueryVector(l), n))
  {
    hide QueryVector, FirstGroup, RowsAbove, MaxOf;
    QueryAt(l, n);
    var g, f := FirstGroup(l, n), At(QueryVector(l), n);
    RowsAboveHas(l, n, f + 1);
    if g != {} {
      FirstGroupIsGapFree(l, n, f);
    }
    if f + 1 in RowsAbove(l, n) {
      FirstGroupIsGapFree(l, n, f + 1);
    }
  }

  lemma RowsAboveHas(l: Log, n: NodeId, s: nat)
    ensures s in RowsAbove(l, n) <==> s > At(l.mark, n) && EventId(n, s) in l.rows
  {
  }

  lemma QueryAt(l: Log, n: NodeId)
    ensures var g, f := FirstGroup(l, n), At(QueryVector(l), n);
            && (if g == {} then f == At(l.mark, n) else f in g && f in RowsAbove(l, n))
            && At(l.mark, n) <= f && forall s :: s in g ==> s <= f
  {
    var g := FirstGroup(l, n);
    if g != {} {
      var m := MaxOf(g);
      assert EventId(n, m) in l.rows;
    }
  }

  // ---------------------------------------------------------------- appending

  /** INSERT ... ON CONFLICT DO NOTHING, behind validation. */
  function Appended(l: Log, e: Event): Log
  {
    if Valid(e) && e.id !in l.rows then l.(rows := l.rows[e.id := e]) else l
  }

  function SeqsOf(l: Log, n: NodeId): set<nat>
  {
    set id | id in l.rows && id.node == n :: id.seqNo
  }

  /** The sequence number the next local event gets. */
  function NextSeq(l: Log, n: NodeId): nat
  {
    var top := MaxOf(SeqsOf(l, n));
    (if top > At(l.mark, n) then top else At(l.mark, n)) + 1
  }

  // ---------------------------------------------------------------- reading

  function SkuRows(l: Log, sku: string): set<Event>
  {
    set id | id in l.rows && l.rows[id].sku == sku :: l.rows[id]
  }

  /** The stored snapshot, or the identity with nothing covered. */
  function BaseOf(l: Log, sku: string): Snapshot
  {
    if sku in l.snaps then l.snaps[sku] else Snapshot(NEW_ITEM, map[])
  }

  function Uncovered(es: set<Event>, vv: VersionVector): set<Event>
  {
    set e | e in es && !Contains(vv, e.id)
  }

  /** Rows come back sorted by stamp; ties may come in any order. */
  ghost predicate Ordered(order: seq<Event>)
  {
    forall i, j :: 0 <= i < j < |order| ==> !Before(order[j].hlc, order[i].hlc)
  }

  /** The events Since(vv) yields. */
  function SinceSet(l: Log, vv: VersionVector): set<Event>
  {
    set id | id in l.rows && !Contains(vv, id) :: l.rows[id]
  }

  // ---------------------------------------------------------------- snapshotting

  /** The scan of MaybeSnapshot over the ordered rows of one SKU. The covers vector is both the
      stream's skip filter and updated on the way, so what a row does depends on the rows before it. */
  function Scanned(order: seq<Event>, frontier: VersionVector, base: Snapshot): Snapshot
  {
    if order == [] then base
    else
      var s := Scanned(order[..|order| - 1], frontier, base);
      var e := order[|order| - 1];
      if Contains(s.covers, e.id) || e.id.seqNo > At(frontier, e.id.node) then s
      else Snapshot(Applied(s.state, e), Observe(s.covers, e.id))
  }

  /** The rows the scan folds, in order. */
  ghost function TakenBy(order: seq<Event>, frontier: VersionVector, base: Snapshot): seq<Event>
  {
    if order == [] then []
    else
      var init := order[..|order| - 1];
      var e := order[|order| - 1];
      if Contains(Scanned(init, frontier, base).covers, e.id) || e.id.seqNo > At(frontier, e.id.node)
      then TakenBy(init, frontier, base)
      else TakenBy(init, frontier, base) + [e]
  }

  /** The rows a snapshot ought to fold: not folded yet, and at or below the frontier. */
  ghost predicate Foldable(e: Event, frontier: VersionVector, base: Snapshot)
  {
    !Contains(base.covers, e.id) && e.id.seqNo <= At(frontier, e.id.node)
  }

  /** No foldable row comes after a later-numbered one of the same origin. */
  ghost predicate NoInversion(order: seq<Event>, frontier: VersionVector, base: Snapshot)
  {
    forall i, j :: 0 <= i < j < |order| && order[i].id.node == order[j].id.node
                   && Foldable(order[i], frontier, base) && Foldable(order[j], frontier, base)
                   ==> order[i].id.seqNo < order[j].id.seqNo
  }

  /** The covers vector after the scan: per node the larger of the old entry and the largest
      foldable number scanned. This holds with or without inversions. */
  lemma {:induction false} ScannedCovers(order: seq<Event>, frontier: VersionVector, base: Snapshot, n: NodeId)
    ensures var c := At(Scanned(order, frontier, base).covers, n);
            && At(base.covers, n) <= c
            && (forall e :: e in order && e.id.node == n && Foldable(e, frontier, base) ==> e.id.seqNo <= c)
            && (c == At(base.covers, n) || exists e :: e in order && e.id == EventId(n, c) && Foldable(e, frontier, base))
  {
    if order != [] {
      var init := order[..|order| - 1];
      var e := order[|order| - 1];
      assert order == init + [e];
      ScannedCovers(init, frontier, base, n);
      var c0 := At(Scanned(init, frontier, base).covers, n);
      var c := At(Scanned(order, frontier, base).covers, n);
      assert forall x :: x in init ==> x in order;
      if c != c0 {
        assert e in order && e.id == EventId(n, c);
      }
    }
  }

  lemma {:induction false} ScanFoldsTaken(order: seq<Event>, frontier: VersionVector, base: Snapshot)
    ensures Scanned(order, frontier, base).state == Fold(base.state, TakenBy(order, frontier, base))
    ensures forall e :: e in TakenBy(order, frontier, base) ==> e in order && Foldable(e, frontier, base)
  {
    if order != [] {
      var init := order[..|order| - 1];
      var e := order[|order| - 1];
      assert order == init + [e];
      ScanFoldsTaken(init, frontier, base);
      ScannedCovers(init, frontier, base, e.id.node);
      FoldSnoc(base.state, TakenBy(init, frontier, base), e);
    }
  }

  lemma {:induction false} TakenIsDistinct(order: seq<Event>, frontier: VersionVector, base: Snapshot)
    requires forall i, j :: 0 <= i < j < |order| ==> order[i] != order[j]
    ensures var t := TakenBy(order, frontier, base); forall i, j :: 0 <= i < j < |t| ==> t[i] != t[j]
  {
    if order != [] {
      var init := order[..|order| - 1];
      var e := order[|order| - 1];
      TakenIsDistinct(init, frontier, base);
      ScanFoldsTaken(init, frontier, base);
      assert e !in init;
      assert e !in TakenBy(init, frontier, base);
    }
  }

  /** The aliased scan folds every foldable row if and only if no foldable row comes after a
      later-numbered one of its origin. A row that does is hidden by the covers entry the
      later-numbered one has just written. */
  lemma ScanIsCompleteIff(order: seq<Event>, frontier: VersionVector, base: Snapshot)
    requires forall i, j :: 0 <= i < j < |order| ==> order[i].id != order[j].id
    ensures (forall e :: e in order && Foldable(e, frontier, base) ==> e in TakenBy(order, frontier, base))
       <==> NoInversion(order, frontier, base)
  {
    if NoInversion(order, frontier, base) {
      ScanTakesAll(order, frontier, base);
    } else {
      var i, j :| 0 <= i < j < |order| && order[i].id.node == order[j].id.node
                  && Foldable(order[i], frontier, base) && Foldable(order[j], frontier, base)
                  && order[i].id.seqNo >= order[j].id.seqNo;
      assert order[i].id != order[j].id;
      ScanHides(order, frontier, base, i, j);
    }
  }

  lemma LastIsLargest(order: seq<Event>, frontier: VersionVector, base: Snapshot)
    requires NoInversion(order, frontier, base) && order != []
    ensures var e := order[|order| - 1];
            Foldable(e, frontier, base) ==>
              forall d :: d in order[..|order| - 1] && d.id.node == e.id.node && Foldable(d, frontier, base) ==> d.id.seqNo < e.id.seqNo
  {
  }

  lemma {:induction false} ScanTakesAll(order: seq<Event>, frontier: VersionVector, base: Snapshot)
    requires NoInversion(order, frontier, base)
    ensures forall e :: e in order && Foldable(e, frontier, base) ==> e in TakenBy(order, frontier, base)
  {
    if order != [] {
      var init := order[..|order| - 1];
      var e := order[|order| - 1];
      assert order == init + [e];
      ScanTakesAll(init, frontier, base);
      ScannedCovers(init, frontier, base, e.id.node);
      var c := At(Scanned(init, frontier, base).covers, e.id.node);
      LastIsLargest(order, frontier, base);
    }
  }

  lemma {:induction false} ScanHides(order: seq<Event>, frontier: VersionVector, base: Snapshot, i: nat, j: nat)
    requires forall i, j :: 0 <= i < j < |order| ==> order[i].id != order[j].id
    requires i < j < |order| && order[i].id.node == order[j].id.node
    requires Foldable(order[i], frontier, base) && order[i].id.seqNo > order[j].id.seqNo
    ensures order[j] !in TakenBy(order, frontier, base)
    decreases |order|
  {
    var init := order[..|order| - 1];
    var e := order[|order| - 1];
    if j < |order| - 1 {
      ScanHides(init, frontier, base, i, j);
      assert order[j] != e;
    } else {
      ScannedCovers(init, frontier, base, e.id.node);
      assert init[i] in init;
      ScanFoldsTaken(init, frontier, base);
      assert forall k :: 0 <= k < |init| ==> order[k].id != e.id;
      assert e !in init;
    }
  }

  // ---------------------------------------------------------------- compaction

  /** The two gates of compaction: what a SKU's snapshot folds in and what the peers have acked. */
  function Safe(l: Log, sku: string, n: NodeId, upTo: VersionVector): nat
    requires sku in l.snaps
  {
    var c := At(l.snaps[sku].covers, n);
    if At(upTo, n) < c then At(upTo, n) else c
  }

  predicate Stranded(rows: map<EventId, Event>, n: NodeId, s: nat)
  {
    exists id :: id in rows && id.node == n && id.seqNo > s
  }

  type Pair = (string, NodeId)

  /** The (SKU, node) pairs compaction considers: those both gates name. */
  function GatedPairs(l: Log, upTo: VersionVector): set<Pair>
  {
    set sku, n | sku in l.snaps && n in l.snaps[sku].covers && n in upTo :: (sku, n)
  }

  /** A row disappears only when both gates let it go and the watermark is raised past it. */
  ghost predicate DeletesOnlySafe(l: Log, upTo: VersionVector, l': Log)
  {
    && l'.snaps == l.snaps
    && (forall id :: id in l'.rows ==> id in l.rows && l'.rows[id] == l.rows[id])
    && (forall id :: id in l.rows && id !in l'.rows ==>
          && l.rows[id].sku in l.snaps && id.seqNo <= Safe(l, l.rows[id].sku, id.node, upTo)
          && id.seqNo <= At(l'.mark, id.node))
  }

  /** Every row of the SKU and node that both gates let go is gone and below the watermark. */
  ghost predicate PairDone(l: Log, upTo: VersionVector, l': Log, sku: string, n: NodeId)
    requires sku in l.snaps
  {
    && Safe(l, sku, n, upTo) <= At(l'.mark, n)
    && forall id :: id in l'.rows && id.node == n && l'.rows[id].sku == sku ==> id.seqNo > Safe(l, sku, n, upTo)
  }

  /** The watermark never falls, and moves only to the gate value of some snapshot. */
  ghost predicate MarkRaised(l: Log, upTo: VersionVector, l': Log)
  {
    forall n ::
      && At(l.mark, n) <= At(l'.mark, n)
      && (At(l'.mark, n) == At(l.mark, n) || exists sku :: sku in l.snaps && At(l'.mark, n) == Safe(l, sku, n, upTo))
  }

  /** Nothing of node n changed. */
  ghost predicate Untouched(l: Log, l': Log, n: NodeId)
  {
    At(l'.mark, n) == At(l.mark, n) && forall id: EventId :: id.node == n ==> (id in l'.rows <==> id in l.rows)
  }

  /** A node all of whose pairs have a later row in the way is left alone. */
  ghost predicate BlockedStays(l: Log, upTo: VersionVector, l': Log, done: set<Pair>)
  {
    forall n ::
      (forall sku :: (sku, n) in done && sku in l.snaps ==> Stranded(l.rows, n, Safe(l, sku, n, upTo))) ==> Untouched(l, l', n)
  }

  /** The outcome of compacting the pairs in done, whatever order they are visited in. A pair is
      left alone only if a later row of its node stood in the way. */
  ghost predicate CompactedOver(l: Log, upTo: VersionVector, l': Log, done: set<Pair>)
  {
    && DeletesOnlySafe(l, upTo, l')
    && (forall sku, n :: (sku, n) in done && sku in l.snaps && !Stranded(l.rows, n, Safe(l, sku, n, upTo)) ==>
          PairDone(l, upTo, l', sku, n))
    && MarkRaised(l, upTo, l') && BlockedStays(l, upTo, l', done)
  }

  ghost predicate Compacted(l: Log, upTo: VersionVector, l': Log)
  {
    CompactedOver(l, upTo, l', GatedPairs(l, upTo))
  }

  /** One visit: raise the watermark and delete, unless that would strand a later row. */
  function CompactPair(l: Log, sku: string, n: NodeId, s: nat): Log
  {
    if Stranded(l.rows, n, s) then l
    else l.(mark := Observe(l.mark, EventId(n, s)),
            rows := map id | id in l.rows && !(id.node == n && id.seqNo <= s && l.rows[id].sku == sku) :: l.rows[id])
  }

  lemma CompactPairKeepsSnaps(l: Log, sku: string, n: NodeId, s: nat)
    ensures CompactPair(l, sku, n, s).snaps == l.snaps
  {
  }

  lemma NothingCompactedYet(l: Log, upTo: VersionVector)
    ensures CompactedOver(l, upTo, l, {})
  {
  }

  lemma CompactPairDeletes(l: Log, upTo: VersionVector, l1: Log, sku: string, n: NodeId)
    requires DeletesOnlySafe(l, upTo, l1) && sku in l.snaps
    ensures DeletesOnlySafe(l, upTo, CompactPair(l1, sku, n, Safe(l, sku, n, upTo)))
  {
    hide Safe, Stranded;
  }

  lemma CompactPairMark(l: Log, upTo: VersionVector, l1: Log, sku: string, n: NodeId)
    requires MarkRaised(l, upTo, l1) && sku in l.snaps
    ensures MarkRaised(l, upTo, CompactPair(l1, sku, n, Safe(l, sku, n, upTo)))
  {
  }

  lemma CompactPairKeepsDone(l: Log, upTo: VersionVector, l1: Log, sku: string, n: NodeId, sku': string, n': NodeId)
    requires sku in l.snaps && sku' in l.snaps && PairDone(l, upTo, l1, sku', n')
    ensures PairDone(l, upTo, CompactPair(l1, sku, n, Safe(l, sku, n, upTo)), sku', n')
  {
  }

  lemma CompactPairBlocked(l: Log, upTo: VersionVector, l1: Log, done: set<Pair>, sku: string, n: NodeId)
    requires BlockedStays(l, upTo, l1, done) && sku in l.snaps
    ensures BlockedStays(l, upTo, CompactPair(l1, sku, n, Safe(l, sku, n, upTo)), done + {(sku, n)})
  {
    hide Safe;
    var more, s := done + {(sku, n)}, Safe(l, sku, n, upTo);
    forall m | forall k :: (k, m) in more && k in l.snaps ==> Stranded(l.rows, m, Safe(l, k, m, upTo))
      ensures Untouched(l, CompactPair(l1, sku, n, s), m)
    {
      assert forall k :: (k, m) in done && k in l.snaps ==> (k, m) in more;
      assert Untouched(l, l1, m);
      if m == n {
        assert (sku, n) in more;
        var id :| id in l.rows && id.node == n && id.seqNo > s;
        assert id in l1.rows;
      }
    }
  }

  lemma CompactPairStep(l: Log, upTo: VersionVector, l1: Log, done: set<Pair>, sku: string, n: NodeId)
    requires CompactedOver(l, upTo, l1, done) && sku in l.snaps
    ensures CompactedOver(l, upTo, CompactPair(l1, sku, n, Safe(l, sku, n, upTo)), done + {(sku, n)})
  {
    var s := Safe(l, sku, n, upTo);
    var l2 := CompactPair(l1, sku, n, s);
    CompactPairDeletes(l, upTo, l1, sku, n);
    CompactPairMark(l, upTo, l1, sku, n);
    CompactPairBlocked(l, upTo, l1, done, sku, n);
    forall k, m | (k, m) in done + {(sku, n)} && k in l.snaps && !Stranded(l.rows, m, Safe(l, k, m, upTo))
      ensures PairDone(l, upTo, l2, k, m)
    {
      if (k, m) in done {
        CompactPairKeepsDone(l, upTo, l1, sku, n, k, m);
      } else {
        assert !Stranded(l1.rows, n, s);
      }
    }
  }

  lemma CompactedKeepsSnaps(l: Log, upTo: VersionVector, l': Log)
    requires Compacted(l, upTo, l')
    ensures l'.snaps == l.snaps
  {
  }

  /** What compaction does, for a SKU whose snapshot and upTo both name node n. If no row of n is
      numbered above the smaller of the two entries, every row of the SKU and node up to it is gone
      and the watermark has reached it. */
  lemma CompactionFrees(l: Log, upTo: VersionVector, l': Log, sku: string, n: NodeId)
    requires Compacted(l, upTo, l') && sku in l.snaps && n in l.snaps[sku].covers && n in upTo
    ensures var m := if upTo[n] < l.snaps[sku].covers[n] then upTo[n] else l.snaps[sku].covers[n];
            (forall id :: id in l.rows && id.node == n ==> id.seqNo <= m) ==>
              && At(l'.mark, n) >= m
              && forall id :: id in l'.rows && id.node == n && id.seqNo <= m ==> l'.rows[id].sku != sku
  {
    assert (sku, n) in GatedPairs(l, upTo);
  }

  /** If a later row stands in the way of every such SKU, or upTo does not name n, nothing of n
      changes. */
  lemma CompactionIsBlocked(l: Log, upTo: VersionVector, l': Log, n: NodeId)
    requires Compacted(l, upTo, l')
    requires forall sku :: sku in l.snaps && n in l.snaps[sku].covers && n in upTo ==>
               exists id :: id in l.rows && id.node == n && id.seqNo > (if upTo[n] < l.snaps[sku].covers[n] then upTo[n] else l.snaps[sku].covers[n])
    ensures At(l'.mark, n) == At(l.mark, n) && forall id: EventId :: id.node == n ==> (id in l'.rows <==> id in l.rows)
  {
    forall sku | (sku, n) in GatedPairs(l, upTo) && sku in l.snaps
      ensures Stranded(l.rows, n, Safe(l, sku, n, upTo))
    {
    }
    assert Untouched(l, l', n);
  }
}
