/** Every run of one log. A history pairs the log with everything it ever accepted; the four
    operations may come in any order, with gaps, duplicates, and re-delivery of compacted
    events. What is proved: reads, the version vector and number allocation behave as if no
    row had ever been deleted.
 */
module LogHistory {
  import opened Stamps
  import opened Events
  import opened Items
  import opened Logs

  type Accepted = map<EventId, Event>

  datatype History = History(log: Log, accepted: Accepted)

  /** What a set of replicated events must satisfy: an id names one valid event, and each
      origin's stamps rise with its sequence numbers. */
  ghost predicate Rising(acc: Accepted)
  {
    && (forall id :: id in acc ==> acc[id].id == id && Valid(acc[id]))
    && (forall a, b :: a in acc && b in acc && a.node == b.node && a.seqNo < b.seqNo ==> Before(acc[a].hlc, acc[b].hlc))
  }

  ghost predicate GapFree(acc: Accepted, n: NodeId, k: nat)
  {
    forall s :: 1 <= s <= k ==> EventId(n, s) in acc
  }

  /** k is the longest gap-free prefix of the numbers of n in acc. */
  ghost predicate IsPrefix(acc: Accepted, n: NodeId, k: nat)
  {
    GapFree(acc, n, k) && EventId(n, k + 1) !in acc
  }

  ghost function OfSku(acc: Accepted, sku: string): set<Event>
  {
    set id | id in acc && acc[id].sku == sku :: acc[id]
  }

  ghost function Covered(acc: Accepted, sku: string, vv: VersionVector): set<Event>
  {
    set id | id in acc && acc[id].sku == sku && Contains(vv, id) :: acc[id]
  }

  ghost predicate SoundSnapshot(s: Snapshot, sku: string, acc: Accepted)
  {
    && (forall n :: GapFree(acc, n, At(s.covers, n)))
    && s.state == Merged(Covered(acc, sku, s.covers))
  }

  /** A deleted event is folded into its SKU's snapshot and at or below the watermark. */
  ghost predicate Folded(l: Log, e: Event)
  {
    && e.sku in l.snaps && Contains(l.snaps[e.sku].covers, e.id)
    && Contains(l.mark, e.id)
  }

  ghost predicate Inv(h: History)
  {
    && Rising(h.accepted)
    && (forall id :: id in h.log.rows ==> id in h.accepted && h.accepted[id] == h.log.rows[id])
    && (forall n :: GapFree(h.accepted, n, At(h.log.mark, n)))
    && (forall sku :: sku in h.log.snaps ==> SoundSnapshot(h.log.snaps[sku], sku, h.accepted))
    && (forall id :: id in h.accepted && id !in h.log.rows ==> Folded(h.log, h.accepted[id]))
  }

  // ---------------------------------------------------------------- steps

  ghost predicate Init(h: History)
  {
    h == History(EMPTY_LOG, map[])
  }

  /** Delivery of e: a first sighting, a duplicate, or a copy of a row compacted away. A
      malformed event is refused. The log itself never checks that ids and stamps agree with
      what it holds; that is what the origins promise. */
  ghost predicate Append(h: History, h': History, e: Event)
  {
    && (Valid(e) ==> Rising(h.accepted[e.id := e]))
    && (Valid(e) && e.id in h.accepted ==> h.accepted[e.id] == e)
    && h'.log == Appended(h.log, e)
    && h'.accepted == (if Valid(e) then h.accepted[e.id := e] else h.accepted)
  }

  ghost predicate AppendLocal(h: History, h': History, e: Event)
  {
    && e.id.seqNo == NextSeq(h.log, e.id.node)
    && Valid(e) && Rising(h.accepted[e.id := e])
    && h'.log == Appended(h.log, e)
    && h'.accepted == h.accepted[e.id := e]
  }

  /** MaybeSnapshot past its threshold: scan the SKU's ordered rows from the stored snapshot. */
  ghost predicate TakeSnapshot(h: History, h': History, sku: string, order: seq<Event>)
  {
    && Enumerates(order, SkuRows(h.log, sku)) && Ordered(order)
    && h'.log == h.log.(snaps := h.log.snaps[sku := Scanned(order, QueryVector(h.log), BaseOf(h.log, sku))])
    && h'.accepted == h.accepted
  }

  ghost predicate Compact(h: History, h': History, upTo: VersionVector)
  {
    Compacted(h.log, upTo, h'.log) && h'.accepted == h.accepted
  }

  ghost predicate Step(h: History, h': History)
  {
    || h == h'
    || (exists e :: Append(h, h', e))
    || (exists e :: AppendLocal(h, h', e))
    || (exists sku, order :: TakeSnapshot(h, h', sku, order))
    || (exists upTo :: Compact(h, h', upTo))
  }

  ghost predicate Run(r: seq<History>)
  {
    && r != [] && Init(r[0])
    && forall i, j :: 0 <= i < j < |r| && j == i + 1 ==> Step(r[i], r[j])
  }

  // ---------------------------------------------------------------- consequences of Inv

  lemma RisingStampsDiffer(acc: Accepted, sku: string)
    requires Rising(acc)
    ensures DistinctStamps(OfSku(acc, sku))
  {
    forall d, e | d in OfSku(acc, sku) && e in OfSku(acc, sku) && d.hlc == e.hlc
      ensures d == e
    {
      assert acc[d.id] == d && acc[e.id] == e;
      BeforeTotal(d.hlc, d.hlc);
      assert d.id.seqNo < e.id.seqNo ==> Before(d.hlc, e.hlc);
      assert e.id.seqNo < d.id.seqNo ==> Before(e.hlc, d.hlc);
      assert d.id == e.id;
    }
  }

  /** The row-number query over surviving rows returns the gap-free prefix of everything ever
      accepted, for every node. */
  lemma VectorIsAcceptedPrefix(h: History, n: NodeId)
    requires Inv(h)
    ensures IsPrefix(h.accepted, n, At(QueryVector(h.log), n))
  {
    var f := At(QueryVector(h.log), n);
    QueryEndsRun(h.log, n);
    forall s | 1 <= s <= f
      ensures EventId(n, s) in h.accepted
    {
      if s <= At(h.log.mark, n) {
        assert GapFree(h.accepted, n, At(h.log.mark, n));
      } else {
        assert EventId(n, s) in h.log.rows;
      }
    }
    var next := EventId(n, f + 1);
    assert next in h.accepted ==> Folded(h.log, h.accepted[next]);
  }

  /** The rows a snapshot does not cover are exactly the accepted events it does not fold. */
  lemma UncoveredRowsAreUnfolded(h: History, sku: string)
    requires Inv(h)
    ensures Uncovered(SkuRows(h.log, sku), BaseOf(h.log, sku).covers)
         == OfSku(h.accepted, sku) - Covered(h.accepted, sku, BaseOf(h.log, sku).covers)
    ensures BaseOf(h.log, sku).state == Merged(Covered(h.accepted, sku, BaseOf(h.log, sku).covers))
  {
    var base := BaseOf(h.log, sku);
    var left := Uncovered(SkuRows(h.log, sku), base.covers);
    var right := OfSku(h.accepted, sku) - Covered(h.accepted, sku, base.covers);
    forall e | e in right
      ensures e in left
    {
      assert h.accepted[e.id] == e;
      assert e.id !in h.log.rows ==> Folded(h.log, e);
      assert e.id in h.log.rows;
    }
    forall e | e in left
      ensures e in right
    {
      assert h.log.rows[e.id] == e;
      assert e in Covered(h.accepted, sku, base.covers) ==> Contains(base.covers, e.id);
    }
    if sku !in h.log.snaps {
      assert forall id :: id in h.accepted ==> Valid(h.accepted[id]) && !Contains(map[], id);
      assert Covered(h.accepted, sku, map[]) == {};
    }
  }

  /** The result of Project: fold the rows the snapshot does not cover, in stamp order, on top of it. */
  function Projected(l: Log, sku: string, order: seq<Event>): Item
  {
    Fold(BaseOf(l, sku).state, order)
  }

  /** Reading a SKU gives one fold over every distinct event of that SKU ever accepted. */
  lemma ProjectFoldsEveryAcceptedEvent(h: History, sku: string, order: seq<Event>)
    requires Inv(h)
    requires Enumerates(order, Uncovered(SkuRows(h.log, sku), BaseOf(h.log, sku).covers))
    ensures Projected(h.log, sku, order) == Merged(OfSku(h.accepted, sku))
  {
    var all := OfSku(h.accepted, sku);
    var covered := Covered(h.accepted, sku, BaseOf(h.log, sku).covers);
    UncoveredRowsAreUnfolded(h, sku);
    RisingStampsDiffer(h.accepted, sku);
    assert covered <= all && covered + (all - covered) == all;
    FoldExtendsMerged(covered, order, all - covered);
  }

  // ---------------------------------------------------------------- every step keeps Inv

  lemma GrowingKeepsGapFree(acc: Accepted, acc': Accepted, n: NodeId, k: nat)
    requires GapFree(acc, n, k) && acc.Keys <= acc'.Keys
    ensures GapFree(acc', n, k)
  {
  }

  /** An event arriving below a gap-free bound has been accepted before. */
  lemma GrowingKeepsCovered(acc: Accepted, e: Event, sku: string, vv: VersionVector)
    requires Rising(acc) && Valid(e) && (e.id in acc ==> acc[e.id] == e)
    requires forall n :: GapFree(acc, n, At(vv, n))
    ensures Covered(acc[e.id := e], sku, vv) == Covered(acc, sku, vv)
  {
  }

  lemma AppendKeepsInv(h: History, h': History, e: Event)
    requires Inv(h) && Valid(e)
    requires Rising(h'.accepted) && (e.id in h.accepted ==> h.accepted[e.id] == e)
    requires h'.log == Appended(h.log, e) && h'.accepted == h.accepted[e.id := e]
    ensures Inv(h')
  {
    hide Rising, Covered, Merged, Valid;
    forall sku | sku in h'.log.snaps
      ensures SoundSnapshot(h'.log.snaps[sku], sku, h'.accepted)
    {
      assert SoundSnapshot(h.log.snaps[sku], sku, h.accepted);
      GrowingKeepsCovered(h.accepted, e, sku, h.log.snaps[sku].covers);
    }
    forall n
      ensures GapFree(h'.accepted, n, At(h'.log.mark, n))
    {
      GrowingKeepsGapFree(h.accepted, h'.accepted, n, At(h.log.mark, n));
    }
    forall id | id in h'.accepted && id !in h'.log.rows
      ensures Folded(h'.log, h'.accepted[id])
    {
      assert id in h.accepted && id !in h.log.rows;
    }
  }

  /** A local event gets the number one above the largest ever accepted from its node:
      none is issued twice and none is skipped, whatever compaction removed or re-delivery restored. */
  lemma NextSeqIsFresh(h: History, n: NodeId)
    requires Inv(h)
    ensures EventId(n, NextSeq(h.log, n)) !in h.accepted
    ensures forall id :: id in h.accepted && id.node == n ==> id.seqNo < NextSeq(h.log, n)
    ensures NextSeq(h.log, n) == 1 || EventId(n, NextSeq(h.log, n) - 1) in h.accepted
  {
    var top := MaxOf(SeqsOf(h.log, n));
    forall id | id in h.accepted && id.node == n
      ensures id.seqNo < NextSeq(h.log, n)
    {
      if id in h.log.rows {
        assert id.seqNo in SeqsOf(h.log, n);
      } else {
        assert Folded(h.log, h.accepted[id]);
      }
    }
    if top > At(h.log.mark, n) {
      assert top in SeqsOf(h.log, n);
    } else {
      assert GapFree(h.accepted, n, At(h.log.mark, n));
    }
  }

  /** Rows in stamp order have each origin's numbers rising, so the aliased scan misses nothing. */
  lemma StampOrderHasNoInversion(h: History, sku: string, order: seq<Event>, frontier: VersionVector, base: Snapshot)
    requires Inv(h) && Enumerates(order, SkuRows(h.log, sku)) && Ordered(order)
    ensures NoInversion(order, frontier, base)
  {
    forall i, j | 0 <= i < j < |order| && order[i].id.node == order[j].id.node
      ensures order[i].id.seqNo < order[j].id.seqNo
    {
      var d, e := order[i], order[j];
      assert d in order && e in order;
      assert h.accepted[d.id] == d && h.accepted[e.id] == e;
      assert d.id.seqNo > e.id.seqNo ==> Before(e.hlc, d.hlc);
      assert d.id.seqNo == e.id.seqNo ==> d.id == e.id;
    }
  }

  /** The covers vector after a scan stays at or below the accepted prefix, and between the old
      and the new entry the foldable rows are all the accepted events of the SKU. */
  lemma ScanReachesItsCovers(h: History, sku: string, order: seq<Event>)
    requires Inv(h) && Enumerates(order, SkuRows(h.log, sku)) && Ordered(order)
    ensures var base := BaseOf(h.log, sku);
            var f := QueryVector(h.log);
            var s := Scanned(order, f, base);
            && (forall n :: GapFree(h.accepted, n, At(s.covers, n)))
            && forall e :: e in TakenBy(order, f, base)
                 <==> e in Covered(h.accepted, sku, s.covers) - Covered(h.accepted, sku, base.covers)
  {
    var base, f := BaseOf(h.log, sku), QueryVector(h.log);
    var s := Scanned(order, f, base);
    StampOrderHasNoInversion(h, sku, order, f, base);
    ScanTakesAll(order, f, base);
    ScanFoldsTaken(order, f, base);
    UncoveredRowsAreUnfolded(h, sku);
    forall n
      ensures GapFree(h.accepted, n, At(s.covers, n))
    {
      ScannedCovers(order, f, base, n);
      VectorIsAcceptedPrefix(h, n);
      if sku in h.log.snaps {
        assert SoundSnapshot(h.log.snaps[sku], sku, h.accepted);
      }
    }
    var gained := Covered(h.accepted, sku, s.covers) - Covered(h.accepted, sku, base.covers);
    forall e | e in TakenBy(order, f, base)
      ensures e in gained
    {
      ScannedCovers(order, f, base, e.id.node);
      assert h.accepted[e.id] == e;
      assert e in Covered(h.accepted, sku, base.covers) ==> Contains(base.covers, e.id);
    }
    forall e | e in gained
      ensures e in TakenBy(order, f, base)
    {
      assert h.accepted[e.id] == e;
      assert e in Uncovered(SkuRows(h.log, sku), base.covers);
      ScannedCovers(order, f, base, e.id.node);
      assert Foldable(e, f, base);
    }
  }

  /** MaybeSnapshot stores the fold of exactly the accepted events its covers vector names,
      and covers no less than before. */
  lemma SnapshotIsSound(h: History, sku: string, order: seq<Event>)
    requires Inv(h) && Enumerates(order, SkuRows(h.log, sku)) && Ordered(order)
    ensures var s := Scanned(order, QueryVector(h.log), BaseOf(h.log, sku));
            && SoundSnapshot(s, sku, h.accepted)
            && forall n :: At(BaseOf(h.log, sku).covers, n) <= At(s.covers, n)
  {
    var base, f := BaseOf(h.log, sku), QueryVector(h.log);
    var s := Scanned(order, f, base);
    var before, after := Covered(h.accepted, sku, base.covers), Covered(h.accepted, sku, s.covers);
    forall n
      ensures At(base.covers, n) <= At(s.covers, n)
    {
      ScannedCovers(order, f, base, n);
    }
    ScanReachesItsCovers(h, sku, order);
    UncoveredRowsAreUnfolded(h, sku);
    ScanFoldsTaken(order, f, base);
    TakenIsDistinct(order, f, base);
    RisingStampsDiffer(h.accepted, sku);
    assert before <= after <= OfSku(h.accepted, sku);
    assert before + (after - before) == after;
    FoldExtendsMerged(before, TakenBy(order, f, base), after - before);
  }

  lemma SnapshotKeepsInv(h: History, h': History, sku: string, order: seq<Event>)
    requires Inv(h) && TakeSnapshot(h, h', sku, order)
    ensures Inv(h')
  {
    SnapshotIsSound(h, sku, order);
    forall id | id in h'.accepted && id !in h'.log.rows
      ensures Folded(h'.log, h'.accepted[id])
    {
      assert Folded(h.log, h.accepted[id]);
    }
  }

  lemma CompactKeepsMarkGapFree(h: History, h': History, upTo: VersionVector, n: NodeId)
    requires Inv(h) && Compact(h, h', upTo)
    ensures GapFree(h'.accepted, n, At(h'.log.mark, n))
  {
  }

  lemma CompactKeepsInv(h: History, h': History, upTo: VersionVector)
    requires Inv(h) && Compact(h, h', upTo)
    ensures Inv(h')
  {
    hide Covered, Merged;
    forall n
      ensures GapFree(h'.accepted, n, At(h'.log.mark, n))
    {
      CompactKeepsMarkGapFree(h, h', upTo, n);
    }
    forall id | id in h'.accepted && id !in h'.log.rows
      ensures Folded(h'.log, h'.accepted[id])
    {
      if id !in h.log.rows {
        assert Folded(h.log, h.accepted[id]);
        assert At(h.log.mark, id.node) <= At(h'.log.mark, id.node);
      }
    }
  }

  /** Compact with any argument leaves the version vector unchanged. */
  lemma CompactKeepsVector(h: History, h': History, upTo: VersionVector, n: NodeId)
    requires Inv(h) && Compact(h, h', upTo)
    ensures At(QueryVector(h'.log), n) == At(QueryVector(h.log), n)
  {
    CompactKeepsInv(h, h', upTo);
    VectorIsAcceptedPrefix(h, n);
    VectorIsAcceptedPrefix(h', n);
    PrefixIsUnique(h.accepted, n, At(QueryVector(h.log), n), At(QueryVector(h'.log), n));
  }

  lemma PrefixIsUnique(acc: Accepted, n: NodeId, j: nat, k: nat)
    requires IsPrefix(acc, n, j) && IsPrefix(acc, n, k)
    ensures j == k
  {
  }

  lemma StepKeepsInv(h: History, h': History)
    requires Inv(h) && Step(h, h')
    ensures Inv(h')
    ensures h.accepted.Keys <= h'.accepted.Keys
  {
    if e :| Append(h, h', e) {
      if Valid(e) { AppendKeepsInv(h, h', e); }
    } else if e :| AppendLocal(h, h', e) {
      NextSeqIsFresh(h, e.id.node);
      AppendKeepsInv(h, h', e);
    } else if sku, order :| TakeSnapshot(h, h', sku, order) {
      SnapshotKeepsInv(h, h', sku, order);
    } else if upTo :| Compact(h, h', upTo) {
      CompactKeepsInv(h, h', upTo);
    }
  }

  lemma {:induction false} RunKeepsInv(r: seq<History>, i: nat)
    requires Run(r) && i < |r|
    ensures Inv(r[i])
  {
    if i > 0 {
      RunKeepsInv(r, i - 1);
      StepKeepsInv(r[i - 1], r[i]);
    } else {
      assert Covered(map[], "", map[]) == {};
    }
  }

  // ---------------------------------------------------------------- the theorems, over whole runs

  /** In every state of every run: a read of any SKU is one fold of every distinct event of that
      SKU ever accepted, and the version vector is the gap-free prefix of everything accepted. */
  lemma EveryReadIsExact(r: seq<History>, i: nat, sku: string, order: seq<Event>, n: NodeId)
    requires Run(r) && i < |r|
    requires Enumerates(order, Uncovered(SkuRows(r[i].log, sku), BaseOf(r[i].log, sku).covers))
    ensures Projected(r[i].log, sku, order) == Merged(OfSku(r[i].accepted, sku))
    ensures IsPrefix(r[i].accepted, n, At(QueryVector(r[i].log), n))
  {
    RunKeepsInv(r, i);
    ProjectFoldsEveryAcceptedEvent(r[i], sku, order);
    VectorIsAcceptedPrefix(r[i], n);
  }

  lemma PrefixGrows(acc: Accepted, acc': Accepted, n: NodeId, p: nat, q: nat)
    requires acc.Keys <= acc'.Keys && IsPrefix(acc, n, p) && IsPrefix(acc', n, q)
    ensures p <= q
  {
  }

  lemma StepKeepsVector(h: History, h': History, n: NodeId)
    requires Inv(h) && Step(h, h')
    ensures At(QueryVector(h.log), n) <= At(QueryVector(h'.log), n)
  {
    StepKeepsInv(h, h');
    VectorIsAcceptedPrefix(h, n);
    VectorIsAcceptedPrefix(h', n);
    PrefixGrows(h.accepted, h'.accepted, n, At(QueryVector(h.log), n), At(QueryVector(h'.log), n));
  }

  /** No step ever lowers an entry of the version vector. */
  lemma {:induction false} VectorNeverFalls(r: seq<History>, i: nat, j: nat, n: NodeId)
    requires Run(r) && i <= j < |r|
    ensures At(QueryVector(r[i].log), n) <= At(QueryVector(r[j].log), n)
    decreases j
  {
    hide QueryVector, Step, Inv;
    if i < j {
      VectorNeverFalls(r, i, j - 1, n);
      RunKeepsInv(r, j - 1);
      StepKeepsVector(r[j - 1], r[j], n);
    }
  }
}
