/** The SQLite log and the projector as they run: fields updated in place, loops over ordered
    rows. Each method is proved to do what the value-level model of module Logs says.
 */
module LogStore {
  import opened Stamps
  import opened Events
  import opened Items
  import opened Logs
  import opened LogHistory

  predicate Earliest(e: Event, es: set<Event>)
  {
    e in es && forall x :: x in es ==> !Before(x.hlc, e.hlc)
  }

  lemma {:induction false} EarliestExists(es: set<Event>)
    requires es != {}
    ensures exists e :: Earliest(e, es)
    decreases |es|
  {
    hide Before;
    var a :| a in es;
    var rest := es - {a};
    assert es == rest + {a};
    if rest == {} {
      BeforeTotal(a.hlc, a.hlc);
      assert Earliest(a, es);
    } else {
      EarliestExists(rest);
      var b :| Earliest(b, rest);
      EarlierOfTwo(rest, a, b);
      assert Earliest(a, es) || Earliest(b, es);
    }
  }

  lemma EarlierOfTwo(rest: set<Event>, a: Event, b: Event)
    requires Earliest(b, rest)
    ensures Earliest(if Before(a.hlc, b.hlc) then a else b, rest + {a})
  {
    hide Before;
    BeforeTotal(a.hlc, a.hlc);
    forall x | x in rest && Before(a.hlc, b.hlc)
      ensures !Before(x.hlc, a.hlc)
    {
      if Before(x.hlc, a.hlc) { BeforeTransitive(x.hlc, a.hlc, b.hlc); }
    }
  }

  /** ORDER BY hlc_wall, hlc_logical, node_id. */
  method OrderByStamp(es: set<Event>) returns (order: seq<Event>)
    ensures Enumerates(order, es) && Ordered(order)
  {
    order := [];
    var left := es;
    while left != {}
      invariant left <= es
      invariant Enumerates(order, es - left) && Ordered(order)
      invariant forall d, e :: d in order && e in left ==> !Before(e.hlc, d.hlc)
      decreases |left|
    {
      EarliestExists(left);
      var e :| Earliest(e, left);
      assert e !in order;
      order := order + [e];
      left := left - {e};
    }
  }

  class SqliteLog {
    var rows: map<EventId, Event>
    var snaps: map<string, Snapshot>
    var mark: VersionVector

    function Value(): Log
      reads this
    {
      Log(rows, snaps, mark)
    }

    constructor ()
      ensures Value() == EMPTY_LOG
    {
      rows, snaps, mark := map[], map[], map[];
    }

    /** Idempotent on the id: a stored row is never replaced. */
    method Append(e: Event) returns (r: Result<EventId>)
      modifies this
      ensures Value() == Appended(old(Value()), e)
      ensures r == if Valid(e) then Ok(e.id) else Malformed
      ensures rows == if Valid(e) && e.id !in old(rows) then old(rows)[e.id := e] else old(rows)
    {
      if !Valid(e) {
        return Malformed;
      }
      if e.id !in rows {
        rows := rows[e.id := e];
      }
      r := Ok(e.id);
    }

    /** Allocates the number after the larger of the surviving maximum and the watermark. The
        minted event carries whatever number mint is given. */
    method AppendLocal(mint: nat -> Event) returns (r: Result<Event>)
      modifies this
      ensures var e := mint(NextSeq(old(Value()), mint(0).id.node));
              if Valid(e) then r == Ok(e) && Value() == Appended(old(Value()), e)
              else r.Malformed? && Value() == old(Value())
    {
      var n := mint(0).id.node;
      var top: nat := 0;
      var left := rows.Keys;
      while left != {}
        invariant left <= rows.Keys
        invariant forall id :: id in rows.Keys - left && id.node == n ==> id.seqNo <= top
        invariant top == 0 || EventId(n, top) in rows
        decreases |left|
      {
        var id :| id in left;
        if id.node == n && id.seqNo > top {
          top := id.seqNo;
        }
        left := left - {id};
      }
      MaxIs(SeqsOf(Value(), n), top);
      var e := mint((if top > At(mark, n) then top else At(mark, n)) + 1);
      if !Valid(e) {
        return Malformed;
      }
      if e.id !in rows {
        rows := rows[e.id := e];
      }
      r := Ok(e);
    }

    /** Streams the rows vv does not cover in stamp order. */
    method Since(vv: VersionVector) returns (order: seq<Event>)
      ensures Enumerates(order, SinceSet(Value(), vv)) && Ordered(order)
      ensures forall e :: e in order <==> exists id :: id in rows && rows[id] == e && id.seqNo > At(vv, id.node)
    {
      order := OrderByStamp(SinceSet(Value(), vv));
    }

    /** Per node, the end of the gap-free run that continues the watermark. */
    method GetVersionVector() returns (vv: VersionVector)
      ensures vv == QueryVector(Value())
      ensures forall n :: EndsRun(Value(), n, At(vv, n))
    {
      vv := QueryVector(Value());
      forall n
        ensures EndsRun(Value(), n, At(vv, n))
      {
        QueryEndsRun(Value(), n);
      }
    }

    /** Deletes what the snapshots and upTo both let go. Where no later row of a node stands in the
        way, everything they let go is gone and the watermark is there; a node with a later row in
        the way of every SKU is left alone. */
    method Compact(upTo: VersionVector)
      modifies this
      ensures Compacted(old(Value()), upTo, Value())
      ensures forall acc :: Inv(History(old(Value()), acc)) ==> Inv(History(Value(), acc))
      ensures forall sku, n :: sku in snaps && n in snaps[sku].covers && n in upTo ==>
                var m := if upTo[n] < snaps[sku].covers[n] then upTo[n] else snaps[sku].covers[n];
                (forall id :: id in old(rows) && id.node == n ==> id.seqNo <= m) ==>
                  At(mark, n) >= m && forall id :: id in rows && id.node == n && id.seqNo <= m ==> rows[id].sku != sku
    {
      hide Inv, Compacted;
      ghost var was := Value();
      VisitPairs(upTo);
      assert snaps == was.snaps by { CompactedKeepsSnaps(was, upTo, Value()); }
      forall sku, n | sku in snaps && n in snaps[sku].covers && n in upTo
        ensures var m := if upTo[n] < snaps[sku].covers[n] then upTo[n] else snaps[sku].covers[n];
                (forall id :: id in was.rows && id.node == n ==> id.seqNo <= m) ==>
                  At(mark, n) >= m && forall id :: id in rows && id.node == n && id.seqNo <= m ==> rows[id].sku != sku
      {
        CompactionFrees(was, upTo, Value(), sku, n);
      }
      forall acc | Inv(History(was, acc))
        ensures Inv(History(Value(), acc))
      {
        CompactKeepsInv(History(was, acc), History(Value(), acc), upTo);
      }
    }

    /** The nested loops over the SKUs with a snapshot and the nodes both gates name. */
    method VisitPairs(upTo: VersionVector)
      modifies this
      ensures Compacted(old(Value()), upTo, Value())
    {
      ghost var was := Value();
      NothingCompactedYet(was, upTo);
      hide CompactedOver, CompactPair;
      ghost var done: set<Pair> := {};
      var skus := snaps.Keys;
      while skus != {}
        invariant skus <= was.snaps.Keys && snaps == was.snaps
        invariant CompactedOver(was, upTo, Value(), done) && done <= GatedPairs(was, upTo)
        invariant forall p :: p in GatedPairs(was, upTo) && p.0 !in skus ==> p in done
        decreases |skus|
      {
        var sku :| sku in skus;
        var covers := snaps[sku].covers;
        var nodes := set n | n in covers && n in upTo;
        while nodes != {}
          invariant nodes <= upTo.Keys && nodes <= covers.Keys && snaps == was.snaps
          invariant CompactedOver(was, upTo, Value(), done) && done <= GatedPairs(was, upTo)
          invariant forall p :: p in GatedPairs(was, upTo) && p.0 !in skus ==> p in done
          invariant forall n :: n in covers && n in upTo && n !in nodes ==> (sku, n) in done
          decreases |nodes|
        {
          var n :| n in nodes;
          var safe := if upTo[n] < At(covers, n) then upTo[n] else At(covers, n);
          ghost var before := Value();
          CompactPairStep(was, upTo, Value(), done, sku, n);
          CompactOne(sku, n, safe);
          assert snaps == was.snaps by { CompactPairKeepsSnaps(before, sku, n, safe); }
          done := done + {(sku, n)};
          nodes := nodes - {n};
        }
        skus := skus - {sku};
      }
      assert done == GatedPairs(was, upTo);
    }

    /** The body of the inner loop of Compact, one transaction statement at a time. */
    method CompactOne(sku: string, n: NodeId, safe: nat)
      modifies this
      ensures Value() == CompactPair(old(Value()), sku, n, safe)
    {
      var stranded := exists id :: id in rows && id.node == n && id.seqNo > safe;
      if stranded {
        return;
      }
      mark := Observe(mark, EventId(n, safe));
      rows := map id | id in rows && !(id.node == n && id.seqNo <= safe && rows[id].sku == sku) :: rows[id];
    }
  }

  lemma MaxIs(s: set<nat>, top: nat)
    requires forall x :: x in s ==> x <= top
    requires top == 0 || top in s
    ensures MaxOf(s) == top
  {
  }

  class Projector {
    const log: SqliteLog
    const snapshotEvery: int

    constructor (log: SqliteLog, snapshotEvery: int)
      ensures this.log == log && this.snapshotEvery == snapshotEvery
    {
      this.log := log;
      this.snapshotEvery := snapshotEvery;
    }

    /** Loads the snapshot and applies the rows it does not cover. With distinct stamps the
        outcome does not depend on the order; it is then the merge the rows stand for. */
    method Project(sku: string) returns (s: Item, ghost order: seq<Event>)
      ensures Enumerates(order, Uncovered(SkuRows(log.Value(), sku), BaseOf(log.Value(), sku).covers)) && Ordered(order)
      ensures s == Projected(log.Value(), sku, order)
      ensures forall acc :: Inv(History(log.Value(), acc)) ==> s == Merged(OfSku(acc, sku))
    {
      var base := BaseOf(log.Value(), sku);
      var state := new ItemState(base.state);
      var stream := OrderByStamp(Uncovered(SkuRows(log.Value(), sku), base.covers));
      for i := 0 to |stream|
        invariant state.Value() == Fold(base.state, stream[..i])
      {
        FoldSnoc(base.state, stream[..i], stream[i]);
        assert stream[..i + 1] == stream[..i] + [stream[i]];
        state.Apply(stream[i]);
      }
      assert stream[..|stream|] == stream;
      s, order := state.Value(), stream;
      forall acc | Inv(History(log.Value(), acc))
        ensures s == Merged(OfSku(acc, sku))
      {
        ProjectFoldsEveryAcceptedEvent(History(log.Value(), acc), sku, order);
      }
    }

    /** Writes a snapshot once the SKU has enough rows. The loop consults covers, which it also
        updates, to decide which rows the stream skips. */
    method MaybeSnapshot(sku: string) returns (ghost order: seq<Event>)
      modifies log
      ensures Enumerates(order, SkuRows(old(log.Value()), sku)) && Ordered(order)
      ensures log.Value() ==
              if snapshotEvery <= 0 || |SkuRows(old(log.Value()), sku)| < snapshotEvery then old(log.Value())
              else old(log.Value()).(snaps := old(log.Value()).snaps[sku :=
                     Scanned(order, QueryVector(old(log.Value())), BaseOf(old(log.Value()), sku))])
      ensures forall acc :: Inv(History(old(log.Value()), acc)) ==> Inv(History(log.Value(), acc))
    {
      hide Inv;
      var stream := OrderByStamp(SkuRows(log.Value(), sku));
      order := stream;
      if snapshotEvery <= 0 || |SkuRows(log.Value(), sku)| < snapshotEvery {
        return;
      }
      var frontier := QueryVector(log.Value());
      var base := BaseOf(log.Value(), sku);
      var state := new ItemState(base.state);
      var covers := base.covers;
      for i := 0 to |stream|
        invariant log.Value() == old(log.Value())
        invariant Snapshot(state.Value(), covers) == Scanned(stream[..i], frontier, base)
      {
        var e := stream[i];
        assert stream[..i + 1][..i] == stream[..i];
        if Contains(covers, e.id) {
          continue;
        }
        if e.id.seqNo > At(frontier, e.id.node) {
          continue;
        }
        state.Apply(e);
        covers := Observe(covers, e.id);
      }
      assert stream[..|stream|] == stream;
      log.snaps := log.snaps[sku := Snapshot(state.Value(), covers)];
      forall acc | Inv(History(old(log.Value()), acc))
        ensures Inv(History(log.Value(), acc))
      {
        SnapshotKeepsInv(History(old(log.Value()), acc), History(log.Value(), acc), sku, order);
      }
    }
  }
}
