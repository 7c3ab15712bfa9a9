/** One replica: an identity, a log, a clock and a projector over the log. */
module Nodes {
  import opened Stamps
  import Clock
  import opened Events
  import opened Items
  import opened Logs
  import opened LogHistory
  import opened LogStore
  import opened Cluster

  /** Every event of es is held, unchanged, by some node of the cluster. */
  ghost predicate AllHeld(net: Net, es: seq<Event>)
  {
    forall e :: e in es ==> HeldSomewhere(net, e)
  }

  ghost predicate HeldSomewhere(net: Net, e: Event)
  {
    exists i :: i in net && e.id in net[i].h.accepted && net[i].h.accepted[e.id] == e
  }

  /** acc' is acc and the events of es, nothing more. */
  ghost predicate Gains(acc: Accepted, acc': Accepted, es: seq<Event>)
  {
    && Extends(acc, acc')
    && (forall e :: e in es ==> e.id in acc' && acc'[e.id] == e)
    && (forall id :: id in acc' ==> id in acc || exists e :: e in es && e.id == id)
  }

  lemma GainsMore(acc: Accepted, acc1: Accepted, acc2: Accepted, es: seq<Event>, fs: seq<Event>)
    requires Gains(acc, acc1, es) && Gains(acc1, acc2, fs)
    ensures Gains(acc, acc2, es + fs)
  {
  }

  /** Delivering one held event keeps the cluster sound and adds just that event. */
  lemma DeliverGains(net: Net, j: NodeId, e: Event, wall: Int64)
    requires NetInv(net) && j in net && HeldSomewhere(net, e)
    ensures var p := Delivered(j, net[j], e, wall);
            NetInv(net[j := p]) && Valid(e) && Gains(net[j].h.accepted, p.h.accepted, [e])
  {
    hide NetInv, Valid, Rising, Appended;
    var i :| i in net && e.id in net[i].h.accepted && net[i].h.accepted[e.id] == e;
    DeliverKeepsInv(net, i, j, e, wall);
    HeldEventFits(net, i, j, e);
    var p := Delivered(j, net[j], e, wall);
    assert forall id :: id in p.h.accepted && id !in net[j].h.accepted ==> e in [e] && e.id == id;
  }

  lemma StillSomewhere(net: Net, j: NodeId, p: Peer, e: Event)
    requires HeldSomewhere(net, e) && j in net && Extends(net[j].h.accepted, p.h.accepted)
    ensures HeldSomewhere(net[j := p], e)
  {
    var i :| i in net && e.id in net[i].h.accepted && net[i].h.accepted[e.id] == e;
    assert i in net[j := p] && net[j := p][i].h.accepted[e.id] == e;
  }

  /** The history after delivering es in order, malformed events left out. */
  ghost function Absorbed(h: History, es: seq<Event>): History
  {
    if es == [] then h else Accept(Absorbed(h, es[..|es| - 1]), es[|es| - 1])
  }

  function CountValid(es: seq<Event>): nat
  {
    if es == [] then 0 else CountValid(es[..|es| - 1]) + if Valid(es[|es| - 1]) then 1 else 0
  }

  /** It counts exactly the valid ones. */
  lemma {:induction false} CountsTheValid(es: seq<Event>)
    ensures CountValid(es) == |set i | 0 <= i < |es| && Valid(es[i])|
  {
    hide Valid;
    var all := set i | 0 <= i < |es| && Valid(es[i]);
    if es == [] {
      assert all == {};
    } else {
      var n := |es| - 1;
      CountsTheValid(es[..n]);
      var init := set i | 0 <= i < |es[..n]| && Valid(es[..n][i]);
      assert all == if Valid(es[n]) then init + {n} else init;
    }
  }

  /** The clock after observing the stamp of every valid event of es in turn, walls(i) being the wall
      reading at the i-th. */
  function Observed(id: NodeId, last: Hlc, es: seq<Event>, walls: nat -> Int64): Hlc
  {
    if es == [] then last
    else
      var n := |es| - 1;
      var before := Observed(id, last, es[..n], walls);
      if Valid(es[n]) then Clock.Ticked(id, walls(n), before, es[n].hlc) else before
  }

  /** No reading on the way is saturated. */
  ghost predicate Roomy(id: NodeId, last: Hlc, es: seq<Event>, walls: nat -> Int64)
  {
    forall i :: 0 <= i < |es| ==> !Clock.Saturated(es[i].hlc) && !Clock.Saturated(Observed(id, last, es[..i], walls))
  }

  /** After a batch the clock is past the stamp of every event of it that was accepted, and not before
      where it was; what was not accepted is not observed. */
  lemma {:induction false} ObservedIsPast(id: NodeId, last: Hlc, es: seq<Event>, walls: nat -> Int64, i: nat)
    requires last.node == id && Roomy(id, last, es, walls)
    ensures Observed(id, last, es, walls).node == id && !Before(Observed(id, last, es, walls), last)
    ensures i < |es| && Valid(es[i]) ==> Before(es[i].hlc, Observed(id, last, es, walls))
    ensures (forall j :: 0 <= j < |es| ==> !Valid(es[j])) ==> Observed(id, last, es, walls) == last
  {
    hide Valid, Before, Clock.Ticked, Clock.Saturated;
    BeforeTotal(last, last);
    if es != [] {
      var n := |es| - 1;
      var init, now := es[..n], Observed(id, last, es[..n], walls);
      assert forall j :: 0 <= j < n ==> init[j] == es[j] && init[..j] == es[..j];
      ObservedIsPast(id, last, init, walls, i);
      Clock.TickSortsAfterIff(id, walls(n), now, es[n].hlc);
      if Valid(es[n]) {
        var next := Clock.Ticked(id, walls(n), now, es[n].hlc);
        if i < n && Valid(es[i]) { BeforeTransitive(es[i].hlc, now, next); }
        if Before(next, last) {
          BeforeTransitive(now, next, last);
        }
      }
    }
  }

  /** What a merge into node i achieves in a sound cluster that holds every event merged: the
      cluster stays sound and i has gained exactly those events. */
  ghost predicate MergedSoundly(net: Net, i: NodeId, p: Peer, p': Peer, es: seq<Event>)
  {
    NetInv(net) && i in net && net[i] == p && AllHeld(net, es) ==>
      NetInv(net[i := p']) && Gains(p.h.accepted, p'.h.accepted, es) && CountValid(es) == |es|
  }

  lemma MergedOneMore(net: Net, i: NodeId, p: Peer, p': Peer, es: seq<Event>, e: Event, wall: Int64)
    requires MergedSoundly(net, i, p, p', es)
    ensures MergedSoundly(net, i, p, Delivered(i, p', e, wall), es + [e])
  {
    hide NetInv, Valid, Gains, Delivered;
    if NetInv(net) && i in net && net[i] == p && AllHeld(net, es + [e]) {
      assert forall d :: d in es ==> d in es + [e];
      assert (es + [e])[..|es|] == es && e in es + [e];
      var q := Delivered(i, p', e, wall);
      GainsExtends(p.h.accepted, p'.h.accepted, es);
      StillSomewhere(net, i, p', e);
      DeliverGains(net[i := p'], i, e, wall);
      GainsMore(p.h.accepted, p'.h.accepted, q.h.accepted, es, [e]);
      assert net[i := p'][i := q] == net[i := q];
    }
  }

  lemma GainsExtends(acc: Accepted, acc': Accepted, es: seq<Event>)
    requires Gains(acc, acc', es)
    ensures Extends(acc, acc')
  {
  }

  lemma MergedNothing(net: Net, i: NodeId, p: Peer)
    ensures MergedSoundly(net, i, p, p, [])
  {
    assert i in net && net[i] == p ==> net[i := p] == net;
  }

  class Node {
    const id: NodeId
    const log: SqliteLog
    const clk: Clock.NodeClock
    const projector: Projector
    ghost var accepted: Accepted

    ghost function ThePeer(): Peer
      reads this, log, clk
    {
      Peer(History(log.Value(), accepted), clk.last)
    }

    ghost predicate Valid()
      reads this, clk
    {
      clk.Valid() && clk.id == id && projector.log == log
    }

    /** Opens a node over a log, which may hold events already: the clock starts over and observes
        the largest stored stamp. */
    constructor (id: NodeId, log: SqliteLog, snapshotEvery: int, wall: Int64, ghost accepted: Accepted)
      requires forall i :: i in log.rows ==> i.seqNo > 0
      ensures Valid() && this.id == id && this.log == log && fresh(clk) && this.accepted == accepted
      ensures exists m :: IsRecoveredStamp(log.Value(), m)
                && clk.last == if m == ZERO_STAMP then Hlc(0, 0, id) else Clock.Ticked(id, wall, Hlc(0, 0, id), m)
    {
      this.id := id;
      this.log := log;
      this.accepted := accepted;
      this.clk := new Clock.NodeClock(id);
      this.projector := new Projector(log, snapshotEvery);
      new;
      RecoverClock(wall);
    }

    method RecoverClock(wall: Int64)
      requires Valid() && clk.last == Hlc(0, 0, id) && forall i :: i in log.rows ==> i.seqNo > 0
      modifies clk
      ensures Valid()
      ensures exists m :: IsRecoveredStamp(log.Value(), m)
                && clk.last == if m == ZERO_STAMP then Hlc(0, 0, id) else Clock.Ticked(id, wall, Hlc(0, 0, id), m)
    {
      hide Clock.Ticked;
      var stream := log.Since(map[]);
      var top := ZERO_STAMP;
      BeforeTotal(top, top);
      hide Before;
      for i := 0 to |stream|
        invariant clk.last == Hlc(0, 0, id) && !Before(top, ZERO_STAMP)
        invariant top == ZERO_STAMP || exists k :: 0 <= k < i && stream[k].hlc == top
        invariant forall k :: 0 <= k < i ==> !Before(top, stream[k].hlc)
      {
        var t := stream[i].hlc;
        BeforeTotal(top, t);
        BeforeTotal(t, t);
        if Before(top, t) {
          LaterThanAll(stream[..i], top, t);
          assert forall k :: 0 <= k < i ==> stream[..i][k] == stream[k];
          top := t;
          assert stream[i].hlc == top;
        }
      }
      assert IsRecoveredStamp(log.Value(), top) by { RecoveredFrom(log.Value(), stream, top); }
      if top != ZERO_STAMP {
        var _ := clk.Observe(top, wall);
      }
    }

    static lemma LaterThanAll(seen: seq<Event>, top: Hlc, t: Hlc)
      requires Before(top, t) && !Before(top, ZERO_STAMP) && forall k :: 0 <= k < |seen| ==> !Before(top, seen[k].hlc)
      ensures !Before(t, ZERO_STAMP) && forall k :: 0 <= k < |seen| ==> !Before(t, seen[k].hlc)
    {
      hide Before;
      if Before(t, ZERO_STAMP) { BeforeTransitive(top, t, ZERO_STAMP); }
      forall k | 0 <= k < |seen|
        ensures !Before(t, seen[k].hlc)
      {
        if Before(t, seen[k].hlc) { BeforeTransitive(top, t, seen[k].hlc); }
      }
    }

    /** What a scan of every row finds is the recovered stamp. Rows are numbered from one, so the
        empty vector covers none of them. */
    static lemma RecoveredFrom(l: Log, stream: seq<Event>, top: Hlc)
      requires Enumerates(stream, SinceSet(l, map[])) && forall i :: i in l.rows ==> i.seqNo > 0
      requires !Before(top, ZERO_STAMP) && (top == ZERO_STAMP || exists k :: 0 <= k < |stream| && stream[k].hlc == top)
      requires forall k :: 0 <= k < |stream| ==> !Before(top, stream[k].hlc)
      ensures IsRecoveredStamp(l, top)
    {
      hide Before;
      if top != ZERO_STAMP {
        var k :| 0 <= k < |stream| && stream[k].hlc == top;
        assert stream[k] in stream && stream[k] in SinceSet(l, map[]);
      }
      forall i | i in l.rows
        ensures !Before(top, l.rows[i].hlc)
      {
        assert !Contains(map[], i) && l.rows[i] in SinceSet(l, map[]);
        var k :| 0 <= k < |stream| && stream[k] == l.rows[i];
      }
    }

    /** Snapshots do not touch what the node holds or its clock. */
    method Reconcile(sku: string)
      requires Valid()
      modifies log
      ensures Valid() && clk.last == old(clk.last) && log.rows == old(log.rows)
      ensures forall net :: NetInv(net) && id in net && net[id] == old(ThePeer()) ==> NetInv(net[id := ThePeer()])
    {
      hide NetInv, Inv;
      ghost var was := ThePeer();
      ghost var order := projector.MaybeSnapshot(sku);
      forall net | NetInv(net) && id in net && net[id] == was
        ensures NetInv(net[id := ThePeer()])
      {
        if ThePeer() == was {
          assert net[id := was] == net;
        } else {
          SnapshotAtKeepsInv(net, net[id := ThePeer()], id, sku, order, ThePeer().h);
        }
      }
    }

    /** Stamps, appends and snapshots one locally originated event. */
    method Emit(draft: Event, wall: Int64) returns (r: Result<EventId>)
      requires Valid()
      modifies this`accepted, log, clk
      ensures Valid()
      ensures draft.sku == "" ==> r.Malformed? && ThePeer() == old(ThePeer())
      ensures draft.sku != "" ==>
                && accepted == Emitted(id, old(ThePeer()), draft, wall).h.accepted
                && clk.last == Emitted(id, old(ThePeer()), draft, wall).last
                && r == (var e := Minted(id, old(log.Value()), old(clk.last), draft, wall); if Events.Valid(e) then Ok(e.id) else Malformed)
      ensures r.Ok? <==> Events.Valid(draft.(id := EventId(id, 1), hlc := Hlc(0, 0, id)))
      ensures r.Ok? ==>
                && r.value.node == id
                && accepted == old(accepted)[r.value := Event(r.value, clk.last, draft.sku, draft.kind, draft.delta, draft.meta, draft.deletedTo)]
      ensures r.Malformed? ==> accepted == old(accepted) && log.rows == old(log.rows)
      ensures forall net :: NetInv(net) && ClocksAhead(net) && id in net && net[id] == old(ThePeer()) && !Clock.Saturated(old(clk.last)) ==>
                NetInv(net[id := ThePeer()]) && ClocksAhead(net[id := ThePeer()])
    {
      hide NetInv, ClocksAhead, NextSeq, Clock.Ticked, Events.Valid;
      ghost var was := ThePeer();
      if draft.sku == "" {
        NoSku(draft.(id := EventId(id, 1), hlc := Hlc(0, 0, id)));
        forall net: Net | id in net && net[id] == was
          ensures net[id := ThePeer()] == net
        {
        }
        return Malformed;
      }
      DraftIsValid(id, was, draft, wall);
      var stamp := clk.Now(wall);
      var me := id;
      var minted := log.AppendLocal((s: nat) => draft.(id := EventId(me, s), hlc := stamp));
      ghost var e := Minted(id, was.h.log, was.last, draft, wall);
      if minted.Ok? {
        accepted := accepted[e.id := e];
      }
      ghost var mid := ThePeer();
      assert mid == Emitted(id, was, draft, wall);
      r := if minted.Ok? then Ok(minted.value.id) else Malformed;
      Reconcile(draft.sku);
      forall net | NetInv(net) && ClocksAhead(net) && id in net && net[id] == was && !Clock.Saturated(was.last)
        ensures NetInv(net[id := ThePeer()]) && ClocksAhead(net[id := ThePeer()])
      {
        assert Cluster.Emit(net, net[id := mid], id, draft, wall);
        EmitKeepsInv(net, net[id := mid], id, draft, wall);
        assert net[id := mid][id := ThePeer()] == net[id := ThePeer()];
        StillAhead(net[id := mid], id, ThePeer());
      }
    }

    static lemma DraftIsValid(i: NodeId, p: Peer, draft: Event, wall: Int64)
      requires p.last.node == i
      ensures Events.Valid(Minted(i, p.h.log, p.last, draft, wall)) <==> Events.Valid(draft.(id := EventId(i, 1), hlc := Hlc(0, 0, i)))
    {
      NextSeqPositive(p.h.log, i);
      TickKeepsNode(i, wall, p.last);
      hide NextSeq, Clock.Ticked;
    }

    static lemma NoSku(e: Event)
      requires e.sku == ""
      ensures !Events.Valid(e)
    {
    }

    static lemma TickKeepsNode(i: NodeId, wall: Int64, last: Hlc)
      ensures Clock.Ticked(i, wall, last, Hlc(0, 0, i)).node == i
    {
    }

    /** An inbound quantity: a positive delta. */
    method Receive(sku: string, qty: Int64, wall: Int64) returns (r: Result<EventId>)
      requires Valid() && id != ""
      modifies this`accepted, log, clk
      ensures Valid() && (r.Ok? <==> sku != "" && qty > 0) && (r.Malformed? ==> accepted == old(accepted) && log.rows == old(log.rows))
      ensures r.Ok? ==> r.value.node == id && accepted == old(accepted)[r.value := Event(r.value, clk.last, sku, KIND_QUANTITY_DELTA, qty, None, None)]
    {
      hide Minted, Emitted, NetInv, ClocksAhead;
      if qty <= 0 {
        return Malformed;
      }
      r := Emit(Event(EventId(id, 0), ZERO_STAMP, sku, KIND_QUANTITY_DELTA, qty, None, None), wall);
    }

    /** An outbound quantity: a negative delta. More than is on hand may be picked. */
    method Pick(sku: string, qty: Int64, wall: Int64) returns (r: Result<EventId>)
      requires Valid() && id != ""
      modifies this`accepted, log, clk
      ensures Valid() && (r.Ok? <==> sku != "" && qty > 0) && (r.Malformed? ==> accepted == old(accepted) && log.rows == old(log.rows))
      ensures r.Ok? ==> r.value.node == id && accepted == old(accepted)[r.value := Event(r.value, clk.last, sku, KIND_QUANTITY_DELTA, -qty, None, None)]
    {
      hide Minted, Emitted, NetInv, ClocksAhead;
      if qty <= 0 {
        return Malformed;
      }
      r := Emit(Event(EventId(id, 0), ZERO_STAMP, sku, KIND_QUANTITY_DELTA, -qty, None, None), wall);
    }

    /** Metadata: what is not given is left untouched. */
    method SetMeta(sku: string, name: Option<string>, reorderPoint: Option<Int64>, wall: Int64) returns (r: Result<EventId>)
      requires Valid() && id != ""
      modifies this`accepted, log, clk
      ensures Valid() && (r.Ok? <==> sku != "" && (name.Some? || reorderPoint.Some?))
      ensures r.Malformed? ==> accepted == old(accepted) && log.rows == old(log.rows)
      ensures r.Ok? ==>
                r.value.node == id && accepted == old(accepted)[r.value := Event(r.value, clk.last, sku, KIND_META_SET, 0, Some(MetaSet(name, reorderPoint)), None)]
    {
      hide Minted, Emitted, NetInv, ClocksAhead;
      if name.None? && reorderPoint.None? {
        return Malformed;
      }
      r := Emit(Event(EventId(id, 0), ZERO_STAMP, sku, KIND_META_SET, 0, Some(MetaSet(name, reorderPoint)), None), wall);
    }

    /** The tombstone, set or cleared. */
    method Delete(sku: string, deleted: bool, wall: Int64) returns (r: Result<EventId>)
      requires Valid() && id != ""
      modifies this`accepted, log, clk
      ensures Valid() && (r.Ok? <==> sku != "") && (r.Malformed? ==> accepted == old(accepted) && log.rows == old(log.rows))
      ensures r.Ok? ==> r.value.node == id && accepted == old(accepted)[r.value := Event(r.value, clk.last, sku, KIND_DELETE_SET, 0, None, Some(deleted))]
    {
      hide Minted, Emitted, NetInv, ClocksAhead;
      r := Emit(Event(EventId(id, 0), ZERO_STAMP, sku, KIND_DELETE_SET, 0, None, Some(deleted)), wall);
    }

    static lemma StillAhead(net: Net, i: NodeId, p: Peer)
      requires ClocksAhead(net) && i in net && p.h.accepted == net[i].h.accepted && p.last == net[i].last
      ensures ClocksAhead(net[i := p])
    {
    }

    /** Appends remote events, observing the stamp of each accepted one, and snapshots every SKU
        touched. A malformed event is skipped; the rest of the batch goes on. */
    method Merge(es: seq<Event>, walls: nat -> Int64, ghost net: Net) returns (n: nat)
      requires Valid()
      modifies this`accepted, log, clk
      ensures Valid() && n == CountValid(es) && clk.last == Observed(id, old(clk.last), es, walls)
      ensures accepted == Absorbed(old(ThePeer()).h, es).accepted && log.rows == Absorbed(old(ThePeer()).h, es).log.rows
      ensures MergedSoundly(net, id, old(ThePeer()), ThePeer(), es)
    {
      hide Events.Valid, NetInv, MergedSoundly, Clock.Ticked;
      ghost var was := ThePeer();
      n := 0;
      var touched: set<string> := {};
      MergedNothing(net, id, was);
      for i := 0 to |es|
        invariant Valid() && n == CountValid(es[..i]) && clk.last == Observed(id, was.last, es[..i], walls)
        invariant History(log.Value(), accepted) == Absorbed(was.h, es[..i])
        invariant MergedSoundly(net, id, was, ThePeer(), es[..i])
      {
        var e := es[i];
        assert es[..i + 1] == es[..i] + [e] && es[..i + 1][..i] == es[..i];
        ghost var before := ThePeer();
        var wall := walls(i);
        MergedOneMore(net, id, was, before, es[..i], e, wall);
        var stored := log.Append(e);
        if stored.Malformed? {
          assert ThePeer() == Delivered(id, before, e, wall);
          continue;
        }
        var _ := clk.Observe(e.hlc, wall);
        accepted := accepted[e.id := e];
        n := n + 1;
        touched := touched + {e.sku};
        assert ThePeer() == Delivered(id, before, e, wall);
      }
      assert es[..|es|] == es;
      while touched != {}
        invariant Valid() && clk.last == Observed(id, was.last, es, walls)
        invariant accepted == Absorbed(was.h, es).accepted && log.rows == Absorbed(was.h, es).log.rows
        invariant MergedSoundly(net, id, was, ThePeer(), es)
        decreases |touched|
      {
        var sku :| sku in touched;
        ghost var before := ThePeer();
        Reconcile(sku);
        SnapshotSoundly(net, id, was, before, ThePeer(), es);
        touched := touched - {sku};
      }
    }

    static lemma SnapshotSoundly(net: Net, i: NodeId, p: Peer, q: Peer, q': Peer, es: seq<Event>)
      requires MergedSoundly(net, i, p, q, es) && q'.h.accepted == q.h.accepted
      requires forall net' :: NetInv(net') && i in net' && net'[i] == q ==> NetInv(net'[i := q'])
      ensures MergedSoundly(net, i, p, q', es)
    {
      hide NetInv;
      assert i in net ==> net[i := q][i := q'] == net[i := q'];
    }
  }
}
