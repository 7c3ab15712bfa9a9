/** Every run of a cluster of replicas: local writes with arbitrary wall readings, delivery of
    any event in any order any number of times, snapshots, compaction up to what every peer
    has acked, and restarts before compaction.
 */
module Cluster {
  import opened Stamps
  import opened Clock
  import opened Events
  import opened Items
  import opened Logs
  import opened LogHistory

  datatype Peer = Peer(h: History, last: Hlc)

  type Net = map<NodeId, Peer>

  // ---------------------------------------------------------------- what one node does

  /** The event a local operation mints: the next number, and a stamp past the clock. */
  function Minted(id: NodeId, l: Log, last: Hlc, draft: Event, wall: Int64): Event
  {
    draft.(id := EventId(id, NextSeq(l, id)), hlc := Ticked(id, wall, last, Hlc(0, 0, id)))
  }

  ghost function Accept(h: History, e: Event): History
  {
    if Valid(e) then History(Appended(h.log, e), h.accepted[e.id := e]) else h
  }

  ghost function Emitted(id: NodeId, p: Peer, draft: Event, wall: Int64): Peer
  {
    var e := Minted(id, p.h.log, p.last, draft, wall);
    Peer(Accept(p.h, e), e.hlc)
  }

  ghost function Delivered(id: NodeId, p: Peer, e: Event, wall: Int64): Peer
  {
    if Valid(e) then Peer(Accept(p.h, e), Ticked(id, wall, p.last, e.hlc)) else p
  }

  /** The largest stamp among the rows, never below the zero stamp: what recoverClock observes. */
  ghost predicate IsRecoveredStamp(l: Log, m: Hlc)
  {
    && (m == ZERO_STAMP || exists id :: id in l.rows && l.rows[id].hlc == m)
    && !Before(m, ZERO_STAMP)
    && forall id :: id in l.rows ==> !Before(m, l.rows[id].hlc)
  }

  // ---------------------------------------------------------------- steps of the cluster

  ghost predicate Init(net: Net)
  {
    forall i :: i in net ==> net[i] == Peer(History(EMPTY_LOG, map[]), Hlc(0, 0, i))
  }

  ghost predicate Emit(net: Net, net': Net, i: NodeId, draft: Event, wall: Int64)
  {
    i in net && !Saturated(net[i].last) && net' == net[i := Emitted(i, net[i], draft, wall)]
  }

  /** Any event some node has accepted may arrive at j: late, again, or out of order. */
  ghost predicate Deliver(net: Net, net': Net, j: NodeId, e: Event, wall: Int64)
  {
    && j in net && !Saturated(net[j].last) && !Saturated(e.hlc)
    && (exists i :: i in net && e.id in net[i].h.accepted && net[i].h.accepted[e.id] == e)
    && net' == net[j := Delivered(j, net[j], e, wall)]
  }

  ghost predicate SnapshotAt(net: Net, net': Net, i: NodeId, sku: string, order: seq<Event>, h': History)
  {
    i in net && TakeSnapshot(net[i].h, h', sku, order) && net' == net[i := net[i].(h := h')]
  }

  /** upTo is at or below what every other node reports holding. */
  ghost predicate AckedByPeers(net: Net, i: NodeId, upTo: VersionVector)
  {
    forall j, n :: j in net && j != i ==> At(upTo, n) <= At(QueryVector(net[j].h.log), n)
  }

  ghost predicate CompactAt(net: Net, net': Net, i: NodeId, upTo: VersionVector, h': History)
  {
    i in net && AckedByPeers(net, i, upTo) && Compact(net[i].h, h', upTo) && net' == net[i := net[i].(h := h')]
  }

  /** A restart before compaction: the clock starts over and observes the largest stored stamp. */
  ghost predicate Restart(net: Net, net': Net, i: NodeId, wall: Int64, m: Hlc)
  {
    && i in net && net[i].h.log.rows.Keys == net[i].h.accepted.Keys
    && IsRecoveredStamp(net[i].h.log, m) && !Saturated(m)
    && net' == net[i := net[i].(last := if m == ZERO_STAMP then Hlc(0, 0, i) else Ticked(i, wall, Hlc(0, 0, i), m))]
  }

  ghost predicate Step(net: Net, net': Net)
  {
    || net == net'
    || (exists i, draft, wall :: Emit(net, net', i, draft, wall))
    || (exists j, e, wall :: Deliver(net, net', j, e, wall))
    || (exists i, sku, order, h' :: SnapshotAt(net, net', i, sku, order, h'))
    || (exists i, upTo, h' :: CompactAt(net, net', i, upTo, h'))
    || (exists i, wall, m :: Restart(net, net', i, wall, m))
  }

  ghost predicate Run(r: seq<Net>)
  {
    && r != [] && Init(r[0])
    && forall i, j :: 0 <= i < j < |r| && j == i + 1 ==> Step(r[i], r[j])
  }

  // ---------------------------------------------------------------- the invariant

  /** The clock is at or past every stamp the node holds, and past the zero stamp. */
  ghost predicate ClockAhead(i: NodeId, p: Peer)
  {
    && p.last.node == i && !Before(p.last, ZERO_STAMP)
    && forall id :: id in p.h.accepted ==> !Before(p.last, p.h.accepted[id].hlc)
  }

  ghost predicate OwnGapFree(i: NodeId, acc: Accepted)
  {
    forall id :: id in acc && id.node == i ==> GapFree(acc, i, id.seqNo)
  }

  /** Whatever a node holds, its origin is in the cluster and holds it too. */
  ghost predicate FromOrigin(net: Net, acc: Accepted)
  {
    forall id :: id in acc ==> id.node in net && id in net[id.node].h.accepted && net[id.node].h.accepted[id] == acc[id]
  }

  ghost predicate HeldByAll(net: Net, id: EventId)
  {
    forall j :: j in net ==> id in net[j].h.accepted
  }

  /** What compaction has removed anywhere is held everywhere. */
  ghost predicate RemovedIsHeld(net: Net, h: History)
  {
    forall id :: id in h.accepted && id !in h.log.rows ==> HeldByAll(net, id)
  }

  ghost predicate NodeOk(net: Net, i: NodeId)
    requires i in net
  {
    var p := net[i];
    && Inv(p.h) && OwnGapFree(i, p.h.accepted)
    && FromOrigin(net, p.h.accepted) && RemovedIsHeld(net, p.h)
  }

  /** What holds of the data whatever the clocks do. */
  ghost predicate NetInv(net: Net)
  {
    forall i :: i in net ==> NodeOk(net, i)
  }

  ghost predicate ClocksAhead(net: Net)
  {
    forall i :: i in net ==> ClockAhead(i, net[i])
  }

  lemma NodeFacts(net: Net, i: NodeId)
    requires NetInv(net) && i in net
    ensures Inv(net[i].h) && OwnGapFree(i, net[i].h.accepted)
    ensures FromOrigin(net, net[i].h.accepted) && RemovedIsHeld(net, net[i].h)
  {
  }

  /** An event held anywhere is held, unchanged, by its origin. */
  lemma OriginHolds(net: Net, i: NodeId, id: EventId)
    requires NetInv(net) && i in net && id in net[i].h.accepted
    ensures id.node in net && id in net[id.node].h.accepted && net[id.node].h.accepted[id] == net[i].h.accepted[id]
  {
    hide NetInv;
    NodeFacts(net, i);
  }

  lemma HistoryFacts(h: History)
    requires Inv(h)
    ensures Rising(h.accepted)
  {
  }

  ghost predicate Extends(acc: Accepted, acc': Accepted)
  {
    forall id :: id in acc ==> id in acc' && acc'[id] == acc[id]
  }

  /** The cluster after node i became p, when p holds at least as much: only i needs a look. */
  lemma OneNodeChanged(net: Net, i: NodeId, p: Peer)
    requires NetInv(net) && i in net && Extends(net[i].h.accepted, p.h.accepted)
    requires Inv(p.h) && OwnGapFree(i, p.h.accepted)
    requires FromOrigin(net[i := p], p.h.accepted) && RemovedIsHeld(net[i := p], p.h)
    ensures NetInv(net[i := p])
  {
    hide Inv, OwnGapFree, FromOrigin, RemovedIsHeld, Extends;
    forall k | k in net && k != i
      ensures NodeOk(net[i := p], k)
    {
      assert NodeOk(net, k);
      StillFromOrigin(net, i, p, net[k].h.accepted);
      StillHeld(net, i, p, net[k].h);
    }
  }

  lemma StillFromOrigin(net: Net, i: NodeId, p: Peer, acc: Accepted)
    requires i in net && FromOrigin(net, acc) && Extends(net[i].h.accepted, p.h.accepted)
    ensures FromOrigin(net[i := p], acc)
  {
  }

  lemma StillHeld(net: Net, i: NodeId, p: Peer, h: History)
    requires i in net && RemovedIsHeld(net, h) && Extends(net[i].h.accepted, p.h.accepted)
    ensures RemovedIsHeld(net[i := p], h)
  {
  }

  // ---------------------------------------------------------------- every step keeps it

  /** An event some node holds fits every node: it does not clash with what is held there and
      keeps stamps rising with numbers. */
  lemma HeldEventFits(net: Net, i: NodeId, j: NodeId, e: Event)
    requires NetInv(net) && i in net && j in net
    requires e.id in net[i].h.accepted && net[i].h.accepted[e.id] == e
    ensures Valid(e)
    ensures e.id in net[j].h.accepted ==> net[j].h.accepted[e.id] == e
    ensures Rising(net[j].h.accepted[e.id := e])
  {
    hide NetInv, Inv, Rising;
    var o := e.id.node;
    OriginHolds(net, i, e.id);
    NodeFacts(net, j);
    HistoryFacts(net[j].h);
    NodeFacts(net, o);
    HistoryFacts(net[o].h);
    hide FromOrigin;
    if e.id in net[j].h.accepted { OriginHolds(net, j, e.id); }
    forall a | a in net[j].h.accepted && a.node == o
      ensures a in net[o].h.accepted && net[o].h.accepted[a] == net[j].h.accepted[a]
    {
      OriginHolds(net, j, a);
    }
    RisingWithOrigin(net[j].h.accepted, net[o].h.accepted, e);
  }

  /** Adding what the origin holds keeps an origin's stamps rising, when all the rest is from it too. */
  lemma RisingWithOrigin(acc: Accepted, own: Accepted, e: Event)
    requires Rising(acc) && Rising(own) && e.id in own && own[e.id] == e
    requires forall a :: a in acc && a.node == e.id.node ==> a in own && own[a] == acc[a]
    ensures Rising(acc[e.id := e]) && Valid(e)
  {
  }

  /** A stamp emitted past the clock sorts strictly after every stamp the node holds, so an
      origin's own stamps rise with its numbers. */
  lemma MintedFits(i: NodeId, p: Peer, draft: Event, wall: Int64)
    requires Inv(p.h) && ClockAhead(i, p) && !Saturated(p.last)
    ensures var e := Minted(i, p.h.log, p.last, draft, wall);
            && Before(p.last, e.hlc) && e.hlc.node == i
            && (forall id :: id in p.h.accepted ==> Before(p.h.accepted[id].hlc, e.hlc))
            && e.id !in p.h.accepted && (Valid(e) ==> Rising(p.h.accepted[e.id := e]))
  {
    hide Ticked, Before, Inv, NextSeq, Valid;
    var e := Minted(i, p.h.log, p.last, draft, wall);
    HistoryFacts(p.h);
    TickSortsAfterIff(i, wall, p.last, Hlc(0, 0, i));
    NextSeqIsFresh(p.h, i);
    forall id | id in p.h.accepted
      ensures Before(p.h.accepted[id].hlc, e.hlc)
    {
      NotAfterThenBefore(p.h.accepted[id].hlc, p.last, e.hlc);
    }
  }

  lemma ClockStaysAhead(i: NodeId, p: Peer, p': Peer, e: Event)
    requires ClockAhead(i, p) && p'.last.node == i && Before(p.last, p'.last) && !Before(p'.last, e.hlc)
    requires p'.h.accepted == p.h.accepted || p'.h.accepted == p.h.accepted[e.id := e]
    ensures ClockAhead(i, p')
  {
  }

  /** Accepting e at node i, whether e is its own next event or one its origin holds. */
  lemma AcceptedKeepsInv(net: Net, i: NodeId, p: Peer, e: Event)
    requires NetInv(net) && i in net && Valid(e) && p.h == Accept(net[i].h, e)
    requires Rising(p.h.accepted) && (e.id in net[i].h.accepted ==> net[i].h.accepted[e.id] == e)
    requires if e.id.node == i then GapFree(p.h.accepted, i, e.id.seqNo)
             else e.id.node in net && e.id in net[e.id.node].h.accepted && net[e.id.node].h.accepted[e.id] == e
    ensures NetInv(net[i := p])
  {
    hide NetInv, Inv, Valid, Rising;
    var q := net[i];
    NodeFacts(net, i);
    AppendKeepsInv(q.h, p.h, e);
    forall id | id in p.h.accepted && id.node == i
      ensures GapFree(p.h.accepted, i, id.seqNo)
    {
      if id in q.h.accepted { GrowingKeepsGapFree(q.h.accepted, p.h.accepted, i, id.seqNo); }
    }
    AcceptedFromOrigin(net, i, p, e);
    assert RemovedIsHeld(net, p.h) by {
      hide HeldByAll;
    }
    StillHeld(net, i, p, p.h);
    OneNodeChanged(net, i, p);
  }

  lemma AcceptedFromOrigin(net: Net, i: NodeId, p: Peer, e: Event)
    requires i in net && FromOrigin(net, net[i].h.accepted)
    requires p.h.accepted == net[i].h.accepted[e.id := e] && Extends(net[i].h.accepted, p.h.accepted)
    requires e.id.node != i ==> e.id.node in net && e.id in net[e.id.node].h.accepted && net[e.id.node].h.accepted[e.id] == e
    ensures FromOrigin(net[i := p], p.h.accepted)
  {
  }

  lemma EmitKeepsInv(net: Net, net': Net, i: NodeId, draft: Event, wall: Int64)
    requires NetInv(net) && ClocksAhead(net) && Emit(net, net', i, draft, wall)
    ensures NetInv(net') && ClocksAhead(net')
  {
    hide NetInv, Inv, Valid, Before, Rising, NextSeq, Ticked;
    var p, p' := net[i], net'[i];
    var e := Minted(i, p.h.log, p.last, draft, wall);
    NodeFacts(net, i);
    MintedFits(i, p, draft, wall);
    BeforeTotal(e.hlc, e.hlc);
    ClockStaysAhead(i, p, p', e);
    if Valid(e) {
      NextSeqIsFresh(p.h, i);
      assert GapFree(p'.h.accepted, i, e.id.seqNo);
      AcceptedKeepsInv(net, i, p', e);
    } else {
      StillFromOrigin(net, i, p', p.h.accepted);
      StillHeld(net, i, p', p.h);
      OneNodeChanged(net, i, p');
    }
  }

  /** Delivery keeps the data invariant even when a saturated stamp breaks the clock. */
  lemma DeliverKeepsInv(net: Net, i: NodeId, j: NodeId, e: Event, wall: Int64)
    requires NetInv(net) && i in net && j in net
    requires e.id in net[i].h.accepted && net[i].h.accepted[e.id] == e
    ensures NetInv(net[j := Delivered(j, net[j], e, wall)]) && Valid(e)
  {
    hide NetInv, Inv, Valid, Rising, Ticked;
    HeldEventFits(net, i, j, e);
    OriginHolds(net, i, e.id);
    NodeFacts(net, j);
    assert e.id.node == j ==> net[j].h.accepted[e.id := e] == net[j].h.accepted;
    AcceptedKeepsInv(net, j, Delivered(j, net[j], e, wall), e);
  }

  lemma DeliverKeepsClocks(net: Net, net': Net, j: NodeId, e: Event, wall: Int64)
    requires ClocksAhead(net) && Deliver(net, net', j, e, wall)
    ensures ClocksAhead(net')
  {
    hide Valid, Before, Ticked;
    if Valid(e) {
      TickSortsAfterIff(j, wall, net[j].last, e.hlc);
      BeforeTotal(e.hlc, net'[j].last);
      ClockStaysAhead(j, net[j], net'[j], e);
    }
  }

  lemma SameAcceptedKeepsInv(net: Net, i: NodeId, p: Peer)
    requires NetInv(net) && i in net && p.h.accepted == net[i].h.accepted
    requires Inv(p.h) && RemovedIsHeld(net, p.h)
    ensures NetInv(net[i := p])
  {
    hide NetInv, Inv;
    NodeFacts(net, i);
    StillFromOrigin(net, i, p, p.h.accepted);
    StillHeld(net, i, p, p.h);
    OneNodeChanged(net, i, p);
  }

  lemma SnapshotAtKeepsInv(net: Net, net': Net, i: NodeId, sku: string, order: seq<Event>, h': History)
    requires NetInv(net) && SnapshotAt(net, net', i, sku, order, h')
    ensures NetInv(net')
  {
    hide NetInv, Inv, HeldByAll;
    NodeFacts(net, i);
    SnapshotKeepsInv(net[i].h, h', sku, order);
    SameAcceptedKeepsInv(net, i, net'[i]);
  }

  /** A row compaction deletes at i is below what every peer holds without gaps, so no peer lacks it. */
  lemma CompactionIsAcked(net: Net, i: NodeId, upTo: VersionVector, h': History, id: EventId, j: NodeId)
    requires NetInv(net) && i in net && j in net && AckedByPeers(net, i, upTo) && Compact(net[i].h, h', upTo)
    requires id in net[i].h.log.rows && id !in h'.log.rows && id in net[i].h.accepted
    ensures id in net[j].h.accepted
  {
    hide NetInv, Inv, QueryVector;
    NodeFacts(net, i);
    NodeFacts(net, j);
    if j != i {
      HistoryFacts(net[i].h);
      VectorIsAcceptedPrefix(net[j].h, id.node);
      var e := net[i].h.log.rows[id];
      assert id.seqNo <= Safe(net[i].h.log, e.sku, id.node, upTo) <= At(upTo, id.node);
      assert At(upTo, id.node) <= At(QueryVector(net[j].h.log), id.node);
      assert Valid(net[i].h.accepted[id]);
      assert EventId(id.node, id.seqNo) in net[j].h.accepted;
    }
  }

  lemma CompactAtKeepsInv(net: Net, net': Net, i: NodeId, upTo: VersionVector, h': History)
    requires NetInv(net) && CompactAt(net, net', i, upTo, h')
    ensures NetInv(net')
  {
    hide NetInv, Inv, AckedByPeers, FromOrigin;
    NodeFacts(net, i);
    CompactKeepsInv(net[i].h, h', upTo);
    forall id | id in h'.accepted && id !in h'.log.rows
      ensures HeldByAll(net, id)
    {
      if id in net[i].h.log.rows {
        forall j | j in net
          ensures id in net[j].h.accepted
        {
          CompactionIsAcked(net, i, upTo, h', id, j);
        }
      }
    }
    hide Compact, HeldByAll;
    SameAcceptedKeepsInv(net, i, net'[i]);
  }

  lemma RestartKeepsInv(net: Net, net': Net, i: NodeId, wall: Int64, m: Hlc)
    requires NetInv(net) && Restart(net, net', i, wall, m)
    ensures NetInv(net')
  {
    hide NetInv, Inv, HeldByAll, FromOrigin;
    NodeFacts(net, i);
    SameAcceptedKeepsInv(net, i, net'[i]);
  }

  /** The clock a restarted node recovers is past every stamp it holds. */
  lemma RecoveredClockIsAhead(i: NodeId, p: Peer, p': Peer, wall: Int64, m: Hlc)
    requires Inv(p.h) && p.h.log.rows.Keys == p.h.accepted.Keys && IsRecoveredStamp(p.h.log, m) && !Saturated(m)
    requires p' == p.(last := if m == ZERO_STAMP then Hlc(0, 0, i) else Ticked(i, wall, Hlc(0, 0, i), m))
    ensures ClockAhead(i, p')
  {
    TickSortsAfterIff(i, wall, Hlc(0, 0, i), m);
    assert forall id :: id in p.h.accepted ==> p.h.log.rows[id] == p.h.accepted[id];
    NamesAntisymmetric(i, "");
    hide Ticked, Before, Inv;
    BeforeTotal(p'.last, m);
    BeforeTotal(p'.last, ZERO_STAMP);
    forall id | id in p.h.accepted
      ensures !Before(p'.last, p.h.accepted[id].hlc)
    {
      var t := p.h.accepted[id].hlc;
      assert !Before(m, t);
      BeforeTotal(m, t);
      if Before(p'.last, t) {
        if m == ZERO_STAMP { NotAfterThenBefore(m, p'.last, t); } else { BeforeTransitive(m, p'.last, t); }
      }
    }
    if Before(p'.last, ZERO_STAMP) && m != ZERO_STAMP { BeforeTransitive(m, p'.last, ZERO_STAMP); }
  }

  lemma SameAcceptedKeepsClock(i: NodeId, p: Peer, p': Peer)
    requires ClockAhead(i, p) && p'.h.accepted == p.h.accepted && p'.last == p.last
    ensures ClockAhead(i, p')
  {
  }

  lemma StepKeepsInv(net: Net, net': Net)
    requires NetInv(net) && ClocksAhead(net) && Step(net, net')
    ensures NetInv(net') && ClocksAhead(net')
  {
    hide NetInv, ClockAhead;
    if i, draft, wall :| Emit(net, net', i, draft, wall) {
      EmitKeepsInv(net, net', i, draft, wall);
    } else if j, e, wall :| Deliver(net, net', j, e, wall) {
      var i :| i in net && e.id in net[i].h.accepted && net[i].h.accepted[e.id] == e;
      DeliverKeepsInv(net, i, j, e, wall);
      DeliverKeepsClocks(net, net', j, e, wall);
    } else if i, sku, order, h' :| SnapshotAt(net, net', i, sku, order, h') {
      SnapshotAtKeepsInv(net, net', i, sku, order, h');
      SameAcceptedKeepsClock(i, net[i], net'[i]);
    } else if i, upTo, h' :| CompactAt(net, net', i, upTo, h') {
      CompactAtKeepsInv(net, net', i, upTo, h');
      SameAcceptedKeepsClock(i, net[i], net'[i]);
    } else if i, wall, m :| Restart(net, net', i, wall, m) {
      RestartKeepsInv(net, net', i, wall, m);
      NodeFacts(net, i);
      RecoveredClockIsAhead(i, net[i], net'[i], wall, m);
    }
  }

  lemma InitHolds(net: Net)
    requires Init(net)
    ensures NetInv(net) && ClocksAhead(net)
  {
  }

  lemma {:induction false} RunKeepsInv(r: seq<Net>, k: nat)
    requires Run(r) && k < |r|
    ensures NetInv(r[k]) && ClocksAhead(r[k])
  {
    hide NetInv, ClocksAhead, Step, Init;
    if k == 0 {
      InitHolds(r[0]);
    } else {
      RunKeepsInv(r, k - 1);
      StepKeepsInv(r[k - 1], r[k]);
    }
  }

  // ---------------------------------------------------------------- the theorems

  /** No accepted event becomes undeliverable: whatever i holds and j lacks is still a row at i,
      and i sends it when j reports its version vector. */
  lemma NothingIsUndeliverable(net: Net, i: NodeId, j: NodeId, id: EventId)
    requires NetInv(net) && i in net && j in net
    requires id in net[i].h.accepted && id !in net[j].h.accepted
    ensures net[i].h.accepted[id] in SinceSet(net[i].h.log, QueryVector(net[j].h.log))
  {
    hide NetInv, QueryVector, FromOrigin;
    NodeFacts(net, i);
    NodeFacts(net, j);
    VectorIsAcceptedPrefix(net[j].h, id.node);
    assert id !in net[i].h.log.rows ==> HeldByAll(net, id);
    assert id.seqNo >= 1 by { HistoryFacts(net[i].h); }
    assert EventId(id.node, id.seqNo) == id;
  }

  /** The same, of every state of every run. */
  lemma DeliverableInEveryRun(r: seq<Net>, k: nat, i: NodeId, j: NodeId, id: EventId)
    requires Run(r) && k < |r| && i in r[k] && j in r[k]
    requires id in r[k][i].h.accepted && id !in r[k][j].h.accepted
    ensures r[k][i].h.accepted[id] in SinceSet(r[k][i].h.log, QueryVector(r[k][j].h.log))
  {
    hide NetInv, ClocksAhead, Step, Init, QueryVector;
    RunKeepsInv(r, k);
    NothingIsUndeliverable(r[k], i, j, id);
  }

  ghost predicate VectorsAgree(net: Net)
  {
    forall i, j, n :: i in net && j in net ==> At(QueryVector(net[i].h.log), n) == At(QueryVector(net[j].h.log), n)
  }

  lemma AgreementMeansHeld(net: Net, i: NodeId, j: NodeId, id: EventId)
    requires NetInv(net) && VectorsAgree(net) && i in net && j in net && id in net[i].h.accepted
    ensures id in net[j].h.accepted && net[j].h.accepted[id] == net[i].h.accepted[id]
  {
    hide NetInv, QueryVector, Inv, FromOrigin;
    var o := id.node;
    OriginHolds(net, i, id);
    NodeFacts(net, i);
    NodeFacts(net, j);
    NodeFacts(net, o);
    HistoryFacts(net[i].h);
    assert id.seqNo >= 1 && EventId(o, id.seqNo) == id;
    assert GapFree(net[o].h.accepted, o, id.seqNo);
    VectorIsAcceptedPrefix(net[o].h, o);
    VectorIsAcceptedPrefix(net[j].h, o);
    assert id.seqNo <= At(QueryVector(net[o].h.log), o) == At(QueryVector(net[j].h.log), o);
    OriginHolds(net, j, id);
  }

  /** Convergence: all version vectors agree if and only if all nodes hold the same events, whatever
      they compacted or stored past a gap on the way. */
  lemma AgreementIsConvergence(net: Net)
    requires NetInv(net)
    ensures VectorsAgree(net) <==> forall i, j :: i in net && j in net ==> net[i].h.accepted == net[j].h.accepted
  {
    hide NetInv, QueryVector, Inv;
    if VectorsAgree(net) {
      forall i, j | i in net && j in net
        ensures net[i].h.accepted == net[j].h.accepted
      {
        forall id | id in net[i].h.accepted
          ensures id in net[j].h.accepted && net[j].h.accepted[id] == net[i].h.accepted[id]
        {
          AgreementMeansHeld(net, i, j, id);
        }
        forall id | id in net[j].h.accepted
          ensures id in net[i].h.accepted
        {
          AgreementMeansHeld(net, j, i, id);
        }
      }
    }
    if forall i, j :: i in net && j in net ==> net[i].h.accepted == net[j].h.accepted {
      forall i, j, n | i in net && j in net
        ensures At(QueryVector(net[i].h.log), n) == At(QueryVector(net[j].h.log), n)
      {
        NodeFacts(net, i);
        NodeFacts(net, j);
        VectorIsAcceptedPrefix(net[i].h, n);
        VectorIsAcceptedPrefix(net[j].h, n);
        PrefixIsUnique(net[i].h.accepted, n, At(QueryVector(net[i].h.log), n), At(QueryVector(net[j].h.log), n));
      }
    }
  }

  /** Agreeing nodes project the identical item state, each from its own snapshot and rows. */
  lemma AgreeingNodesReadTheSame(r: seq<Net>, k: nat, i: NodeId, j: NodeId, sku: string, atI: seq<Event>, atJ: seq<Event>)
    requires Run(r) && k < |r| && VectorsAgree(r[k]) && i in r[k] && j in r[k]
    requires var l := r[k][i].h.log; Enumerates(atI, Uncovered(SkuRows(l, sku), BaseOf(l, sku).covers))
    requires var l := r[k][j].h.log; Enumerates(atJ, Uncovered(SkuRows(l, sku), BaseOf(l, sku).covers))
    ensures Projected(r[k][i].h.log, sku, atI) == Projected(r[k][j].h.log, sku, atJ)
  {
    hide NetInv, Step, Init, VectorsAgree, Inv, Projected, Enumerates;
    RunKeepsInv(r, k);
    AgreementIsConvergence(r[k]);
    NodeFacts(r[k], i);
    NodeFacts(r[k], j);
    ProjectFoldsEveryAcceptedEvent(r[k][i].h, sku, atI);
    ProjectFoldsEveryAcceptedEvent(r[k][j].h, sku, atJ);
  }

  /** The node gains one event, which is the draft under a new number and the clock's stamp. */
  lemma EmittedIsDraft(net: Net, net': Net, i: NodeId, draft: Event, wall: Int64) returns (id: EventId)
    requires NetInv(net) && ClocksAhead(net) && Emit(net, net', i, draft, wall)
    requires Valid(draft.(id := EventId(i, 1), hlc := Hlc(0, 0, i)))
    ensures id.node == i && i in net && i in net' && id !in net[i].h.accepted
    ensures net'[i].h.accepted == net[i].h.accepted[id := Event(id, net'[i].last, draft.sku, draft.kind, draft.delta, draft.meta, draft.deletedTo)]
    ensures forall d :: d in net[i].h.accepted ==> Before(net[i].h.accepted[d].hlc, net'[i].last)
    ensures Before(ZERO_STAMP, net'[i].last) && Rising(net'[i].h.accepted)
    ensures Valid(net'[i].h.accepted[id])
  {
    hide NetInv, Inv, Before, NextSeq, Ticked;
    var p := net[i];
    NodeFacts(net, i);
    MintedFits(i, p, draft, wall);
    var e := Minted(i, p.h.log, p.last, draft, wall);
    NextSeqPositive(p.h.log, i);
    assert Valid(e);
    NotAfterThenBefore(ZERO_STAMP, p.last, e.hlc);
    id := e.id;
  }

  lemma NextSeqPositive(l: Log, i: NodeId)
    ensures NextSeq(l, i) > 0
  {
  }

  /** Applying an event newer than every register: the registers it writes take its values. */
  lemma NewestWrites(s: Item, e: Event)
    requires Before(s.name.at, e.hlc) && Before(s.reorderPoint.at, e.hlc) && Before(s.deleted.at, e.hlc) && Valid(e)
    ensures var s' := Applied(s, e);
            && (if e.kind == KIND_META_SET && e.meta.value.name.Some? then s'.name.value == e.meta.value.name.value else s'.name == s.name)
            && (if e.kind == KIND_META_SET && e.meta.value.reorderPoint.Some?
                then s'.reorderPoint.value == e.meta.value.reorderPoint.value else s'.reorderPoint == s.reorderPoint)
            && (if e.kind == KIND_DELETE_SET then s'.deleted.value == e.deletedTo.value else s'.deleted == s.deleted)
            && Quantity(s') == Wrap64(Quantity(s) + e.delta)
  {
    hide Before, Wrap64, Quantity;
    QuantityStep(s, e);
  }

  lemma RegistersBehind(es: set<Event>, at: Hlc)
    requires DistinctStamps(es) && Before(ZERO_STAMP, at) && forall d :: d in es ==> Before(d.hlc, at)
    ensures var s := Merged(es); Before(s.name.at, at) && Before(s.reorderPoint.at, at) && Before(s.deleted.at, at)
  {
    hide Before, Merged, NameWrite, ReorderWrite, DeletedWrite;
    RegistersHoldLatest(es);
  }

  lemma OfSkuMore(acc: Accepted, e: Event, sku: string)
    requires e.id !in acc
    ensures OfSku(acc[e.id := e], sku) == if e.sku == sku then OfSku(acc, sku) + {e} else OfSku(acc, sku)
  {
    var acc' := acc[e.id := e];
    assert forall d :: d in OfSku(acc', sku) ==> d in OfSku(acc, sku) || d == e;
    assert forall id :: id in acc ==> acc'[id] == acc[id];
    if e.sku == sku { assert acc'[e.id] == e; }
  }

  /** What the node reads after a local write, in terms of what the caller asked for: the quantity
      moves by the delta, in 64 bits; each register the draft writes holds the draft's value and the
      others stay; every other SKU reads as before. */
  lemma LocalWriteIsRead(net: Net, net': Net, i: NodeId, draft: Event, wall: Int64, other: string)
    requires NetInv(net) && ClocksAhead(net) && Emit(net, net', i, draft, wall)
    requires Valid(draft.(id := EventId(i, 1), hlc := Hlc(0, 0, i)))
    ensures var s, s' := Merged(OfSku(net[i].h.accepted, draft.sku)), Merged(OfSku(net'[i].h.accepted, draft.sku));
            && Quantity(s') == Wrap64(Quantity(s) + draft.delta)
            && (if draft.kind == KIND_META_SET && draft.meta.value.name.Some?
                then s'.name.value == draft.meta.value.name.value else s'.name == s.name)
            && (if draft.kind == KIND_META_SET && draft.meta.value.reorderPoint.Some?
                then s'.reorderPoint.value == draft.meta.value.reorderPoint.value else s'.reorderPoint == s.reorderPoint)
            && (if draft.kind == KIND_DELETE_SET then s'.deleted.value == draft.deletedTo.value else s'.deleted == s.deleted)
    ensures other != draft.sku ==> Merged(OfSku(net'[i].h.accepted, other)) == Merged(OfSku(net[i].h.accepted, other))
  {
    hide NetInv, Inv, Before, Merged, NextSeq, Ticked, Emitted, Applied, Quantity, Wrap64, OfSku, Rising, ClocksAhead;
    var id := EmittedIsDraft(net, net', i, draft, wall);
    var acc, acc' := net[i].h.accepted, net'[i].h.accepted;
    var e := acc'[id];
    OfSkuMore(acc, e, other);
    NewestIsMergedLast(acc, e);
    RegistersBehindNewest(acc, e);
    hide Valid;
    NewestWrites(Merged(OfSku(acc, e.sku)), e);
  }

  lemma NewestIsMergedLast(acc: Accepted, e: Event)
    requires Rising(acc[e.id := e]) && e.id !in acc && forall d :: d in acc ==> Before(acc[d].hlc, e.hlc)
    ensures Merged(OfSku(acc[e.id := e], e.sku)) == Applied(Merged(OfSku(acc, e.sku)), e)
  {
    hide Before, Merged, Applied;
    OfSkuMore(acc, e, e.sku);
    RisingStampsDiffer(acc[e.id := e], e.sku);
    BeforeTotal(e.hlc, e.hlc);
    assert e !in OfSku(acc, e.sku);
    MergedAdd(OfSku(acc, e.sku), e);
  }

  lemma RegistersBehindNewest(acc: Accepted, e: Event)
    requires Rising(acc[e.id := e]) && e.id !in acc && (forall d :: d in acc ==> Before(acc[d].hlc, e.hlc)) && Before(ZERO_STAMP, e.hlc)
    ensures var s := Merged(OfSku(acc, e.sku)); Before(s.name.at, e.hlc) && Before(s.reorderPoint.at, e.hlc) && Before(s.deleted.at, e.hlc)
  {
    hide Before, Merged;
    OfSkuMore(acc, e, e.sku);
    RisingStampsDiffer(acc[e.id := e], e.sku);
    RegistersBehind(OfSku(acc, e.sku), e.hlc);
  }

  /** In every run, with any wall readings, an emitted stamp sorts strictly after every stamp its
      node holds, and its number is one above the largest number ever accepted from that node. */
  lemma EmittedIsNewestInEveryRun(r: seq<Net>, k: nat, i: NodeId, draft: Event, wall: Int64)
    requires Run(r) && k < |r| && i in r[k] && !Saturated(r[k][i].last)
    ensures var p := r[k][i];
            var e := Minted(i, p.h.log, p.last, draft, wall);
            && (forall id :: id in p.h.accepted ==> Before(p.h.accepted[id].hlc, e.hlc))
            && (forall id :: id in p.h.accepted && id.node == i ==> id.seqNo < e.id.seqNo)
            && (e.id.seqNo == 1 || EventId(i, e.id.seqNo - 1) in p.h.accepted)
  {
    hide NetInv, Step, Init, Before, Ticked, NextSeq, Inv;
    RunKeepsInv(r, k);
    NodeFacts(r[k], i);
    MintedFits(i, r[k][i], draft, wall);
    NextSeqIsFresh(r[k][i].h, i);
  }
}
