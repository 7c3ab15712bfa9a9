/** localfirst-go: logs whose version is a plain MAX(seq) per author. That is a true frontier only
    because of the order in which records are sent; here every run is considered, with sessions
    cut at any record, stale greetings, and appends and merges interleaved with them.
 */
module LocalFirst {
  import opened Stamps
  import opened Events

  datatype Record = Record(id: EventId, clock: Hlc, kind: string, payload: seq<char>)

  type Rows = map<EventId, Record>

  datatype Log = Log(rows: Rows, nextSeq: nat)

  const BATCH_SIZE := 100

  // ---------------------------------------------------------------- the log

  /** Replay order: by clock, then by the author's sequence. */
  predicate Less(a: Record, b: Record)
  {
    if Compare(a.clock, b.clock) != 0 then Before(a.clock, b.clock) else a.id.seqNo < b.id.seqNo
  }

  /** INSERT OR IGNORE. */
  function Inserted(rows: Rows, r: Record): Rows
  {
    if r.id in rows then rows else rows[r.id := r]
  }

  function Appended(l: Log, r: Record): Log
  {
    Log(Inserted(l.rows, r), r.id.seqNo)
  }

  /** Storing one record authored elsewhere; an own record coming back moves the counter along. */
  function MergedOne(node: NodeId, l: Log, r: Record): Log
  {
    if r.id in l.rows then l
    else Log(l.rows[r.id := r], if r.id.node == node && r.id.seqNo > l.nextSeq then r.id.seqNo else l.nextSeq)
  }

  /** vv holds, per author, the largest sequence number among rows. */
  ghost predicate IsVersion(rows: Rows, vv: VersionVector)
  {
    && (forall id :: id in rows ==> id.seqNo <= At(vv, id.node))
    && (forall a :: At(vv, a) > 0 ==> EventId(a, At(vv, a)) in rows)
  }

  /** recs lists the rows vv lacks, in replay order. */
  ghost predicate IsSince(rows: Rows, vv: VersionVector, recs: seq<Record>)
  {
    && (forall r :: r in recs <==> r.id in rows && rows[r.id] == r && r.id.seqNo > At(vv, r.id.node))
    && InOrder(recs)
  }

  ghost predicate InOrder(recs: seq<Record>)
  {
    forall i, j :: 0 <= i < j < |recs| ==> recs[i] != recs[j] && !Less(recs[j], recs[i])
  }

  /** The records at or below a version. */
  function Bounded(recs: seq<Record>, vv: VersionVector): seq<Record>
  {
    if recs == [] then []
    else
      var r := recs[|recs| - 1];
      Bounded(recs[..|recs| - 1], vv) + if r.id.seqNo <= At(vv, r.id.node) then [r] else []
  }

  /** What is dropped is exactly what is above the version; the rest keeps its order. */
  lemma {:induction false} BoundedIs(recs: seq<Record>, vv: VersionVector, r: Record)
    ensures r in Bounded(recs, vv) <==> r in recs && r.id.seqNo <= At(vv, r.id.node)
  {
    if recs != [] {
      BoundedIs(recs[..|recs| - 1], vv, r);
      assert recs == recs[..|recs| - 1] + [recs[|recs| - 1]];
    }
  }

  /** What a peer could honestly have authored. */
  predicate HonestPeer(r: Record, local: NodeId)
  {
    r.id.node != "" && r.id.node != local && r.id.seqNo != 0
  }

  /** The batch record i of a push travels in is accepted: it is validated as a whole first. */
  ghost predicate BatchAccepted(list: seq<Record>, i: nat, local: NodeId)
    requires i < |list|
  {
    forall j :: 0 <= j < |list| && j / BATCH_SIZE == i / BATCH_SIZE ==> HonestPeer(list[j], local)
  }

  // ---------------------------------------------------------------- sessions

  /** One direction of a session: the receiver's version as greeted, then the sender's version,
      read before it collects, then the list being sent and how much of it has been merged. */
  datatype Push =
    | Greeted(sender: NodeId, receiver: NodeId, peerVV: VersionVector)
    | Snapped(sender: NodeId, receiver: NodeId, peerVV: VersionVector, vv: VersionVector)
    | Sending(sender: NodeId, receiver: NodeId, vv: VersionVector, list: seq<Record>, pos: nat)

  datatype World = World(logs: map<NodeId, Log>, pushes: map<nat, Push>)

  ghost predicate Init(w: World)
  {
    w.pushes == map[] && forall n :: n in w.logs ==> n != "" && w.logs[n] == Log(map[], 0)
  }

  /** The author's clock runs ahead of its own records; nothing is asked of other nodes' clocks. */
  ghost predicate StampsRise(rows: Rows, r: Record)
  {
    forall id :: id in rows && id.node == r.id.node ==> Before(rows[id].clock, r.clock)
  }

  ghost predicate Append(w: World, w': World, n: NodeId, r: Record)
  {
    && n in w.logs && r.id == EventId(n, w.logs[n].nextSeq + 1) && StampsRise(w.logs[n].rows, r)
    && w' == w.(logs := w.logs[n := Appended(w.logs[n], r)])
  }

  ghost predicate Greet(w: World, w': World, k: nat, i: NodeId, j: NodeId, peerVV: VersionVector)
  {
    && i in w.logs && j in w.logs && i != j && k !in w.pushes && IsVersion(w.logs[j].rows, peerVV)
    && w' == w.(pushes := w.pushes[k := Greeted(i, j, peerVV)])
  }

  ghost predicate Snap(w: World, w': World, k: nat, vv: VersionVector)
  {
    && k in w.pushes && w.pushes[k].Greeted? && w.pushes[k].sender in w.logs
    && var p := w.pushes[k];
    && IsVersion(w.logs[p.sender].rows, vv)
    && w' == w.(pushes := w.pushes[k := Snapped(p.sender, p.receiver, p.peerVV, vv)])
  }

  ghost predicate Collect(w: World, w': World, k: nat, recs: seq<Record>)
  {
    && k in w.pushes && w.pushes[k].Snapped? && w.pushes[k].sender in w.logs
    && var p := w.pushes[k];
    && IsSince(w.logs[p.sender].rows, p.peerVV, recs)
    && w' == w.(pushes := w.pushes[k := Sending(p.sender, p.receiver, p.vv, Bounded(recs, p.vv), 0)])
  }

  /** One record is merged, in a transaction of its own. */
  ghost predicate Deliver(w: World, w': World, k: nat)
  {
    && k in w.pushes && w.pushes[k].Sending? && w.pushes[k].receiver in w.logs
    && var p := w.pushes[k];
    && p.pos < |p.list| && BatchAccepted(p.list, p.pos, p.receiver)
    && w' == World(w.logs[p.receiver := MergedOne(p.receiver, w.logs[p.receiver], p.list[p.pos])],
                   w.pushes[k := p.(pos := p.pos + 1)])
  }

  /** A session ends: cut, refused, or done. */
  ghost predicate End(w: World, w': World, k: nat)
  {
    w' == w.(pushes := w.pushes - {k})
  }

  ghost predicate Step(w: World, w': World)
  {
    || (exists n, r :: Append(w, w', n, r))
    || (exists k, i, j, vv :: Greet(w, w', k, i, j, vv))
    || (exists k, vv :: Snap(w, w', k, vv))
    || (exists k, recs :: Collect(w, w', k, recs))
    || (exists k :: Deliver(w, w', k))
    || (exists k :: End(w, w', k))
  }

  ghost predicate Run(r: seq<World>)
  {
    && r != [] && Init(r[0])
    && forall i, j :: 0 <= i < j < |r| && j == i + 1 ==> Step(r[i], r[j])
  }

  // ---------------------------------------------------------------- the invariant

  /** Per author exactly the records 1..MAX. */
  ghost predicate Dense(rows: Rows)
  {
    && (forall id :: id in rows ==> id.seqNo > 0 && rows[id].id == id)
    && (forall id, s :: id in rows && 1 <= s <= id.seqNo ==> EventId(id.node, s) in rows)
  }

  /** Whatever is held anywhere is held, unchanged, by its author. */
  ghost predicate Authored(logs: map<NodeId, Log>, r: Record)
  {
    r.id.node in logs && r.id in logs[r.id.node].rows && logs[r.id.node].rows[r.id] == r
  }

  ghost predicate AllAuthored(logs: map<NodeId, Log>, rows: Rows)
  {
    forall id :: id in rows ==> Authored(logs, rows[id])
  }

  /** The counter is at the last own record, and own stamps rise with own numbers. */
  ghost predicate OwnOk(n: NodeId, l: Log)
  {
    && (forall id :: id in l.rows && id.node == n ==> id.seqNo <= l.nextSeq)
    && (l.nextSeq > 0 ==> EventId(n, l.nextSeq) in l.rows)
    && (forall a, b :: a in l.rows && b in l.rows && a.node == b.node == n && a.seqNo < b.seqNo ==>
          Before(l.rows[a].clock, l.rows[b].clock))
  }

  ghost predicate LogOk(logs: map<NodeId, Log>, n: NodeId)
    requires n in logs
  {
    n != "" && Dense(logs[n].rows) && AllAuthored(logs, logs[n].rows) && OwnOk(n, logs[n])
  }

  ghost predicate LogsOk(logs: map<NodeId, Log>)
  {
    forall n :: n in logs ==> LogOk(logs, n)
  }

  /** Everything numbered up to vv is held. */
  ghost predicate Reaches(rows: Rows, vv: VersionVector)
  {
    forall a, s :: 1 <= s <= At(vv, a) ==> EventId(a, s) in rows
  }

  /** The record before list[i] of its author is held already or still to come before it. */
  ghost predicate Led(rows: Rows, list: seq<Record>, pos: nat, i: nat)
    requires i < |list|
  {
    var id := list[i].id;
    id.seqNo <= 1 || EventId(id.node, id.seqNo - 1) in rows || exists j :: pos <= j < i && list[j].id == EventId(id.node, id.seqNo - 1)
  }

  ghost predicate Coming(list: seq<Record>, pos: nat, id: EventId)
  {
    exists j :: pos <= j < |list| && list[j].id == id
  }

  ghost predicate PushOk(logs: map<NodeId, Log>, p: Push)
  {
    && p.sender in logs && p.receiver in logs
    && match p
       case Greeted(_, j, peerVV) => Reaches(logs[j].rows, peerVV)
       case Snapped(i, j, peerVV, vv) => Reaches(logs[j].rows, peerVV) && Reaches(logs[i].rows, vv)
       case Sending(_, j, vv, list, pos) =>
         && pos <= |list|
         && (forall i :: 0 <= i < |list| ==> Authored(logs, list[i]) && list[i].id.seqNo > 0)
         && (forall i :: pos <= i < |list| ==> Led(logs[j].rows, list, pos, i))
         && (forall a, s :: 1 <= s <= At(vv, a) ==> EventId(a, s) in logs[j].rows || Coming(list, pos, EventId(a, s)))
  }

  ghost predicate Inv(w: World)
  {
    && LogsOk(w.logs)
    && (forall k :: k in w.pushes ==> PushOk(w.logs, w.pushes[k]))
  }

  // ---------------------------------------------------------------- logs only grow

  ghost predicate Grown(rows: Rows, rows': Rows)
  {
    forall id :: id in rows ==> id in rows' && rows'[id] == rows[id]
  }

  ghost predicate AllGrown(logs: map<NodeId, Log>, logs': map<NodeId, Log>)
  {
    logs'.Keys == logs.Keys && forall n :: n in logs ==> Grown(logs[n].rows, logs'[n].rows)
  }

  lemma GrownKeepsAuthored(logs: map<NodeId, Log>, logs': map<NodeId, Log>, r: Record)
    requires Authored(logs, r) && AllGrown(logs, logs')
    ensures Authored(logs', r)
  {
  }

  lemma GrownKeepsPush(logs: map<NodeId, Log>, logs': map<NodeId, Log>, p: Push)
    requires PushOk(logs, p) && AllGrown(logs, logs')
    ensures PushOk(logs', p)
  {
    hide Authored;
    if p.Sending? {
      forall i | 0 <= i < |p.list|
        ensures Authored(logs', p.list[i])
      {
        GrownKeepsAuthored(logs, logs', p.list[i]);
      }
      forall i | p.pos <= i < |p.list|
        ensures Led(logs'[p.receiver].rows, p.list, p.pos, i)
      {
        assert Led(logs[p.receiver].rows, p.list, p.pos, i);
      }
      hide Coming, Led;
      assert Grown(logs[p.receiver].rows, logs'[p.receiver].rows);
    }
  }

  /** One log gained one record that follows what it holds of that author. */
  lemma OneLogGrew(logs: map<NodeId, Log>, logs': map<NodeId, Log>, n: NodeId, r: Record)
    requires n in logs && n in logs' && LogsOk(logs) && logs' == logs[n := logs'[n]] && r.id !in logs[n].rows
    requires logs'[n].rows == logs[n].rows[r.id := r] && r.id.seqNo > 0
    requires r.id.seqNo == 1 || EventId(r.id.node, r.id.seqNo - 1) in logs[n].rows
    requires Authored(logs', r)
    requires if r.id.node == n then logs'[n].nextSeq == r.id.seqNo == logs[n].nextSeq + 1 && StampsRise(logs[n].rows, r)
             else logs'[n].nextSeq == logs[n].nextSeq
    ensures AllGrown(logs, logs') && LogsOk(logs')
  {
    hide Dense, AllAuthored, OwnOk, Authored, Grown, StampsRise;
    assert LogOk(logs, n);
    GrownByOne(logs, logs', n, r);
    forall m | m in logs'
      ensures LogOk(logs', m)
    {
      assert LogOk(logs, m);
      GrownKeepsAll(logs, logs', logs[m].rows);
      if m == n {
        DenseStays(logs[n].rows, r);
        AuthoredMore(logs', logs[n].rows, r);
        OwnStays(n, logs[n], logs'[n], r);
      }
    }
  }

  lemma GrownByOne(logs: map<NodeId, Log>, logs': map<NodeId, Log>, n: NodeId, r: Record)
    requires n in logs && n in logs' && logs' == logs[n := logs'[n]] && r.id !in logs[n].rows && logs'[n].rows == logs[n].rows[r.id := r]
    ensures AllGrown(logs, logs')
  {
  }

  lemma GrownKeepsAll(logs: map<NodeId, Log>, logs': map<NodeId, Log>, rows: Rows)
    requires AllAuthored(logs, rows) && AllGrown(logs, logs')
    ensures AllAuthored(logs', rows)
  {
  }

  lemma AuthoredMore(logs: map<NodeId, Log>, rows: Rows, r: Record)
    requires AllAuthored(logs, rows) && Authored(logs, r)
    ensures AllAuthored(logs, rows[r.id := r])
  {
  }

  lemma OwnStays(n: NodeId, l: Log, l': Log, r: Record)
    requires OwnOk(n, l) && r.id !in l.rows && l'.rows == l.rows[r.id := r]
    requires if r.id.node == n then l'.nextSeq == r.id.seqNo == l.nextSeq + 1 && StampsRise(l.rows, r) else l'.nextSeq == l.nextSeq
    ensures OwnOk(n, l')
  {
  }

  lemma DenseStays(rows: Rows, r: Record)
    requires Dense(rows) && r.id !in rows && r.id.seqNo > 0
    requires r.id.seqNo == 1 || EventId(r.id.node, r.id.seqNo - 1) in rows
    ensures Dense(rows[r.id := r])
  {
  }

  // ---------------------------------------------------------------- every step keeps it

  lemma GrownKeepsPushes(w: World, logs': map<NodeId, Log>)
    requires Inv(w) && AllGrown(w.logs, logs')
    ensures forall k :: k in w.pushes ==> PushOk(logs', w.pushes[k])
  {
    hide PushOk, LogsOk;
    forall k | k in w.pushes
      ensures PushOk(logs', w.pushes[k])
    {
      GrownKeepsPush(w.logs, logs', w.pushes[k]);
    }
  }

  lemma AppendKeepsInv(w: World, w': World, n: NodeId, r: Record)
    requires Inv(w) && Append(w, w', n, r)
    ensures Inv(w')
  {
    var l := w.logs[n];
    assert LogOk(w.logs, n);
    assert r.id !in l.rows;
    hide LogsOk, PushOk, Dense, StampsRise;
    OneLogGrew(w.logs, w'.logs, n, r);
    GrownKeepsPushes(w, w'.logs);
  }

  lemma VersionReached(rows: Rows, vv: VersionVector)
    requires Dense(rows) && IsVersion(rows, vv)
    ensures Reaches(rows, vv)
  {
  }

  lemma GreetKeepsInv(w: World, w': World, k: nat, i: NodeId, j: NodeId, vv: VersionVector)
    requires Inv(w) && Greet(w, w', k, i, j, vv)
    ensures Inv(w')
  {
  }

  lemma SnapKeepsInv(w: World, w': World, k: nat, vv: VersionVector)
    requires Inv(w) && Snap(w, w', k, vv)
    ensures Inv(w')
  {
    var p := w.pushes[k];
    assert PushOk(w.logs, p) && LogOk(w.logs, p.sender);
    VersionReached(w.logs[p.sender].rows, vv);
    hide LogsOk, Reaches;
  }

  lemma {:induction false} BoundedHas(recs: seq<Record>, vv: VersionVector)
    ensures forall r :: r in Bounded(recs, vv) <==> r in recs && r.id.seqNo <= At(vv, r.id.node)
  {
    if recs != [] {
      var init := recs[..|recs| - 1];
      BoundedHas(init, vv);
      assert recs == init + [recs[|recs| - 1]];
    }
  }

  lemma InOrderMore(recs: seq<Record>, last: Record)
    requires InOrder(recs) && forall i :: 0 <= i < |recs| ==> recs[i] != last && !Less(last, recs[i])
    ensures InOrder(recs + [last])
  {
  }

  /** Bounding keeps the order. */
  lemma {:induction false} BoundedOrder(recs: seq<Record>, vv: VersionVector)
    requires InOrder(recs)
    ensures InOrder(Bounded(recs, vv))
  {
    hide Less;
    if recs != [] {
      var init, last := recs[..|recs| - 1], recs[|recs| - 1];
      assert forall k :: 0 <= k < |init| ==> init[k] == recs[k];
      BoundedOrder(init, vv);
      BoundedHas(init, vv);
      var b := Bounded(init, vv);
      forall i | 0 <= i < |b|
        ensures b[i] != last && !Less(last, b[i])
      {
        assert b[i] in init;
        var k :| 0 <= k < |init| && init[k] == b[i];
        assert recs[k] == init[k];
      }
      hide InOrder;
      InOrderMore(b, last);
      assert b + [] == b;
    }
  }

  /** An author's records sort by number wherever they are sorted by clock. */
  lemma RisesEverywhere(logs: map<NodeId, Log>, a: Record, b: Record)
    requires LogsOk(logs) && Authored(logs, a) && Authored(logs, b) && a.id.node == b.id.node && a.id.seqNo < b.id.seqNo
    ensures Less(a, b)
  {
    assert LogOk(logs, a.id.node);
    BeforeTotal(a.clock, b.clock);
  }

  /** The collected list leads: each record's predecessor is held or comes before it, and all the
      sender's version names is held or comes. */
  lemma CollectedLeads(logs: map<NodeId, Log>, p: Push, recs: seq<Record>)
    requires LogsOk(logs) && p.Snapped? && PushOk(logs, p) && IsSince(logs[p.sender].rows, p.peerVV, recs)
    ensures PushOk(logs, Sending(p.sender, p.receiver, p.vv, Bounded(recs, p.vv), 0))
  {
    hide LogsOk, Less, Bounded, Dense, Led;
    var mine, list := logs[p.sender].rows, Bounded(recs, p.vv);
    LogFacts(logs, p.sender);
    BoundedHas(recs, p.vv);
    BoundedOrder(recs, p.vv);
    hide Authored;
    forall i | 0 <= i < |list|
      ensures Authored(logs, list[i]) && list[i].id.seqNo > 0
    {
      assert list[i] in list && mine[list[i].id] == list[i];
      DenseNumbers(mine, list[i].id);
    }
    forall i | 0 <= i < |list|
      ensures Led(logs[p.receiver].rows, list, 0, i)
    {
      assert list[i] in list;
      LedBy(logs, p, list, i);
    }
    forall a, s | 1 <= s <= At(p.vv, a)
      ensures EventId(a, s) in logs[p.receiver].rows || Coming(list, 0, EventId(a, s))
    {
      var id := EventId(a, s);
      assert id in mine;
      if s > At(p.peerVV, a) {
        DenseNumbers(mine, id);
        assert mine[id] in list;
        var j :| 0 <= j < |list| && list[j] == mine[id];
      }
    }
  }

  lemma LogFacts(logs: map<NodeId, Log>, n: NodeId)
    requires LogsOk(logs) && n in logs
    ensures Dense(logs[n].rows) && AllAuthored(logs, logs[n].rows)
  {
  }

  lemma DenseNumbers(rows: Rows, id: EventId)
    requires Dense(rows) && id in rows
    ensures id.seqNo > 0 && rows[id].id == id
  {
  }

  lemma LedBy(logs: map<NodeId, Log>, p: Push, list: seq<Record>, i: nat)
    requires LogsOk(logs) && p.Snapped? && PushOk(logs, p) && i < |list|
    requires forall r :: r in list <==>
               r.id in logs[p.sender].rows && logs[p.sender].rows[r.id] == r && At(p.peerVV, r.id.node) < r.id.seqNo <= At(p.vv, r.id.node)
    requires InOrder(list)
    ensures Led(logs[p.receiver].rows, list, 0, i)
  {
    var mine, r := logs[p.sender].rows, list[i];
    assert LogOk(logs, p.sender) && r in list;
    var prev := EventId(r.id.node, r.id.seqNo - 1);
    if r.id.seqNo > 1 && r.id.seqNo - 1 > At(p.peerVV, r.id.node) {
      assert prev in mine && mine[prev].id == prev;
      var q := mine[prev];
      assert q in list;
      var j :| 0 <= j < |list| && list[j] == q;
      RisesEverywhere(logs, q, r);
      assert Less(list[j], list[i]);
      assert j != i by { LessIrreflexive(r); }
      assert j < i;
    }
  }

  lemma LessIrreflexive(r: Record)
    ensures !Less(r, r)
  {
    BeforeTotal(r.clock, r.clock);
  }

  lemma CollectKeepsInv(w: World, w': World, k: nat, recs: seq<Record>)
    requires Inv(w) && Collect(w, w', k, recs)
    ensures Inv(w')
  {
    assert PushOk(w.logs, w.pushes[k]);
    CollectedLeads(w.logs, w.pushes[k], recs);
    hide LogsOk, PushOk, IsSince;
  }

  /** The record delivered is held now; what was to come before others has come. */
  lemma DeliveredPush(logs: map<NodeId, Log>, logs': map<NodeId, Log>, p: Push)
    requires p.Sending? && PushOk(logs, p) && p.pos < |p.list| && AllGrown(logs, logs')
    requires p.list[p.pos].id in logs'[p.receiver].rows
    ensures PushOk(logs', p.(pos := p.pos + 1))
  {
    GrownKeepsPush(logs, logs', p);
    hide Authored;
    var rows, next := logs'[p.receiver].rows, p.pos + 1;
    forall i | next <= i < |p.list|
      ensures Led(rows, p.list, next, i)
    {
      assert Led(rows, p.list, p.pos, i);
    }
    forall a, s | 1 <= s <= At(p.vv, a)
      ensures EventId(a, s) in rows || Coming(p.list, p.pos + 1, EventId(a, s))
    {
      if EventId(a, s) !in rows {
        var j :| p.pos <= j < |p.list| && p.list[j].id == EventId(a, s);
        assert j != p.pos;
      }
    }
  }

  lemma NextIsLed(logs: map<NodeId, Log>, p: Push)
    requires p.Sending? && PushOk(logs, p) && p.pos < |p.list| && BatchAccepted(p.list, p.pos, p.receiver)
    ensures var r := p.list[p.pos];
            && Authored(logs, r) && r.id.seqNo > 0 && r.id.node != p.receiver && p.receiver in logs
            && (r.id.seqNo == 1 || EventId(r.id.node, r.id.seqNo - 1) in logs[p.receiver].rows)
  {
    assert HonestPeer(p.list[p.pos], p.receiver);
    assert Led(logs[p.receiver].rows, p.list, p.pos, p.pos);
  }

  lemma DeliverKeepsInv(w: World, w': World, k: nat)
    requires Inv(w) && Deliver(w, w', k)
    ensures Inv(w')
  {
    hide LogsOk, PushOk, BatchAccepted, Authored;
    var p := w.pushes[k];
    var n, r := p.receiver, p.list[p.pos];
    NextIsLed(w.logs, p);
    if r.id in w.logs[n].rows {
      assert w'.logs == w.logs;
      assert AllGrown(w.logs, w'.logs);
    } else {
      GrownByOne(w.logs, w'.logs, n, r);
      GrownKeepsAuthored(w.logs, w'.logs, r);
      OneLogGrew(w.logs, w'.logs, n, r);
    }
    GrownKeepsPushes(w, w'.logs);
    DeliveredPush(w.logs, w'.logs, p);
  }

  lemma StepKeepsInv(w: World, w': World)
    requires Inv(w) && Step(w, w')
    ensures Inv(w')
  {
    hide Append, Greet, Snap, Collect, Deliver, LogsOk, PushOk;
    if n, r :| Append(w, w', n, r) {
      AppendKeepsInv(w, w', n, r);
    } else if k, i, j, vv :| Greet(w, w', k, i, j, vv) {
      GreetKeepsInv(w, w', k, i, j, vv);
    } else if k, vv :| Snap(w, w', k, vv) {
      SnapKeepsInv(w, w', k, vv);
    } else if k, recs :| Collect(w, w', k, recs) {
      CollectKeepsInv(w, w', k, recs);
    } else if k :| Deliver(w, w', k) {
      DeliverKeepsInv(w, w', k);
    }
  }

  lemma {:induction false} RunKeepsInv(r: seq<World>, k: nat)
    requires Run(r) && k < |r|
    ensures Inv(r[k])
  {
    hide Inv, Step;
    if k == 0 {
      InitHolds(r[0]);
    } else {
      RunKeepsInv(r, k - 1);
      StepKeepsInv(r[k - 1], r[k]);
    }
  }

  lemma InitHolds(w: World)
    requires Init(w)
    ensures Inv(w)
  {
  }

  // ---------------------------------------------------------------- the theorems

  /** In every state of every run, what a log holds of an author is exactly 1..MAX, so its version
      is a true frontier: whatever another log holds and it lacks, that log would send. */
  lemma VersionIsFrontier(r: seq<World>, k: nat, i: NodeId, j: NodeId, vv: VersionVector, recs: seq<Record>, id: EventId)
    requires Run(r) && k < |r| && i in r[k].logs && j in r[k].logs
    requires IsVersion(r[k].logs[j].rows, vv) && IsSince(r[k].logs[i].rows, vv, recs)
    ensures id in r[k].logs[j].rows <==> 1 <= id.seqNo <= At(vv, id.node)
    ensures id in r[k].logs[i].rows && id !in r[k].logs[j].rows ==> r[k].logs[i].rows[id] in recs
    ensures id in r[k].logs[i].rows && id in r[k].logs[j].rows ==> r[k].logs[i].rows[id] == r[k].logs[j].rows[id]
  {
    RunKeepsInv(r, k);
    hide Step, Init, PushOk, InOrder, OwnOk;
    assert LogOk(r[k].logs, i) && LogOk(r[k].logs, j);
    VersionReached(r[k].logs[j].rows, vv);
    assert EventId(id.node, id.seqNo) == id;
    if id in r[k].logs[i].rows && id in r[k].logs[j].rows {
      assert Authored(r[k].logs, r[k].logs[i].rows[id]) && Authored(r[k].logs, r[k].logs[j].rows[id]);
    }
  }

  /** The Ack tells the truth: when a push has been merged to the end, the receiver holds all that
      the acknowledged version names, whatever was appended at the sender meanwhile. */
  lemma AckIsTrue(r: seq<World>, k: nat, s: nat)
    requires Run(r) && k < |r| && s in r[k].pushes && r[k].pushes[s].Sending?
    requires r[k].pushes[s].pos == |r[k].pushes[s].list| && r[k].pushes[s].receiver in r[k].logs
    ensures Reaches(r[k].logs[r[k].pushes[s].receiver].rows, r[k].pushes[s].vv)
  {
    RunKeepsInv(r, k);
    hide Step, Init, LogsOk;
    assert PushOk(r[k].logs, r[k].pushes[s]);
  }

  /** A push nobody cuts and the receiver does not refuse goes through, record by record, whatever is
      left of it; at its end the receiver holds everything it listed. */
  lemma {:induction false} PushGoesThrough(w: World, k: nat) returns (path: seq<World>)
    requires Inv(w) && k in w.pushes && w.pushes[k].Sending?
    requires forall i :: 0 <= i < |w.pushes[k].list| ==> HonestPeer(w.pushes[k].list[i], w.pushes[k].receiver)
    ensures path != [] && path[0] == w && forall i, j :: 0 <= i < j < |path| && j == i + 1 ==> Step(path[i], path[j])
    ensures var w', p := path[|path| - 1], w.pushes[k];
            && k in w'.pushes && w'.pushes[k] == p.(pos := |p.list|) && p.receiver in w'.logs && Reaches(w'.logs[p.receiver].rows, p.vv)
    decreases |w.pushes[k].list| - w.pushes[k].pos
  {
    hide Step, Reaches, LogsOk;
    var p := w.pushes[k];
    assert PushOk(w.logs, p);
    if p.pos == |p.list| {
      path := [w];
      EndReaches(w, k);
    } else {
      var w' := World(w.logs[p.receiver := MergedOne(p.receiver, w.logs[p.receiver], p.list[p.pos])], w.pushes[k := p.(pos := p.pos + 1)]);
      assert Deliver(w, w', k);
      DeliverKeepsInv(w, w', k);
      assert Step(w, w') by { DeliverIsStep(w, w', k); }
      var rest := PushGoesThrough(w', k);
      path := [w] + rest;
    }
  }

  lemma DeliverIsStep(w: World, w': World, k: nat)
    requires Deliver(w, w', k)
    ensures Step(w, w')
  {
  }

  lemma EndReaches(w: World, k: nat)
    requires Inv(w) && k in w.pushes && w.pushes[k].Sending? && w.pushes[k].pos == |w.pushes[k].list|
    ensures w.pushes[k].receiver in w.logs && Reaches(w.logs[w.pushes[k].receiver].rows, w.pushes[k].vv)
  {
    hide LogsOk;
    assert PushOk(w.logs, w.pushes[k]);
  }

  /** What is sent is in clock order, and by number among equal clocks. */
  lemma SinceIsReplayOrder(rows: Rows, vv: VersionVector, recs: seq<Record>, i: nat, j: nat)
    requires IsSince(rows, vv, recs) && i < j < |recs|
    ensures !Before(recs[j].clock, recs[i].clock)
    ensures recs[i].clock == recs[j].clock ==> recs[i].id.seqNo <= recs[j].id.seqNo
  {
    BeforeTotal(recs[i].clock, recs[j].clock);
    NamesAntisymmetric(recs[i].clock.node, recs[i].clock.node);
  }

  /** No number is issued twice and none is skipped. */
  lemma NextNumberIsFresh(r: seq<World>, k: nat, n: NodeId)
    requires Run(r) && k < |r| && n in r[k].logs
    ensures forall id: EventId :: id.node == n ==> (id in r[k].logs[n].rows <==> 1 <= id.seqNo <= r[k].logs[n].nextSeq)
  {
    RunKeepsInv(r, k);
    hide Step, Init, PushOk;
    var l := r[k].logs[n];
    assert LogOk(r[k].logs, n);
    forall id: EventId | id.node == n && 1 <= id.seqNo <= l.nextSeq
      ensures id in l.rows
    {
      assert EventId(n, l.nextSeq) in l.rows && EventId(n, id.seqNo) == id;
    }
  }

  // ---------------------------------------------------------------- why the order matters

  function Prefix(rows: Rows, list: seq<Record>): Rows
  {
    if list == [] then rows else Inserted(Prefix(rows, list[..|list| - 1]), list[|list| - 1])
  }

  /** Each record's predecessor is held or comes earlier. */
  ghost predicate Leading(rows: Rows, list: seq<Record>)
  {
    forall i :: 0 <= i < |list| ==> Led(rows, list, 0, i)
  }

  lemma {:induction false} PrefixHas(rows: Rows, list: seq<Record>, id: EventId)
    ensures id in Prefix(rows, list) <==> id in rows || exists i :: 0 <= i < |list| && list[i].id == id
  {
    if list != [] {
      var init, last := list[..|list| - 1], list[|list| - 1];
      PrefixHas(rows, init, id);
      assert forall i :: 0 <= i < |init| ==> init[i] == list[i];
      assert last == list[|list| - 1];
    }
  }

  /** A push may be cut after any record without leaving a hole if and only if no record is sent
      ahead of its author's previous one. */
  lemma EveryCutIsDenseIff(rows: Rows, list: seq<Record>)
    requires Dense(rows) && forall i :: 0 <= i < |list| ==> list[i].id.seqNo > 0 && list[i].id !in rows
    ensures (forall m :: 0 <= m <= |list| ==> Holeless(Prefix(rows, list[..m]))) <==> Leading(rows, list)
  {
    if Leading(rows, list) {
      forall m | 0 <= m <= |list|
        ensures Holeless(Prefix(rows, list[..m]))
      {
        LeadingIsHoleless(rows, list, m);
      }
    } else {
      var i :| 0 <= i < |list| && !Led(rows, list, 0, i);
      CutLeavesHole(rows, list, i);
    }
  }

  ghost predicate Holeless(rows: Rows)
  {
    forall id :: id in rows && id.seqNo > 1 ==> EventId(id.node, id.seqNo - 1) in rows
  }

  lemma LeadingIsHoleless(rows: Rows, list: seq<Record>, m: nat)
    requires Dense(rows) && Leading(rows, list) && m <= |list|
    ensures Holeless(Prefix(rows, list[..m]))
  {
    var cut := list[..m];
    forall id | id in Prefix(rows, cut) && id.seqNo > 1
      ensures EventId(id.node, id.seqNo - 1) in Prefix(rows, cut)
    {
      var prev := EventId(id.node, id.seqNo - 1);
      PrefixHas(rows, cut, id);
      PrefixHas(rows, cut, prev);
      if id !in rows {
        var i :| 0 <= i < |cut| && cut[i].id == id;
        assert Led(rows, list, 0, i);
        if prev !in rows {
          var j :| 0 <= j < i && list[j].id == prev;
          assert cut[j].id == prev;
        }
      }
    }
  }

  lemma CutLeavesHole(rows: Rows, list: seq<Record>, i: nat)
    requires i < |list| && !Led(rows, list, 0, i)
    ensures !Holeless(Prefix(rows, list[..i + 1]))
  {
    var cut, id := list[..i + 1], list[i].id;
    var prev := EventId(id.node, id.seqNo - 1);
    PrefixHas(rows, cut, id);
    PrefixHas(rows, cut, prev);
    assert cut[i].id == id;
    forall j | 0 <= j < |cut|
      ensures cut[j].id != prev
    {
      assert j < i ==> list[j].id != prev;
      assert cut[j] == list[j];
    }
  }
}
