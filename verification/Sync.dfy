/** Replication sessions: both ends stream what the other's version vector lacks, in batches, and
    merge what they are sent. A session may be cut after any frame.
 */
module Sync {
  import opened Stamps
  import opened Events
  import opened Items
  import opened Logs
  import opened LogHistory
  import opened Cluster
  import opened Codec
  import opened Nodes

  const DEFAULT_BATCH_SIZE: nat := 64

  type Frame = seq<Option<WireEvent>>

  function BatchSize(n: int): (b: nat)
    ensures b > 0 && (n > 0 ==> b == n) && (n <= 0 ==> b == 64)
  {
    if n <= 0 then DEFAULT_BATCH_SIZE else n
  }

  /** The events a frame decodes to, malformed ones left out. */
  function Decoded(f: Frame): seq<Event>
  {
    if f == [] then []
    else
      var r := Decode(f[|f| - 1]);
      Decoded(f[..|f| - 1]) + if r.Ok? then [r.value] else []
  }

  function AllDecoded(fs: seq<Frame>): seq<Event>
  {
    if fs == [] then [] else AllDecoded(fs[..|fs| - 1]) + Decoded(fs[|fs| - 1])
  }

  function EventCount(fs: seq<Frame>): nat
  {
    if fs == [] then 0 else EventCount(fs[..|fs| - 1]) + |fs[|fs| - 1]|
  }

  lemma StreamedMore(fs: seq<Frame>, f: Frame, done: seq<Event>, e: Event)
    requires AllDecoded(fs) + Decoded(f) == done && Encode(e).Ok?
    ensures Valid(e) && AllDecoded(fs) + Decoded(f + [Some(Encode(e).value)]) == done + [e]
  {
  }

  lemma Flushed(fs: seq<Frame>, f: Frame, done: seq<Event>)
    requires AllDecoded(fs) + Decoded(f) == done
    ensures AllDecoded(fs + [f]) + Decoded([]) == done && AllDecoded(fs + [f]) == done
    ensures EventCount(fs + [f]) == EventCount(fs) + |f|
  {
  }

  lemma EmptyFrame()
    ensures Decoded([]) == [] && AllDecoded([]) == [] && EventCount([]) == 0
  {
  }

  lemma {:induction false} DecodedIsValid(f: Frame)
    ensures forall e :: e in Decoded(f) ==> Valid(e)
    ensures CountValid(Decoded(f)) == |Decoded(f)| <= |f|
  {
    if f != [] {
      var init, r := f[..|f| - 1], Decode(f[|f| - 1]);
      DecodedIsValid(init);
      assert Decoded(init) + [] == Decoded(init);
      if r.Ok? { assert (Decoded(init) + [r.value])[..|Decoded(init)|] == Decoded(init); }
    }
  }

  lemma FramesSnoc(fs: seq<Frame>, f: Frame)
    ensures AllDecoded(fs + [f]) == AllDecoded(fs) + Decoded(f)
    ensures EventCount(fs + [f]) == EventCount(fs) + |f|
  {
  }

  /** Frames are never empty and never over the batch size, and only the last is under it. */
  ghost predicate Batched(fs: seq<Frame>, size: nat)
  {
    && (forall i :: 0 <= i < |fs| ==> 0 < |fs[i]| <= size)
    && (forall i :: 0 <= i < |fs| - 1 ==> |fs[i]| == size)
  }

  /** Everything the replica holds that peerVV lacks, in stamp order, cut into batches. Fails on
      an event it cannot encode; a valid event always can be. */
  method StreamEvents(r: Node, peerVV: VersionVector, size: nat)
    returns (ok: bool, frames: seq<Frame>, ghost order: seq<Event>)
    requires size > 0
    ensures Enumerates(order, SinceSet(r.log.Value(), peerVV)) && Ordered(order)
    ensures forall e :: e in order <==> exists id :: id in r.log.rows && r.log.rows[id] == e && id.seqNo > At(peerVV, id.node)
    ensures ok <==> forall e :: e in order ==> Valid(e)
    ensures ok ==> AllDecoded(frames) == order && EventCount(frames) == |order|
    ensures ok ==> Batched(frames, size) && Enumerates(AllDecoded(frames), SinceSet(r.log.Value(), peerVV)) && Ordered(AllDecoded(frames))
  {
    hide Valid, Ordered, Enumerates, Encode, Decoded, AllDecoded, EventCount;
    var stream := r.log.Since(peerVV);
    order, ok := stream, true;
    frames := [];
    var batch: Frame := [];
    EmptyFrame();
    for i := 0 to |stream|
      invariant forall e :: e in stream[..i] ==> Valid(e)
      invariant |batch| < size && forall j :: 0 <= j < |frames| ==> |frames[j]| == size
      invariant AllDecoded(frames) + Decoded(batch) == stream[..i] && EventCount(frames) + |batch| == i
    {
      var e := stream[i];
      assert stream[..i + 1] == stream[..i] + [e];
      var pe := Encode(e);
      DecodeUndoesEncode(e);
      if pe.Malformed? {
        assert e in order;
        return false, frames, order;
      }
      StreamedMore(frames, batch, stream[..i], e);
      batch := batch + [Some(pe.value)];
      if |batch| == size {
        Flushed(frames, batch, stream[..i + 1]);
        frames := frames + [batch];
        batch := [];
      }
    }
    assert stream[..|stream|] == stream;
    if |batch| > 0 {
      Flushed(frames, batch, stream);
      frames := frames + [batch];
    }
  }

  /** Decodes and merges one frame, skipping malformed events. */
  method MergeFrame(r: Node, f: Frame, ghost net: Net) returns (n: nat)
    requires r.Valid()
    modifies r`accepted, r.log, r.clk
    ensures r.Valid() && n == |Decoded(f)|
    ensures MergedSoundly(net, r.id, old(r.ThePeer()), r.ThePeer(), Decoded(f))
  {
    var events: seq<Event> := [];
    for i := 0 to |f|
      invariant events == Decoded(f[..i])
    {
      assert f[..i + 1][..i] == f[..i];
      var e := Decode(f[i]);
      if e.Ok? {
        events := events + [e.value];
      }
    }
    assert f[..|f|] == f;
    DecodedIsValid(f);
    var walls: nat -> Int64 := *;
    n := r.Merge(events, walls, net);
  }

  // ---------------------------------------------------------------- what a session does

  lemma MergedThen(net: Net, i: NodeId, p: Peer, p1: Peer, p2: Peer, es: seq<Event>, fs: seq<Event>)
    requires MergedSoundly(net, i, p, p1, es) && MergedSoundly(net[i := p1], i, p1, p2, fs)
    ensures MergedSoundly(net, i, p, p2, es + fs)
  {
    hide NetInv, Gains, Valid;
    if NetInv(net) && i in net && net[i] == p && AllHeld(net, es + fs) {
      assert forall d :: d in es ==> d in es + fs;
      GainsExtends(p.h.accepted, p1.h.accepted, es);
      forall e | e in fs
        ensures HeldSomewhere(net[i := p1], e)
      {
        assert e in es + fs;
        StillSomewhere(net, i, p1, e);
      }
      GainsMore(p.h.accepted, p1.h.accepted, p2.h.accepted, es, fs);
      assert net[i := p1][i := p2] == net[i := p2];
      CountConcat(es, fs);
    }
  }

  lemma {:induction false} CountConcat(es: seq<Event>, fs: seq<Event>)
    requires CountValid(es) == |es| && CountValid(fs) == |fs|
    ensures CountValid(es + fs) == |es + fs|
    decreases |fs|
  {
    hide Valid;
    if fs == [] {
      assert es + fs == es;
    } else {
      var init := fs[..|fs| - 1];
      assert (es + fs)[..|es + fs| - 1] == es + init;
      CountAtMost(init);
      CountConcat(es, init);
    }
  }

  lemma {:induction false} CountAtMost(es: seq<Event>)
    ensures CountValid(es) <= |es|
  {
    if es != [] { CountAtMost(es[..|es| - 1]); }
  }

  /** acc' has grown from acc by events of u only. */
  ghost predicate Within(acc: Accepted, acc': Accepted, u: Accepted)
  {
    Extends(acc, acc') && forall id :: id in acc' ==> id in u && acc'[id] == u[id]
  }

  /** What j streams to i comes from what j holds; when all of it arrives, i holds everything the
      two held between them. */
  lemma StreamBringsUnion(net: Net, i: NodeId, j: NodeId, p: Peer, order: seq<Event>, es: seq<Event>)
    requires NetInv(net) && i in net && j in net
    requires Enumerates(order, SinceSet(net[j].h.log, QueryVector(net[i].h.log)))
    requires es <= order && Gains(net[i].h.accepted, p.h.accepted, es)
    ensures Within(net[i].h.accepted, p.h.accepted, net[j].h.accepted + net[i].h.accepted)
    ensures es == order ==> p.h.accepted == net[j].h.accepted + net[i].h.accepted
  {
    hide NetInv, QueryVector, Inv;
    var mine, theirs := net[i].h.accepted, net[j].h.accepted;
    forall e | e in es
      ensures e.id in theirs && theirs[e.id] == e
    {
      assert e in order;
      StreamedIsHeld(net, j, QueryVector(net[i].h.log), e);
    }
    forall id | id in mine && id in theirs
      ensures mine[id] == theirs[id]
    {
      OriginHolds(net, i, id);
      OriginHolds(net, j, id);
    }
    if es == order {
      forall id | id in theirs && id !in mine
        ensures id in p.h.accepted && p.h.accepted[id] == theirs[id]
      {
        NothingIsUndeliverable(net, j, i, id);
        var e := theirs[id];
        assert e in order;
        StreamedIsHeld(net, j, QueryVector(net[i].h.log), e);
        HoldsById(net, j, id);
      }
    }
  }

  lemma StreamedIsHeld(net: Net, j: NodeId, vv: VersionVector, e: Event)
    requires NetInv(net) && j in net && e in SinceSet(net[j].h.log, vv)
    ensures e.id in net[j].h.accepted && net[j].h.accepted[e.id] == e && Valid(e)
  {
    hide NetInv, Valid;
    NodeFacts(net, j);
    HistoryFacts(net[j].h);
    var id :| id in net[j].h.log.rows && net[j].h.log.rows[id] == e;
    assert net[j].h.accepted[id] == e;
  }

  lemma HoldsById(net: Net, j: NodeId, id: EventId)
    requires NetInv(net) && j in net && id in net[j].h.accepted
    ensures net[j].h.accepted[id].id == id
  {
    hide NetInv, Valid;
    NodeFacts(net, j);
    HistoryFacts(net[j].h);
  }

  // ---------------------------------------------------------------- a session

  datatype Report = Report(sent: nat, received: nat, rejected: nat)

  /** How many frames still get through; None when the session is not cut. */
  type Budget = Option<nat>

  method Transmit(b: Budget) returns (through: bool, left: Budget)
    ensures through == (b != Some(0))
    ensures left == if b.Some? && b.value > 0 then Some(b.value - 1) else b
  {
    through := b != Some(0);
    left := if b.Some? && b.value > 0 then Some(b.value - 1) else b;
  }

  /** Merges frames one by one until all are in or the session is cut. */
  method Consume(r: Node, frames: seq<Frame>, budget: Budget, ghost net: Net)
    returns (ok: bool, left: Budget, received: nat, rejected: nat, ghost m: nat)
    requires r.Valid()
    modifies r`accepted, r.log, r.clk
    ensures r.Valid() && m <= |frames| && (ok ==> m == |frames|) && (budget.None? ==> ok && left.None?)
    ensures received == |AllDecoded(frames[..m])| && received + rejected == EventCount(frames[..m])
    ensures MergedSoundly(net, r.id, old(r.ThePeer()), r.ThePeer(), AllDecoded(frames[..m]))
  {
    hide MergedSoundly, Decoded, AllDecoded, EventCount;
    ghost var was := r.ThePeer();
    ok, left, received, rejected, m := true, budget, 0, 0, 0;
    EmptyFrame();
    MergedNothing(net, r.id, was);
    for k := 0 to |frames|
      invariant r.Valid() && m == k && (budget.None? ==> left.None?)
      invariant received == |AllDecoded(frames[..m])| && received + rejected == EventCount(frames[..m])
      invariant MergedSoundly(net, r.id, was, r.ThePeer(), AllDecoded(frames[..m]))
    {
      var through;
      through, left := Transmit(left);
      if !through {
        ok := false;
        return;
      }
      ghost var before := r.ThePeer();
      var n := MergeFrame(r, frames[k], net[r.id := before]);
      assert frames[..k + 1] == frames[..k] + [frames[k]];
      FramesSnoc(frames[..k], frames[k]);
      MergedThen(net, r.id, was, before, r.ThePeer(), AllDecoded(frames[..k]), Decoded(frames[k]));
      DecodedIsValid(frames[k]);
      received := received + n;
      rejected := rejected + |frames[k]| - n;
      m := k + 1;
    }
  }

  ghost predicate Apart(c: Node, s: Node)
  {
    c != s && c.id != s.id && c.log != s.log && c.clk != s.clk
  }

  /** What a session between two nodes of a sound cluster achieves, cut or not: the cluster stays
      sound, both nodes only gain events of the union, and when it completes both hold exactly
      the union and nothing was rejected. */
  ghost predicate SessionSound(net: Net, i: NodeId, j: NodeId, p: Peer, q: Peer, p': Peer, q': Peer, ok: bool, rep: Report)
  {
    NetInv(net) && i in net && j in net && i != j && net[i] == p && net[j] == q ==>
      var u := p.h.accepted + q.h.accepted;
      && NetInv(net[i := p'][j := q'])
      && Within(p.h.accepted, p'.h.accepted, u) && Within(q.h.accepted, q'.h.accepted, u)
      && (ok ==> p'.h.accepted == q'.h.accepted == u && rep.rejected == 0)
  }

  lemma UnionCommutes(net: Net, i: NodeId, j: NodeId)
    requires NetInv(net) && i in net && j in net
    ensures net[i].h.accepted + net[j].h.accepted == net[j].h.accepted + net[i].h.accepted
  {
    hide NetInv;
    forall id | id in net[i].h.accepted && id in net[j].h.accepted
      ensures net[i].h.accepted[id] == net[j].h.accepted[id]
    {
      OriginHolds(net, i, id);
      OriginHolds(net, j, id);
    }
  }

  lemma {:induction false} DecodedPrefix(fs: seq<Frame>, m: nat)
    requires m <= |fs|
    ensures AllDecoded(fs[..m]) <= AllDecoded(fs)
  {
    hide Decoded;
    if m < |fs| {
      DecodedPrefix(fs[..|fs| - 1], m);
      assert fs[..|fs| - 1][..m] == fs[..m];
    } else {
      assert fs[..m] == fs;
    }
  }

  /** One direction of a session: i merges the first es of what j streams to it. */
  lemma HalfSession(net: Net, i: NodeId, j: NodeId, p': Peer, order: seq<Event>, es: seq<Event>)
    requires NetInv(net) && i in net && j in net && es <= order
    requires Enumerates(order, SinceSet(net[j].h.log, QueryVector(net[i].h.log)))
    requires MergedSoundly(net, i, net[i], p', es)
    ensures NetInv(net[i := p']) && Within(net[i].h.accepted, p'.h.accepted, net[i].h.accepted + net[j].h.accepted)
    ensures es == order ==> p'.h.accepted == net[i].h.accepted + net[j].h.accepted
  {
    hide NetInv, QueryVector, Gains, Valid, SinceSet;
    forall e | e in es
      ensures HeldSomewhere(net, e)
    {
      assert e in order;
      StreamedIsHeld(net, j, QueryVector(net[i].h.log), e);
    }
    StreamBringsUnion(net, i, j, p', order, es);
    UnionCommutes(net, i, j);
  }

  lemma StreamIsValid(net: Net, j: NodeId, vv: VersionVector, order: seq<Event>)
    requires NetInv(net) && j in net && Enumerates(order, SinceSet(net[j].h.log, vv))
    ensures forall e :: e in order ==> Valid(e)
  {
  }

  /** The session was cut while the client was being sent to. */
  lemma CutEarly(net: Net, i: NodeId, j: NodeId, p: Peer, q: Peer, p': Peer, order: seq<Event>, es: seq<Event>, rep: Report)
    requires es <= order && Enumerates(order, SinceSet(q.h.log, QueryVector(p.h.log)))
    requires MergedSoundly(net, i, p, p', es)
    ensures SessionSound(net, i, j, p, q, p', q, false, rep)
  {
    hide NetInv, QueryVector, MergedSoundly, SinceSet, Enumerates;
    if NetInv(net) && i in net && j in net && i != j && net[i] == p && net[j] == q {
      HalfSession(net, i, j, p', order, es);
      assert net[i := p'][j := q] == net[i := p'];
      StaysWithin(net, i, j);
    }
  }

  lemma StaysWithin(net: Net, i: NodeId, j: NodeId)
    requires NetInv(net) && i in net && j in net
    ensures Within(net[j].h.accepted, net[j].h.accepted, net[i].h.accepted + net[j].h.accepted)
  {
  }

  lemma BothHalves(net: Net, i: NodeId, j: NodeId, p: Peer, q: Peer, p': Peer, q': Peer,
                   down: seq<Event>, up: seq<Event>, es: seq<Event>, rep: Report)
    requires Enumerates(down, SinceSet(q.h.log, QueryVector(p.h.log))) && MergedSoundly(net, i, p, p', down)
    requires Enumerates(up, SinceSet(p'.h.log, QueryVector(q.h.log))) && es <= up
    requires MergedSoundly(net[i := p'], j, q, q', es)
    ensures SessionSound(net, i, j, p, q, p', q', es == up && rep.rejected == 0, rep)
  {
    hide NetInv, QueryVector, MergedSoundly, SinceSet, Enumerates;
    if NetInv(net) && i in net && j in net && i != j && net[i] == p && net[j] == q {
      HalfSession(net, i, j, p', down, down);
      HalfSession(net[i := p'], j, i, q', up, es);
      var u := p.h.accepted + q.h.accepted;
      assert q.h.accepted + u == u by { assert forall id :: id in q.h.accepted ==> u[id] == q.h.accepted[id]; }
    }
  }

  /** One session: Hello, the server's Welcome and batches up to its Ack, then the client's batches
      and Ack. Both vectors are read before anything is merged. */
  method SyncOnce(c: Node, s: Node, clientBatch: int, serverBatch: int, cut: Budget, ghost net: Net)
    returns (ok: bool, rep: Report)
    requires c.Valid() && s.Valid() && Apart(c, s)
    modifies c`accepted, c.log, c.clk, s`accepted, s.log, s.clk
    ensures c.Valid() && s.Valid()
    ensures SessionSound(net, c.id, s.id, old(c.ThePeer()), old(s.ThePeer()), c.ThePeer(), s.ThePeer(), ok, rep)
    ensures cut.None? && NetInv(net) && c.id in net && s.id in net && net[c.id] == old(c.ThePeer()) && net[s.id] == old(s.ThePeer()) ==> ok
  {
    hide NetInv, QueryVector, MergedSoundly, SinceSet, Enumerates, SessionSound, AllDecoded, EventCount, EndsRun, Ordered, Batched;
    ghost var p, q := c.ThePeer(), s.ThePeer();
    rep := Report(0, 0, 0);
    NoSession(net, c.id, s.id, p, q, rep);
    var mine := c.log.GetVersionVector();
    var through, left := Transmit(cut);
    if !through { return false, rep; }
    var theirs := s.log.GetVersionVector();
    through, left := Transmit(left);
    if !through { return false, rep; }
    var encoded, frames; ghost var down;
    encoded, frames, down := StreamEvents(s, mine, BatchSize(serverBatch));
    if NetInv(net) && s.id in net && net[s.id] == q { StreamIsValid(net, s.id, mine, down); }
    if !encoded { return false, rep; }
    var got, rejected; ghost var m;
    ok, left, got, rejected, m := Consume(c, frames, left, net);
    DecodedPrefix(frames, m);
    assert frames[..|frames|] == frames;
    CutEarly(net, c.id, s.id, p, q, c.ThePeer(), down, AllDecoded(frames[..m]), rep);
    if !ok { return false, rep; }
    through, left := Transmit(left);
    if !through { return false, rep; }
    ok, rep := PushBack(c, s, theirs, clientBatch, left, got, rejected, net, p, q, down);
  }

  lemma NoSession(net: Net, i: NodeId, j: NodeId, p: Peer, q: Peer, rep: Report)
    ensures SessionSound(net, i, j, p, q, p, q, false, rep)
  {
    hide NetInv;
    assert i in net && net[i] == p && j in net && net[j] == q ==> net[i := p][j := q] == net;
    if NetInv(net) && i in net && j in net && net[i] == p && net[j] == q {
      UnionCommutes(net, i, j);
    }
  }

  /** The second half of SyncOnce: the client streams what the Welcome vector lacks. */
  method PushBack(c: Node, s: Node, theirs: VersionVector, clientBatch: int, budget: Budget, got: nat, lost: nat,
                  ghost net: Net, ghost p: Peer, ghost q: Peer, ghost down: seq<Event>)
    returns (ok: bool, rep: Report)
    requires c.Valid() && s.Valid() && Apart(c, s)
    requires s.ThePeer() == q && theirs == QueryVector(q.h.log)
    requires Enumerates(down, SinceSet(q.h.log, QueryVector(p.h.log))) && MergedSoundly(net, c.id, p, c.ThePeer(), down)
    requires got == |down| && lost == 0
    modifies s`accepted, s.log, s.clk
    ensures c.Valid() && s.Valid()
    ensures SessionSound(net, c.id, s.id, p, q, c.ThePeer(), s.ThePeer(), ok, rep)
    ensures budget.None? && NetInv(net) && c.id in net && s.id in net && net[c.id] == p && net[s.id] == q ==> ok
  {
    hide NetInv, QueryVector, MergedSoundly, SinceSet, Enumerates, SessionSound, AllDecoded, EventCount, Ordered, Batched;
    rep := Report(0, 0, 0);
    CutEarly(net, c.id, s.id, p, q, c.ThePeer(), down, down, rep);
    ghost var p' := c.ThePeer();
    var encoded, frames; ghost var up;
    encoded, frames, up := StreamEvents(c, theirs, BatchSize(clientBatch));
    if NetInv(net) && c.id in net && s.id in net && net[c.id] == p && net[s.id] == q {
      HalfSession(net, c.id, s.id, p', down, down);
      StreamIsValid(net[c.id := p'], c.id, theirs, up);
    }
    if !encoded { return false, rep; }
    var left, received, rejected; ghost var m;
    ok, left, received, rejected, m := Consume(s, frames, budget, net[c.id := p']);
    DecodedPrefix(frames, m);
    assert frames[..|frames|] == frames;
    BothHalves(net, c.id, s.id, p, q, p', s.ThePeer(), down, up, AllDecoded(frames[..m]), rep);
    if !ok {
      Weaken(net, c.id, s.id, p, q, p', s.ThePeer(), rep, rep);
      return false, rep;
    }
    var through;
    through, left := Transmit(left);
    if !through {
      Weaken(net, c.id, s.id, p, q, p', s.ThePeer(), rep, rep);
      return false, rep;
    }
    rep := Report(received + rejected, got, lost);
    assert AllDecoded(frames[..m]) == up;
    BothHalves(net, c.id, s.id, p, q, p', s.ThePeer(), down, up, up, rep);
  }

  lemma Weaken(net: Net, i: NodeId, j: NodeId, p: Peer, q: Peer, p': Peer, q': Peer, rep: Report, rep': Report)
    requires exists ok :: SessionSound(net, i, j, p, q, p', q', ok, rep)
    ensures SessionSound(net, i, j, p, q, p', q', false, rep')
  {
  }
}
